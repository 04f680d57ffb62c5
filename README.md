# cl3w generator model

`cl3w_gen.py` generates the OpenCL loader cl3w. It reads the Khronos
registry `cl.xml`, picks the commands brought in by the core versions up to
a ceiling (`--cl_std`) and by the extensions matching a pattern list
(`--cl_ext`), and parses every `<command>` into a return declaration and
parameter declarations. It then writes C fragments and splices them into
the templates `cl3w.h` and `cl3w.c`:

- the function-pointer typedefs;
- the `CL3WAPIs` union of a pointer array and named pointers;
- the `#define`s;
- the forwarding functions;
- the dummy implementations;
- the name table `cl3w_api_names`;
- `unload_apis`;
- the probe accessor.

This Dafny project models that pipeline and proves its laws.

| module (file) | what part of the script it models |
|---|---|
| `Wrappers` (`wrappers.dfy`) | `Option`, `Result` and `Outcome` |
| `Strings` (`strings.dfy`) | Python string operations the script uses: `strip`, `join`, `upper`, `{:<w}` padding, `str(int)`, `in`, `replace` |
| `Glob` (`glob.dfy`) | a `*`/`?` matcher standing in for `fnmatch` |
| `Decl` (`decl.dfy`) | `Type`, `NameAndType`, `API` and `API.from_xml_command` with its `visit_proto_or_param` loop |
| `Selection` (`selection.dfy`) | `get_supported_func_names`, the parsing of all commands, and the filter of line 185 |
| `Classify` (`classify.dfy`) | the error classification, the derived names and `as_pfn_typedef` |
| `Emit` (`emit.dfy`) | every `gen_*` function |
| `Templates` (`templates.dfy`) | the class `Template` (`format`, and the banner choice of `write`) |
| `Generator` (`generator.dfy`) | the top-level statements that fill the two templates |

How the model is built:

- **Imperative code stays imperative.** The script's loops are `method`s with loop invariants. `visit_proto_or_param`, the name loops, every `StringIO` loop and the probe loop with its leftover index are `method`s. `Template` is a `class` whose `format` method updates the field `tpl`. Each method is proved equal to a specification function. The properties are lemmas about those functions.
- **`StringIO` is the list of its writes.** The list is concatenated at `getvalue()`.
- **The two-phase reading of the composer.** A declaration is the pieces before its `<name>` child, its name, and the pieces after it. This reading is the function `Decl.TwoPhase`, proved equal to the in-place scan by `Decl.ComposeTwoPhase`.
- **Every exception the script can raise is a `Result` error.** The errors are:
  - a version ceiling outside the version list (`ValueError` of `index`, line 59). From the command line this cannot happen, since the `choices` of line 39 reject an unknown `--cl_std` before the script starts. It can happen when `get_supported_func_names` is taken as a function of its ceiling, as the model does;
  - a registry without `<extensions>` (`IndexError`);
  - a `<commands>` count other than one, or a `<proto>` count other than one;
  - a bad child node (the `ValueError` and the failed assertion of lines 136-141);
  - a parameter without a name reaching `", ".join` in `gen_stub_impls` (`TypeError`; `None` is not a string);
  - an empty command list reaching the probe accessor (the loop variable `i` is unbound);
  - a missing template marker (the assertion of line 299).

  Within the registry reading, and within the filling of each template, the first error the script meets is the one returned. The two files are generated separately: `cl3w.h` is filled and written (lines 321-326) before any `cl3w.c` fragment is built, so a missing `cl3w.h` marker comes before an unnamed parameter or an empty command list.

Behaviour the model keeps as the script has it:

- **Every occurrence of a marker is replaced.** `Template.format` checks only that the marker is present. `Templates.FormatEveryOccurrence` proves that a marker occurring twice is replaced at both places. A duplicated marker is not rejected.
- **The probe can point at the wrong command.** When `clCreateContext` is not selected, the probe accessor returns the entry of the last command, whatever its name (`Emit.ProbeIndex`).
- **The version ceiling is a parameter.** `get_supported_func_names` reads the ceiling from `args.cl_std`, not from its own argument. The one call site passes the same value, so the model takes the ceiling as a parameter.
- **The composer updates its buffers in place.** The model keeps the in-place scan (`Decl.ComposeDecl`) and proves it equal to the two-phase reading (`Decl.ComposeTwoPhase`).
- **Templates are taken after line-ending translation.** The template files have CRLF line endings. The script reads them in text mode, which turns CRLF into `\n`, so the markers with their `\n` match. The model takes the template text after that translation.

## Model

| member | source | states |
|---|---|---|
| Decl.MkType | cl3w_gen.py:82-84 | The `Type` constructor leaves both parts stripped and keeps parts that are already stripped. |
| Decl.WithNameText | cl3w_gen.py:86-90 | `with_name(n)` is `str(T)` with `" " + n` between prefix and suffix. Cutting that out gives `str(T)` back, and the lengths add up. |
| Decl.ComposeDecl | cl3w_gen.py:120-142 | The child loop of `visit_proto_or_param` returns exactly the composed declaration `Compose(s)`, or the error of the first bad child, with the child's index. |
| Decl.VisitChild | cl3w_gen.py:124-141 | One loop step: a text child is appended to the active buffer, a `*` alone without a space and any other text after one space. A `<type>` child's text goes after a space. A `<name>` child records the name and switches to the suffix buffer. A second name, a text-less element or any other node fails. |
| Decl.Compose | cl3w_gen.py:120-142 | A composed declaration has stripped prefix and suffix. |
| Decl.ScanIsExpected | cl3w_gen.py:124-141 | After every prefix of the children, the scan's state is the two-phase description. Before the name, the pieces of the prefix buffer. After it, the recorded name, the prefix pieces and the suffix pieces so far. Or the first fault. |
| Decl.DeclRoundTrip | cl3w_gen.py:120-142 | For a `<proto>` or `<param>` that composes with a name, and whose `<type>` and `<name>` children hold only text, `with_name` of the composed type and name is the children's text in order, up to whitespace. |
| Decl.CDataChildren | cl3w_gen.py:131-141 | CDATA inside `<type>` or `<name>` is read with the text next to it, as `wholeText` does; a CDATA section directly inside `<proto>`/`<param>` is refused as an unexpected node. |
| Decl.ComposeTwoPhase | cl3w_gen.py:120-142 | The in-place scan equals the two-phase reading: the pieces before the `<name>` child form the prefix, those after it the suffix, and the first faulty child decides the error. |
| Decl.ComposeSucceedsIff | cl3w_gen.py:131-141 | Composition succeeds iff every child is text or a `<type>`/`<name>` element with text, and no two children are `<name>`. |
| Decl.VisitFails | cl3w_gen.py:136-141 | A faulty child makes the step fail with its index and fault. |
| Decl.PointerParam | cl3w_gen.py:125-142 | The registry's `<type>cl_int</type> *<name>errcode_ret</name>` shape, for any base type, composes into type text `base*` with the star bound without a space. |
| Decl.SuffixParam | cl3w_gen.py:125-142 | Text after the name becomes the suffix, and `with_name` rebuilds `base name[4]`. |
| Decl.Formals | cl3w_gen.py:170 | The formal list has one declaration per parameter: `with_name` of its type and its name (`None` when missing). |
| Decl.ParseCommand | cl3w_gen.py:146-150 | `from_xml_command` returns `Parse(cmd)`. It fails on a `<proto>` count other than one, else it composes the proto, then every param in order. |
| Decl.ComposeParams | cl3w_gen.py:148-149 | The param loop returns the left fold `ComposeAll`. |
| Decl.ComposeAllSuccess | cl3w_gen.py:148-149 | All params compose iff each does, and then the list holds each one's declaration, in order. |
| Decl.ComposeAllFailure | cl3w_gen.py:148-149 | A failure is the error of the first param that fails, every earlier one composing. |
| Decl.ComposeAllStopped | cl3w_gen.py:148-149 | Once a prefix of the params fails, the result is that failure. |
| Decl.ParseSucceedsIff | cl3w_gen.py:146-150 | A command parses iff it has one proto and every declaration composes, and then it parses into exactly those declarations. |
| Decl.ParseFailure | cl3w_gen.py:146-150 | A failed parse reports the proto count, the proto's error, or the error of the first failing param. |
| Selection.IndexOf | cl3w_gen.py:59 | `list.index` gives the first position of the value. |
| Selection.StdsMembers | cl3w_gen.py:59 | A version is under the ceiling iff it is a known version not newer than the ceiling: an inclusive prefix of `cl_stds`. |
| Selection.AppendFeatures | cl3w_gen.py:60-63 | The feature loop appends the commands of the features whose number is selected, in document order. |
| Selection.AppendExtensions | cl3w_gen.py:65-69 | The extension loop appends an extension's commands once per matching pattern, in order. |
| Selection.AppendAll | cl3w_gen.py:62-63 | The innermost loop appends every command name in order. |
| Selection.SupportedFuncNames | cl3w_gen.py:57-71 | `get_supported_func_names` returns the set of names `SupportedNames`. It fails on an unknown ceiling before anything else, then on a missing `<extensions>`. |
| Selection.FeatureListMembers | cl3w_gen.py:60-63 | A name is appended by the feature loop iff a selected feature lists it. |
| Selection.MatchListMembers | cl3w_gen.py:66-69 | A name is appended for an extension iff some pattern matches the extension and it lists the name. |
| Selection.ExtensionListMembers | cl3w_gen.py:65-69 | A name is appended by the extension loop iff a matched extension lists it. |
| Selection.SupportedNamesMembers | cl3w_gen.py:57-71 | A name is supported iff a feature not newer than the ceiling lists it, or an extension matched by some pattern lists it. |
| Selection.SupportedNamesErrors | cl3w_gen.py:57-71 | Selection fails exactly on an unknown ceiling or a registry without `<extensions>`, the ceiling checked first. |
| Selection.CeilingMonotone | cl3w_gen.py:59-63 | Raising the ceiling never drops a name. |
| Selection.PatternsMonotone | cl3w_gen.py:65-69 | More patterns never drop a name. |
| Selection.NoPatternsNoExtensions | cl3w_gen.py:65-69 | With no patterns only feature commands are selected. |
| Selection.SelectionExample | cl3w_gen.py:57-71 | On a small registry, ceiling 1.2 and pattern `cl_khr_*` select exactly the 1.0 command and the `cl_khr_icd` command. Commands of 2.0 and of a non-matching extension are left out. |
| Selection.SelectCommands | cl3w_gen.py:185 | The filter keeps only commands whose name is supported. The result is a subsequence of the document order, and each kept command occurs as often as in the input (a multiset count). |
| Selection.SelectCommandsMembers | cl3w_gen.py:185 | A command is in the list iff it was parsed and its name is supported. |
| Selection.ParseAll | cl3w_gen.py:185 | Parsing all commands succeeds iff each parses, and yields each parse in order. Otherwise it gives the first failure. |
| Selection.LoadCommandsMembers | cl3w_gen.py:185 | A loaded list comes from the one `<commands>` element, and holds exactly the parsed commands whose name is supported. |
| Classify.Classification | cl3w_gen.py:176-183 | `is_rettype_err` and `is_last_param_err` never hold together, and they select exactly the return-code and write-back branches of the dummy body (lines 233-238). A command with no params returns its error code iff it returns `cl_int`. |
| Classify.Report | cl3w_gen.py:233-238 | The `if`/`elif`/`else` picks the return code, the write-back through the last param (naming it), or no report, exactly under the classifications. |
| Classify.AppendixCases | cl3w_gen.py:233-238 | A dummy body ends in one of the three texts, and only a command that returns its error code returns `CL_INVALID_HOST_PTR`. |
| Classify.PfnTypedefNameIff | cl3w_gen.py:164-165 | Two typedef names agree iff the command names agree after upper-casing. |
| Classify.DummyImplNameInjective | cl3w_gen.py:173-174 | Dummy names agree iff the command names agree. |
| Classify.ParseNormalized | cl3w_gen.py:82-84 | Every declaration of a parsed command is stripped. |
| Classify.TypeTextStripped | cl3w_gen.py:89-90 | `str(T)` of a stripped type is stripped. |
| Classify.AsPfnTypedefParts | cl3w_gen.py:167-171 | The typedef is the typedef name declared with the stripped prefix and suffix. |
| Classify.SuffixKept | cl3w_gen.py:170 | The parameter-list part is never stripped. |
| Classify.AsPfnTypedefShape | cl3w_gen.py:167-171 | For a normalized command with a return type, the typedef reads `typedef <ret> (CL_API_CALL CL_API_ENTRYP PFN<NAME>FUNC)(<params>);`, with nothing stripped. |
| Classify.AsPfnTypedefNoReturnType | cl3w_gen.py:167-171 | With an empty return type the macros lose their leading space. |
| Emit.Actuals | cl3w_gen.py:214 | The actual arguments are the parameter names, one per parameter. |
| Emit.SpanSplit | cl3w_gen.py:189-193 | The writes of a loop split at any step into the writes before and after it. |
| Emit.FragmentLayout | cl3w_gen.py:189-193 | A fragment holds the head, then exactly one entry per step in order, then the foot. Entry `i` sits after the head and the entries before it. |
| Emit.WriteSeparator | cl3w_gen.py:211-212 | Every entry but the first is preceded by a blank line. |
| Emit.GenPfnTypedefs | cl3w_gen.py:188-193 | The loop writes the typedef and a newline for each command in order (`TypedefsText`). |
| Emit.GenStubDecl | cl3w_gen.py:196-205 | The union declares `ptr[len(commands)]`, then one named pointer per command in order, then the closing lines. |
| Emit.DeclLine | cl3w_gen.py:202 | Pointer `i` has its typedef type and command `i`'s name, the name after a type column of at least 55 characters. |
| Emit.PaddedLayout | cl3w_gen.py:202 | A left-aligned field keeps its text at the start, pads with blanks, and the next part starts at the column after the field. |
| Emit.DefineLine | cl3w_gen.py:261 | Macro `i` names command `i`, padded to at least 50 columns, and expands to `cl3w_apis.cl.<name>`. |
| Emit.GenDefines | cl3w_gen.py:258-262 | One `#define` per command, in order. |
| Emit.FirstUnnamed | cl3w_gen.py:213-214 | The first command from a position whose parameters are not all named. |
| Emit.StubImplsFails | cl3w_gen.py:213-214 | The first command with an unnamed parameter makes `gen_stub_impls` raise, with that command's index. |
| Emit.StubImplsSucceeds | cl3w_gen.py:208-219 | With every parameter named, the result is one forwarding function per command in order, blank-line separated. |
| Emit.WriteImpl | cl3w_gen.py:211-218 | One iteration succeeds iff the command's parameters are all named, and then writes its separator and forwarding function. |
| Emit.GenStubImpls | cl3w_gen.py:208-219 | `gen_stub_impls` returns `StubImplsText`: the forwarding functions, or the error of the first unnamed parameter. |
| Emit.ChooseAppendix | cl3w_gen.py:233-238 | The branch picks the appendix of the command's classification. |
| Emit.WriteDummy | cl3w_gen.py:228-245 | One iteration writes the separator and dummy `i`. |
| Emit.GenStubDummies | cl3w_gen.py:222-246 | The message prefix and suffix, then one dummy per command in order. |
| Emit.GenApiNames | cl3w_gen.py:249-255 | The name table lists every command name in order. |
| Emit.GenUnloadApis | cl3w_gen.py:265-271 | `unload_apis` assigns one slot per command in order. |
| Emit.ProbeIndex | cl3w_gen.py:276-278 | The leftover loop index is the first `clCreateContext`, or the last command when there is none. |
| Emit.ProbeFrom | cl3w_gen.py:276-278 | The search from position `k` stops at the first `clCreateContext` at or after `k`, or at the last command. |
| Emit.GenProbeApiName | cl3w_gen.py:274-284 | The probe loop's result is `ProbeResult`: the accessor returning the table entry at the leftover index, or the unbound-variable error for an empty list. |
| Emit.ProbeInBounds | cl3w_gen.py:274-284 | The accessor fails iff there are no commands. Its index is in the table, and it is the first `clCreateContext` whenever one is present. |
| Emit.UnloadSlot | cl3w_gen.py:199 | `unload_apis` stores command `i`'s dummy in slot `i`, and `ptr` is declared with `len(commands)` slots, so slot `i` exists. |
| Emit.DummySlot | cl3w_gen.py:240-245 | Dummy `i` is named after command `i` and prints entry `i` of `cl3w_api_names`, which holds command `i`'s name. |
| Strings.StripIsStripped | cl3w_gen.py:83-84 | `strip` leaves no leading or trailing whitespace. |
| Strings.StripStripped | cl3w_gen.py:83-84 | `strip` keeps an already stripped string. |
| Strings.StripEmpty | cl3w_gen.py:126 | A text strips to empty iff it is all whitespace. |
| Strings.StripAround | cl3w_gen.py:83-84 | Whitespace around a stripped text is removed, and nothing more. |
| Strings.Upper | cl3w_gen.py:165 | `upper` keeps the length and upper-cases each letter. |
| Strings.PadRight | cl3w_gen.py:202 | `{:<w}` keeps the text, pads it with spaces to `w` and never truncates. |
| Strings.NatToString | cl3w_gen.py:199 | `str(n)` is a non-empty decimal numeral with no leading zero. |
| Strings.ParseNatToString | cl3w_gen.py:269 | The numeral reads back as the number. |
| Strings.NatToStringInjective | cl3w_gen.py:241 | Distinct numbers print distinct numerals. |
| Strings.ReplaceAbsent | cl3w_gen.py:300 | `replace` leaves a text without the pattern unchanged. |
| Strings.ReplaceSkip | cl3w_gen.py:300 | A stretch without the pattern is kept and the scan goes on. |
| Strings.ReplaceOnce | cl3w_gen.py:300 | A pattern occurring once is replaced at that place. |
| Strings.ReplaceTwice | cl3w_gen.py:300 | A pattern occurring twice is replaced at both places. |
| Strings.ReplaceLead | cl3w_gen.py:300 | The first occurrence is replaced and the scan goes on after it. |
| Glob.LiteralMatch | cl3w_gen.py:67 | A pattern without wildcards matches only itself. |
| Glob.StarMatchesAll | cl3w_gen.py:67 | `*` matches every name. |
| Glob.PrefixStarMatch | cl3w_gen.py:67 | `p*` matches exactly the names starting with `p`. |
| Templates.MarkerShape | cl3w_gen.py:298 | A marker is one line, `/* generated ` + key + ` */` and a newline, and different keys give different markers. |
| Templates.Template.constructor | cl3w_gen.py:294-295 | The template holds the given text. |
| Templates.Template.Format | cl3w_gen.py:297-300 | `format` passes iff the marker occurs. It then replaces every occurrence by the value, else it fails naming the marker and leaves the text. It agrees with `Formatted`. |
| Templates.FormatMissing | cl3w_gen.py:299 | `format` fails exactly on a missing marker, reporting that marker. |
| Templates.FormatSplice | cl3w_gen.py:297-300 | A marker occurring once is replaced in place, the rest kept. |
| Templates.FormatEveryOccurrence | cl3w_gen.py:300 | A marker occurring twice is replaced at both places, and nothing fails. |
| Templates.Template.Write | cl3w_gen.py:302-309 | `write` puts the banner the flags select, then the text. |
| Templates.BannerChoice | cl3w_gen.py:304-308 | `--no_header` writes no banner. Otherwise the banner is one C comment naming the generator, carrying the licence iff `--no_license` is absent. |
| Generator.FillHeader | cl3w_gen.py:322-326 | The `cl3w_h` statements equal `HeaderFill`: three `format` calls in script order, then `write`. |
| Generator.FillSource | cl3w_gen.py:331-337 | The `cl3w_c` statements equal `SourceFill`: each fragment evaluated before its `format`, in script order, then `write`. |
| Generator.GenerateHeader | cl3w_gen.py:321-326 | `cl3w.h` is the header template filled with the typedefs, the union and the defines of the selected commands. |
| Generator.GenerateSource | cl3w_gen.py:330-337 | `cl3w.c` is the source template filled with the dummies, forwarding functions, name table, `unload_apis` and probe accessor. |
| Generator.SpliceNext | cl3w_gen.py:297-300 | Splicing one marker leaves the rest regrouped for the next. |
| Generator.HeaderLayout | template/cl3w.h:65-72 | With each marker occurring once, the header is the banner, then the template with the typedefs, union and defines in their markers' places. |
| Generator.SourceLayout | template/cl3w.c:142-167 | With each marker occurring once in the order of the template (name table first), every fragment lands at its marker, although the name table is spliced third. |
| Generator.SourceErrors | cl3w_gen.py:332-336 | A missing `stub dummies` marker is reported before an unnamed parameter. A successful `cl3w.c` implies both raising fragments succeeded. |
| Generator.LoadedCommandsNamed | cl3w_gen.py:185 | Every command that passes the filter has a name, which the generators require. |

## Left out

- Argument parsing and the indentation unit (lines 34-45): the unit, the ceiling, the pattern list and the two banner flags are parameters.
- `get_supported_func_names` reads its ceiling from `args.cl_std`. The model passes the ceiling as a parameter, which holds the same value at the only call site (line 76).
- Partial output is not modelled: `cl3w.h` is written (line 326) before the `cl3w.c` fragments can raise (lines 333 and 336), so the script can leave a new `cl3w.h` beside an old `cl3w.c`. The model returns each file's contents or its error separately.
- Network and file I/O are not modelled: `download`, reading `cl.xml`, `touch_dir`, and opening and writing the output files.
  - `Template.__init__` takes the template text, and `Template.write` returns the file contents.
- Reading the extension list file is not modelled, and neither is dropping its `#` comment lines (line 75). Both belong to the script's input handling; the model takes the resulting pattern list.
- The XML DOM is not modelled.
  - A registry is its features, extension lists and command lists. A `<proto>`/`<param>` is its list of child nodes, with text nodes carrying their `wholeText`.
  - Adjacent character data is one text node. A CDATA section is its own node kind: as a direct child of `<proto>`/`<param>` it raises, as at line 141, since it is not a text node; as a child of `<type>`/`<name>` it is read by `wholeText` (lines 133 and 135) together with the text next to it (`Decl.CDataChildren`).
  - Comments and processing instructions are one node kind that raises, as at line 141.
- `fnmatch` is a foreign library: selection takes the match predicate as a parameter, and `Glob.Match` is a `*`/`?` stand-in without `[...]` classes, used in the example.
- `Type.__repr__` (lines 92-97) is not modelled: it is used nowhere in the script.
- Error message texts of the exceptions are not modelled: each error keeps only what it is about (index, count, marker).
- The C code of the templates and test/vector_add.cpp are not modelled: the templates are input text holding the markers.
- Strings.IsSpace: `strip` is modelled with the ASCII and Latin-1 whitespace characters; Python's wider Unicode whitespace set is not.
- Strings.UpperChar: `upper` is modelled on ASCII letters only; Python's Unicode case mapping is not.
- Emit.GenPfnTypedefs, Emit.GenStubDecl, Emit.GenStubImpls, Emit.GenStubDummies, Emit.GenApiNames, Emit.GenDefines, Emit.GenUnloadApis and Emit.GenProbeApiName require every command to have a name.
  - The filter of line 185 passes only named commands (`Generator.LoadedCommandsNamed`).
  - A parameter without a name is modelled: it renders as `None` or raises.
