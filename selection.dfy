/** Which commands the generated loader covers: the names brought in by the
    selected core features and extensions (`get_supported_func_names`), and
    the parsed commands filtered by those names, in document order. */
module Selection {
  import opened Wrappers
  import opened Decl
  import Glob

  /** `cl_stds`: the known core versions, oldest first. */
  const ClStds: seq<string> := ["1.0", "1.1", "1.2", "2.0", "2.1", "2.2", "3.0"]

  /** A `<feature>` element: its `number` attribute and the `name` attribute
      of every `<command>` inside it. */
  datatype Feature = Feature(number: string, commands: seq<string>)

  /** An `<extension>` element: its `name` attribute and its command names. */
  datatype Extension = Extension(name: string, commands: seq<string>)

  /** The parts of `cl.xml` the selection reads: every `<feature>`, the
      `<extension>` children of each `<extensions>` element, and the
      `<command>` children of each `<commands>` element. */
  datatype Registry = Registry(
    features: seq<Feature>,
    extensionBlocks: seq<seq<Extension>>,
    commandBlocks: seq<seq<CommandNode>>)

  /** `UnknownVersion` is the `ValueError` of `cl_stds.index` and
      `NoExtensionsElement` the `IndexError` of `[0]` on an empty list. */
  datatype SelectError =
    | UnknownVersion(version: string)
    | NoExtensionsElement

  /** Why the command list cannot be built: the selection failed, the
      assertion that there is exactly one `<commands>` element failed, or a
      command could not be parsed. */
  datatype LoadError =
    | SelectFailed(select: SelectError)
    | CommandBlockCount(count: nat)
    | CommandFailed(decl: DeclError)

  /** `list.index`: the first position of `x` in `s`. */
  function IndexOf(s: seq<string>, x: string): (i: nat)
    requires x in s
    ensures i < |s| && s[i] == x
    ensures forall j | 0 <= j < i :: s[j] != x
  {
    if s[0] == x then 0 else 1 + IndexOf(s[1..], x)
  }

  /** `set(cl_stds[:cl_stds.index(v) + 1])`: the versions up to and including `v`. */
  function Stds(v: string): set<string>
    requires v in ClStds
  {
    set j | 0 <= j <= IndexOf(ClStds, v) :: ClStds[j]
  }

  /** The known version `x` is selected under ceiling `v` exactly when it is
      not newer than `v`. */
  lemma StdsMembers(v: string, x: string)
    requires v in ClStds
    ensures x in Stds(v) <==> x in ClStds && IndexOf(ClStds, x) <= IndexOf(ClStds, v)
  {
    if x in Stds(v) {
      var j :| 0 <= j <= IndexOf(ClStds, v) && ClStds[j] == x;
      assert IndexOf(ClStds, x) <= j;
    }
  }

  /** The names appended by the feature loop, in order. */
  function FeatureList(fs: seq<Feature>, stds: set<string>): seq<string> {
    if fs == [] then []
    else
      var f := fs[|fs| - 1];
      FeatureList(fs[..|fs| - 1], stds) + (if f.number in stds then f.commands else [])
  }

  /** The names the pattern loop appends for extension `e`: its commands once
      for every pattern that matches its name. */
  function MatchList(e: Extension, patterns: seq<string>, matches: (string, string) -> bool): seq<string> {
    if patterns == [] then []
    else
      MatchList(e, patterns[..|patterns| - 1], matches)
      + (if matches(e.name, patterns[|patterns| - 1]) then e.commands else [])
  }

  /** The names appended by the extension loop, in order. */
  function ExtensionList(es: seq<Extension>, patterns: seq<string>, matches: (string, string) -> bool): seq<string> {
    if es == [] then []
    else ExtensionList(es[..|es| - 1], patterns, matches) + MatchList(es[|es| - 1], patterns, matches)
  }

  /** Some pattern matches `name`. */
  predicate Enabled(name: string, patterns: seq<string>, matches: (string, string) -> bool) {
    exists j | 0 <= j < |patterns| :: matches(name, patterns[j])
  }

  /** What `get_supported_func_names` returns or raises. */
  function SupportedNames(reg: Registry, v: string, patterns: seq<string>, matches: (string, string) -> bool)
    : Result<set<string>, SelectError>
  {
    if v !in ClStds then Failure(UnknownVersion(v))
    else if |reg.extensionBlocks| == 0 then Failure(NoExtensionsElement)
    else
      var names := FeatureList(reg.features, Stds(v)) + ExtensionList(reg.extensionBlocks[0], patterns, matches);
      Success(set c | c in names)
  }

  /** The innermost loops: append every command name in order. */
  method AppendAll(names: seq<string>, commands: seq<string>) returns (r: seq<string>)
    ensures r == names + commands
  {
    r := names;
    for c := 0 to |commands|
      invariant r == names + commands[..c]
    {
      assert commands[..c + 1] == commands[..c] + [commands[c]];
      r := r + [commands[c]];
    }
    assert commands[..|commands|] == commands;
  }

  /** The feature loop. */
  method AppendFeatures(names: seq<string>, fs: seq<Feature>, stds: set<string>) returns (r: seq<string>)
    ensures r == names + FeatureList(fs, stds)
  {
    r := names;
    for i := 0 to |fs|
      invariant r == names + FeatureList(fs[..i], stds)
    {
      assert fs[..i + 1][..i] == fs[..i];
      if fs[i].number in stds {
        r := AppendAll(r, fs[i].commands);
      }
    }
    assert fs[..|fs|] == fs;
  }

  /** The extension loop and, inside it, the pattern loop. */
  method AppendExtensions(names: seq<string>, es: seq<Extension>, patterns: seq<string>, matches: (string, string) -> bool)
    returns (r: seq<string>)
    ensures r == names + ExtensionList(es, patterns, matches)
  {
    r := names;
    for i := 0 to |es|
      invariant r == names + ExtensionList(es[..i], patterns, matches)
    {
      assert es[..i + 1][..i] == es[..i];
      ghost var start := r;
      for p := 0 to |patterns|
        invariant r == start + MatchList(es[i], patterns[..p], matches)
      {
        assert patterns[..p + 1][..p] == patterns[..p];
        if matches(es[i].name, patterns[p]) {
          r := AppendAll(r, es[i].commands);
        }
      }
      assert patterns[..|patterns|] == patterns;
    }
    assert es[..|es|] == es;
  }

  /** `get_supported_func_names(dom, cl_std, cl_exts)`; `fnmatch` is the
      parameter `matches`, and the ceiling is the parameter `v` (the script
      reads it from its arguments, which hold the same value). */
  method SupportedFuncNames(reg: Registry, v: string, patterns: seq<string>, matches: (string, string) -> bool)
    returns (r: Result<set<string>, SelectError>)
    ensures r == SupportedNames(reg, v, patterns, matches)
  {
    if v !in ClStds {
      return Failure(UnknownVersion(v));
    }
    var names := AppendFeatures([], reg.features, Stds(v));
    assert names == FeatureList(reg.features, Stds(v));
    if |reg.extensionBlocks| == 0 {
      return Failure(NoExtensionsElement);
    }
    names := AppendExtensions(names, reg.extensionBlocks[0], patterns, matches);
    return Success(set c | c in names);
  }

  lemma {:induction false} FeatureListMembers(fs: seq<Feature>, stds: set<string>, c: string)
    ensures c in FeatureList(fs, stds) <==>
      exists j | 0 <= j < |fs| :: fs[j].number in stds && c in fs[j].commands
  {
    if fs != [] {
      var init := fs[..|fs| - 1];
      FeatureListMembers(init, stds, c);
      if c in FeatureList(fs, stds) {
        if c in FeatureList(init, stds) {
          var j :| 0 <= j < |init| && init[j].number in stds && c in init[j].commands;
          assert fs[j] == init[j];
        } else {
          assert fs[|fs| - 1].number in stds && c in fs[|fs| - 1].commands;
        }
      } else {
        forall j | 0 <= j < |fs|
          ensures !(fs[j].number in stds && c in fs[j].commands)
        {
          if j < |init| {
            assert init[j] == fs[j];
          }
        }
      }
    }
  }

  lemma {:induction false} MatchListMembers(e: Extension, patterns: seq<string>, matches: (string, string) -> bool, c: string)
    ensures c in MatchList(e, patterns, matches) <==> Enabled(e.name, patterns, matches) && c in e.commands
  {
    if patterns != [] {
      var init := patterns[..|patterns| - 1];
      MatchListMembers(e, init, matches, c);
      assert forall j | 0 <= j < |init| :: init[j] == patterns[j];
      if Enabled(e.name, patterns, matches) && !matches(e.name, patterns[|patterns| - 1]) {
        var j :| 0 <= j < |patterns| && matches(e.name, patterns[j]);
        assert j < |init|;
      }
    }
  }

  lemma {:induction false} ExtensionListMembers(es: seq<Extension>, patterns: seq<string>, matches: (string, string) -> bool, c: string)
    ensures c in ExtensionList(es, patterns, matches) <==>
      exists j | 0 <= j < |es| :: Enabled(es[j].name, patterns, matches) && c in es[j].commands
  {
    if es != [] {
      var init, last := es[..|es| - 1], es[|es| - 1];
      ExtensionListMembers(init, patterns, matches, c);
      MatchListMembers(last, patterns, matches, c);
      if c in ExtensionList(es, patterns, matches) {
        if c in ExtensionList(init, patterns, matches) {
          var j :| 0 <= j < |init| && Enabled(init[j].name, patterns, matches) && c in init[j].commands;
          assert es[j] == init[j];
        } else {
          assert Enabled(es[|es| - 1].name, patterns, matches) && c in es[|es| - 1].commands;
        }
      } else {
        forall j | 0 <= j < |es|
          ensures !(Enabled(es[j].name, patterns, matches) && c in es[j].commands)
        {
          if j < |init| {
            assert init[j] == es[j];
          }
        }
      }
    }
  }

  /** A name is supported exactly when a feature not newer than the ceiling,
      or an extension some pattern matches, lists it. */
  lemma SupportedNamesMembers(reg: Registry, v: string, patterns: seq<string>, matches: (string, string) -> bool, c: string)
    requires v in ClStds && |reg.extensionBlocks| > 0
    ensures SupportedNames(reg, v, patterns, matches).Success?
    ensures c in SupportedNames(reg, v, patterns, matches).value <==>
      (exists j | 0 <= j < |reg.features| ::
        reg.features[j].number in ClStds
        && IndexOf(ClStds, reg.features[j].number) <= IndexOf(ClStds, v)
        && c in reg.features[j].commands)
      || (exists j | 0 <= j < |reg.extensionBlocks[0]| ::
        Enabled(reg.extensionBlocks[0][j].name, patterns, matches)
        && c in reg.extensionBlocks[0][j].commands)
  {
    FeatureListMembers(reg.features, Stds(v), c);
    ExtensionListMembers(reg.extensionBlocks[0], patterns, matches, c);
    forall j | 0 <= j < |reg.features|
      ensures reg.features[j].number in Stds(v) <==>
        reg.features[j].number in ClStds && IndexOf(ClStds, reg.features[j].number) <= IndexOf(ClStds, v)
    {
      StdsMembers(v, reg.features[j].number);
    }
  }

  /** Selection fails exactly on an unknown ceiling or a registry without an
      `<extensions>` element, the ceiling being looked up first. */
  lemma SupportedNamesErrors(reg: Registry, v: string, patterns: seq<string>, matches: (string, string) -> bool)
    ensures SupportedNames(reg, v, patterns, matches).Failure? <==> v !in ClStds || |reg.extensionBlocks| == 0
    ensures v !in ClStds ==> SupportedNames(reg, v, patterns, matches) == Failure(UnknownVersion(v))
    ensures v in ClStds && |reg.extensionBlocks| == 0 ==>
      SupportedNames(reg, v, patterns, matches) == Failure(NoExtensionsElement)
  {
  }

  /** Raising the ceiling never drops a name. */
  lemma CeilingMonotone(reg: Registry, v: string, w: string, patterns: seq<string>, matches: (string, string) -> bool)
    requires v in ClStds && w in ClStds && IndexOf(ClStds, v) <= IndexOf(ClStds, w)
    requires |reg.extensionBlocks| > 0
    ensures SupportedNames(reg, v, patterns, matches).value <= SupportedNames(reg, w, patterns, matches).value
  {
    forall c | c in SupportedNames(reg, v, patterns, matches).value
      ensures c in SupportedNames(reg, w, patterns, matches).value
    {
      SupportedNamesMembers(reg, v, patterns, matches, c);
      SupportedNamesMembers(reg, w, patterns, matches, c);
    }
  }

  /** More patterns never drop a name. */
  lemma PatternsMonotone(reg: Registry, v: string, patterns: seq<string>, more: seq<string>, matches: (string, string) -> bool)
    requires v in ClStds && |reg.extensionBlocks| > 0
    requires forall j | 0 <= j < |patterns| :: patterns[j] in more
    ensures SupportedNames(reg, v, patterns, matches).value <= SupportedNames(reg, v, more, matches).value
  {
    forall c | c in SupportedNames(reg, v, patterns, matches).value
      ensures c in SupportedNames(reg, v, more, matches).value
    {
      SupportedNamesMembers(reg, v, patterns, matches, c);
      SupportedNamesMembers(reg, v, more, matches, c);
      forall n | Enabled(n, patterns, matches) ensures Enabled(n, more, matches) {
        var j :| 0 <= j < |patterns| && matches(n, patterns[j]);
        var k :| 0 <= k < |more| && more[k] == patterns[j];
        assert matches(n, more[k]);
      }
    }
  }

  /** Without patterns no extension contributes: only feature commands are
      selected. */
  lemma NoPatternsNoExtensions(reg: Registry, v: string, matches: (string, string) -> bool)
    requires v in ClStds && |reg.extensionBlocks| > 0
    ensures SupportedNames(reg, v, [], matches).value == set c | c in FeatureList(reg.features, Stds(v))
  {
    var es := reg.extensionBlocks[0];
    forall c ensures c !in ExtensionList(es, [], matches) {
      ExtensionListMembers(es, [], matches, c);
    }
    var names := FeatureList(reg.features, Stds(v)) + ExtensionList(es, [], matches);
    assert (set c | c in names) == set c | c in FeatureList(reg.features, Stds(v));
  }

  /** The registry of the example below. */
  const ExampleRegistry := Registry(
    [Feature("1.0", ["clGetPlatformIDs"]), Feature("2.0", ["clSVMAlloc"])],
    [[Extension("cl_khr_icd", ["clIcdGetPlatformIDsKHR"]), Extension("cl_amd_offline", ["clOfflineAMD"])]],
    [])

  /** Under ceiling `1.2`, version 1.0 is selected and 2.0 is not. */
  lemma ExampleVersions()
    ensures "1.2" in ClStds && "1.0" in Stds("1.2") && "2.0" !in Stds("1.2")
  {
    assert ClStds[0] == "1.0" && ClStds[2] == "1.2" && ClStds[3] == "2.0";
    StdsMembers("1.2", "1.0");
    StdsMembers("1.2", "2.0");
    assert IndexOf(ClStds, "1.2") == 2;
    assert IndexOf(ClStds, "2.0") == 3;
  }

  /** Ceiling `1.2` keeps the 1.0 feature and drops the 2.0 one. */
  lemma ExampleFeatures()
    ensures FeatureList(ExampleRegistry.features, Stds("1.2")) == ["clGetPlatformIDs"]
  {
    var fs := ExampleRegistry.features;
    ExampleVersions();
    assert fs[..1] == [fs[0]] && fs[..1][..0] == [];
  }

  /** `cl_khr_*` matches `cl_khr_icd` and not `cl_amd_offline`. */
  lemma ExampleMatches()
    ensures Glob.Match("cl_khr_icd", "cl_khr_*")
    ensures !Glob.Match("cl_amd_offline", "cl_khr_*")
  {
    assert Glob.IsLiteral("cl_khr_");
    assert "cl_khr_" + "*" == "cl_khr_*";
    Glob.PrefixStarMatch("cl_khr_icd", "cl_khr_");
    Glob.PrefixStarMatch("cl_amd_offline", "cl_khr_");
    assert "cl_khr_icd"[..7] == "cl_khr_";
    assert "cl_amd_offline"[..7] != "cl_khr_" by {
      assert "cl_amd_offline"[..7][3] != "cl_khr_"[3];
    }
  }

  /** `cl_khr_*` picks the Khronos extension only. */
  lemma ExampleExtensions()
    ensures ExtensionList(ExampleRegistry.extensionBlocks[0], ["cl_khr_*"], Glob.Match) == ["clIcdGetPlatformIDsKHR"]
  {
    var es := ExampleRegistry.extensionBlocks[0];
    ExampleMatchLists();
    assert es[..1] == [es[0]] && es[..1][..0] == [];
  }

  /** Each example extension contributes its commands once or not at all. */
  lemma ExampleMatchLists()
    ensures MatchList(Extension("cl_khr_icd", ["clIcdGetPlatformIDsKHR"]), ["cl_khr_*"], Glob.Match)
      == ["clIcdGetPlatformIDsKHR"]
    ensures MatchList(Extension("cl_amd_offline", ["clOfflineAMD"]), ["cl_khr_*"], Glob.Match) == []
  {
    var pats := ["cl_khr_*"];
    ExampleMatches();
    assert pats[..0] == [];
  }

  /** The names the example selects, in the order of the loops. */
  lemma ExampleNameList()
    ensures FeatureList(ExampleRegistry.features, Stds("1.2"))
      + ExtensionList(ExampleRegistry.extensionBlocks[0], ["cl_khr_*"], Glob.Match)
      == ["clGetPlatformIDs", "clIcdGetPlatformIDsKHR"]
  {
    ExampleFeatures();
    ExampleExtensions();
  }

  /** The set of a two-element list. */
  lemma PairSet(x: string, y: string)
    ensures (set c | c in [x, y]) == {x, y}
  {
  }

  /** The whole selection on the example registry. */
  lemma SelectionExample()
    ensures SupportedNames(ExampleRegistry, "1.2", ["cl_khr_*"], Glob.Match)
      == Success({"clGetPlatformIDs", "clIcdGetPlatformIDsKHR"})
  {
    assert ClStds[2] == "1.2";
    ExampleNameList();
    PairSet("clGetPlatformIDs", "clIcdGetPlatformIDsKHR");
  }

  /** `c.name in supported_func_names`: a command without a name is never in
      the set of names. */
  predicate Selected(a: Api, names: set<string>) {
    a.ret.name.Some? && a.ret.name.value in names
  }

  /** `a` is `b` with some elements left out, the rest in order. */
  predicate IsSubsequence<T(==)>(a: seq<T>, b: seq<T>)
    decreases |b|
  {
    if a == [] then true
    else if b == [] then false
    else (a[0] == b[0] && IsSubsequence(a[1..], b[1..])) || IsSubsequence(a, b[1..])
  }

  /** The filter of line 185: the parsed commands whose name is supported,
      in document order; each is kept as often as it occurs. */
  function SelectCommands(apis: seq<Api>, names: set<string>): (r: seq<Api>)
    ensures forall j | 0 <= j < |r| :: Selected(r[j], names)
    ensures IsSubsequence(r, apis)
    ensures forall a :: multiset(r)[a] == if Selected(a, names) then multiset(apis)[a] else 0
    decreases |apis|
  {
    if apis == [] then []
    else
      var rest := SelectCommands(apis[1..], names);
      assert apis == [apis[0]] + apis[1..];
      if Selected(apis[0], names) then
        var r := [apis[0]] + rest;
        assert r[1..] == rest;
        r
      else
        assert rest == [] || IsSubsequence(rest, apis[1..]);
        rest
  }

  /** A command is in the filtered list exactly when it was parsed and its
      name is supported. */
  lemma SelectCommandsMembers(apis: seq<Api>, names: set<string>, a: Api)
    ensures a in SelectCommands(apis, names) <==> a in apis && Selected(a, names)
  {
    var r := SelectCommands(apis, names);
    assert a in r <==> multiset(r)[a] > 0;
    assert a in apis <==> multiset(apis)[a] > 0;
  }

  /** A list comprehension that applies `parse` to every `<command>`
      element in order; the first failure is raised. */
  function ParseEach(parse: CommandNode -> Result<Api, DeclError>, cmds: seq<CommandNode>): (r: Result<seq<Api>, DeclError>)
    ensures r.Success? <==> forall j | 0 <= j < |cmds| :: parse(cmds[j]).Success?
    ensures r.Success? ==> |r.value| == |cmds| && forall j | 0 <= j < |cmds| :: parse(cmds[j]) == Success(r.value[j])
    ensures r.Failure? ==> exists j | 0 <= j < |cmds| ::
      parse(cmds[j]) == Failure(r.error) && forall m | 0 <= m < j :: parse(cmds[m]).Success?
    decreases |cmds|
  {
    if cmds == [] then Success([])
    else
      var first := parse(cmds[0]);
      if first.Failure? then Failure(first.error)
      else
        var rest := ParseEach(parse, cmds[1..]);
        assert forall j | 1 <= j < |cmds| :: cmds[j] == cmds[1..][j - 1];
        if rest.Failure? then
          var k :| 0 <= k < |cmds[1..]| && parse(cmds[1..][k]) == Failure(rest.error)
            && forall m | 0 <= m < k :: parse(cmds[1..][m]).Success?;
          assert parse(cmds[k + 1]) == Failure(rest.error);
          Failure(rest.error)
        else
          var r := [first.value] + rest.value;
          assert forall j | 1 <= j < |cmds| :: r[j] == rest.value[j - 1];
          Success(r)
  }

  /** `[API.from_xml_command(x) for x in xml_commands]`: every command parsed
      in order; the first that cannot be parsed raises. */
  function ParseAll(cmds: seq<CommandNode>): (r: Result<seq<Api>, DeclError>)
    ensures r.Success? <==> forall j | 0 <= j < |cmds| :: Parse(cmds[j]).Success?
    ensures r.Success? ==> |r.value| == |cmds| && forall j | 0 <= j < |cmds| :: Parse(cmds[j]) == Success(r.value[j])
    ensures r.Failure? ==> exists j | 0 <= j < |cmds| ::
      Parse(cmds[j]) == Failure(r.error) && forall m | 0 <= m < j :: Parse(cmds[m]).Success?
  {
    ParseEach(Parse, cmds)
  }

  /** The command list of line 185, with the errors in the order the script
      meets them: the selection, then the one `<commands>` element, then the
      parses. */
  function LoadCommands(reg: Registry, v: string, patterns: seq<string>, matches: (string, string) -> bool)
    : Result<seq<Api>, LoadError>
  {
    var names := SupportedNames(reg, v, patterns, matches);
    if names.Failure? then Failure(SelectFailed(names.error))
    else if |reg.commandBlocks| != 1 then Failure(CommandBlockCount(|reg.commandBlocks|))
    else
      var parsed := ParseAll(reg.commandBlocks[0]);
      if parsed.Failure? then Failure(CommandFailed(parsed.error))
      else Success(SelectCommands(parsed.value, names.value))
  }

  /** On success the loaded commands are exactly the parsed commands of the
      one `<commands>` element whose name is supported, each named. */
  lemma LoadCommandsMembers(reg: Registry, v: string, patterns: seq<string>, matches: (string, string) -> bool, a: Api)
    requires LoadCommands(reg, v, patterns, matches).Success?
    ensures |reg.commandBlocks| == 1 && SupportedNames(reg, v, patterns, matches).Success?
    ensures a in LoadCommands(reg, v, patterns, matches).value <==>
      (exists j | 0 <= j < |reg.commandBlocks[0]| :: Parse(reg.commandBlocks[0][j]) == Success(a))
      && Selected(a, SupportedNames(reg, v, patterns, matches).value)
  {
    var parsed := ParseAll(reg.commandBlocks[0]);
    SelectCommandsMembers(parsed.value, SupportedNames(reg, v, patterns, matches).value, a);
    if a in parsed.value {
      var j :| 0 <= j < |parsed.value| && parsed.value[j] == a;
      assert Parse(reg.commandBlocks[0][j]) == Success(a);
    }
  }
}
