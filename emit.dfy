/** The C fragments spliced into the templates. Every `gen_*` function
    writes a head, then one entry per command of the selected list in order,
    then a foot; a `Fragment` is that output and each `Gen` method builds it
    with the script's loop. */
module Emit {
  import opened Wrappers
  import opened Strings
  import opened Decl
  import opened Classify

  /** `indent(level)`: the indentation unit repeated `level` times. */
  function Indent(unit: string, level: nat): string {
    Repeat(unit, level)
  }

  /** Every command has a name. The selected list always has this property:
      a command without a name is never selected. */
  predicate AllNamed(cmds: seq<Api>) {
    forall j | 0 <= j < |cmds| :: HasName(cmds[j])
  }

  /** The names of the formal parameters, as forwarded by a stub. */
  function Actuals(params: seq<NameAndType>): (r: seq<string>)
    ensures |r| == |params|
    ensures forall j | 0 <= j < |params| :: r[j] == NameText(params[j].name)
  {
    if params == [] then [] else [NameText(params[0].name)] + Actuals(params[1..])
  }

  /** The writes of steps `lo` up to (not including) `hi` of a loop whose
      step `k` writes `steps(k)`, in order. */
  function Span(steps: nat -> seq<string>, lo: nat, hi: nat): seq<string>
    requires lo <= hi
    decreases hi
  {
    if lo == hi then [] else Span(steps, lo, hi - 1) + steps(hi - 1)
  }

  /** `s.getvalue()` after writing `head`, then `n` steps of the loop, then
      `foot` to a fresh `StringIO`. */
  function Fragment(head: seq<string>, steps: nat -> seq<string>, n: nat, foot: seq<string>): string {
    Concat(head + Span(steps, 0, n) + foot)
  }

  /** The steps of a span, split at any point, write the two halves. */
  lemma {:induction false} SpanSplit(steps: nat -> seq<string>, lo: nat, mid: nat, hi: nat)
    requires lo <= mid <= hi
    ensures Span(steps, lo, hi) == Span(steps, lo, mid) + Span(steps, mid, hi)
    decreases hi
  {
    if mid == hi {
      assert Span(steps, lo, mid) + [] == Span(steps, lo, mid);
    } else {
      SpanSplit(steps, lo, mid, hi - 1);
    }
  }

  /** A fragment holds exactly one entry per step, in loop order: the text
      of step `i` follows the head and the steps before it, and the steps
      after it and the foot follow it. */
  lemma FragmentLayout(head: seq<string>, steps: nat -> seq<string>, n: nat, foot: seq<string>, i: nat)
    requires i < n
    ensures Fragment(head, steps, n, foot) ==
      Concat(head) + Concat(Span(steps, 0, i)) + Concat(steps(i)) + Concat(Span(steps, i + 1, n)) + Concat(foot)
  {
    var all, before, rest, after := Span(steps, 0, n), Span(steps, 0, i), Span(steps, i, n), Span(steps, i + 1, n);
    var ch, cb, cx, ca, cf := Concat(head), Concat(before), Concat(steps(i)), Concat(after), Concat(foot);
    SpanSplit(steps, 0, i, n);
    SpanSplit(steps, i, i + 1, n);
    assert Span(steps, i, i + 1) == steps(i);
    calc {
      Concat(head + all + foot);
      { ConcatAppend(head + all, foot); ConcatAppend(head, all); }
      ch + Concat(all) + cf;
      { ConcatAppend(before, rest); }
      ch + (cb + Concat(rest)) + cf;
      { AppendAssoc(ch, cb, Concat(rest)); }
      ch + cb + Concat(rest) + cf;
      { ConcatAppend(steps(i), after); }
      ch + cb + (cx + ca) + cf;
      { AppendAssoc(ch + cb, cx, ca); }
      ch + cb + cx + ca + cf;
    }
  }

  /** A fragment without head and foot is the text of its steps. */
  lemma {:induction false} FragmentSteps(steps: nat -> seq<string>, n: nat)
    ensures Fragment([], steps, n, []) == Concat(Span(steps, 0, n))
  {
    assert [] + Span(steps, 0, n) + [] == Span(steps, 0, n);
  }

  /** `"\n"` before every entry but the first. */
  function Separator(i: nat): seq<string> {
    if i != 0 then ["\n"] else []
  }

  /** `if i != 0: s.write("\n")`. */
  method WriteSeparator(out: seq<string>, i: nat) returns (r: seq<string>)
    ensures r == out + Separator(i)
  {
    r := out;
    if i != 0 {
      r := r + ["\n"];
    }
  }

  // gen_pfn_typedefs

  /** Step `k` of `gen_pfn_typedefs`: the typedef of command `k`. */
  function TypedefSteps(cmds: seq<Api>): nat -> seq<string> {
    (k: nat) => if k < |cmds| && HasName(cmds[k]) then [AsPfnTypedef(cmds[k]), "\n"] else []
  }

  /** What `gen_pfn_typedefs` returns. */
  function TypedefsText(cmds: seq<Api>): string {
    Fragment([], TypedefSteps(cmds), |cmds|, [])
  }

  /** `gen_pfn_typedefs`. */
  method GenPfnTypedefs(cmds: seq<Api>) returns (s: string)
    requires AllNamed(cmds)
    ensures s == TypedefsText(cmds)
  {
    ghost var e := TypedefSteps(cmds);
    var out: seq<string> := [];
    for i := 0 to |cmds|
      invariant out == Span(e, 0, i)
    {
      ghost var before := out;
      out := out + [AsPfnTypedef(cmds[i])];
      out := out + ["\n"];
      assert e(i) == [AsPfnTypedef(cmds[i])] + ["\n"];
      AppendAssoc(before, [AsPfnTypedef(cmds[i])], ["\n"]);
    }
    FragmentSteps(e, |cmds|);
    s := Concat(out);
  }

  // gen_stub_decl

  /** Step `k` of `gen_stub_decl`: the named pointer of command `k`. */
  function DeclSteps(cmds: seq<Api>, unit: string): nat -> seq<string> {
    (k: nat) => if k < |cmds| && HasName(cmds[k])
      then [Indent(unit, 2) + PadRight(PfnTypedefName(cmds[k]), 55) + " " + Name(cmds[k]) + ";\n"]
      else []
  }

  /** The writes of `gen_stub_decl` before its loop, for `n` commands. */
  function DeclHead(n: nat, unit: string): seq<string> {
    [ Indent(unit, 0) + "union CL3WAPIs {\n",
      Indent(unit, 1) + "CL3WclAPI ptr[" + NatToString(n) + "];\n",
      Indent(unit, 1) + "struct {\n" ]
  }

  /** What `gen_stub_decl` returns: the union of the `ptr` array and the
      named pointers. */
  function StubDeclText(cmds: seq<Api>, unit: string): string {
    Fragment(DeclHead(|cmds|, unit), DeclSteps(cmds, unit), |cmds|, [Indent(unit, 1) + "} cl;\n", "};"])
  }

  /** `gen_stub_decl`. */
  method GenStubDecl(cmds: seq<Api>, unit: string) returns (s: string)
    requires AllNamed(cmds)
    ensures s == StubDeclText(cmds, unit)
  {
    ghost var e := DeclSteps(cmds, unit);
    ghost var h := DeclHead(|cmds|, unit);
    var out: seq<string> := [];
    out := out + [Indent(unit, 0) + "union CL3WAPIs {\n"];
    out := out + [Indent(unit, 1) + "CL3WclAPI ptr[" + NatToString(|cmds|) + "];\n"];
    out := out + [Indent(unit, 1) + "struct {\n"];
    for i := 0 to |cmds|
      invariant out == h + Span(e, 0, i)
    {
      out := out + [Indent(unit, 2) + PadRight(PfnTypedefName(cmds[i]), 55) + " " + Name(cmds[i]) + ";\n"];
      AppendAssoc(h, Span(e, 0, i), e(i));
    }
    ghost var body := out;
    out := out + [Indent(unit, 1) + "} cl;\n"];
    out := out + ["};"];
    AppendAssoc(body, [Indent(unit, 1) + "} cl;\n"], ["};"]);
    assert out == h + Span(e, 0, |cmds|) + [Indent(unit, 1) + "} cl;\n", "};"];
    s := Concat(out);
  }

  // gen_stub_impls

  /** The forwarding function of a command. */
  function ImplBody(a: Api, unit: string): string
    requires HasName(a)
  {
    TypeText(a.ret.typ) + " " + Name(a) + "(" + FormalList(a) + ") {\n"
    + Indent(unit, 1) + "return cl3w_apis.cl." + Name(a) + "(" + Join(", ", Actuals(a.params)) + ");\n"
    + "}\n"
  }

  /** Step `k` of `gen_stub_impls`: the forwarding function of command `k`. */
  function ImplSteps(cmds: seq<Api>, unit: string): nat -> seq<string> {
    (k: nat) => if k < |cmds| && HasName(cmds[k]) then Separator(k) + [ImplBody(cmds[k], unit)] else []
  }

  /** Why `gen_stub_impls` or `gen_func_get_probe_api_name` raises: a
      parameter without a name cannot be joined into the argument list
      (`TypeError`), and with no commands the loop index is never bound
      (`NameError`). */
  datatype EmitError = UnnamedParameter(command: nat) | NoCommands

  /** Every parameter of `a` has a name. */
  predicate ParamsNamed(a: Api) {
    forall j | 0 <= j < |a.params| :: a.params[j].name.Some?
  }

  /** The first command from `k` on with an unnamed parameter, or `|cmds|`. */
  function FirstUnnamed(cmds: seq<Api>, k: nat): (r: nat)
    requires k <= |cmds|
    ensures k <= r <= |cmds|
    ensures forall m | k <= m < r :: ParamsNamed(cmds[m])
    ensures r < |cmds| ==> !ParamsNamed(cmds[r])
    decreases |cmds| - k
  {
    if k == |cmds| || !ParamsNamed(cmds[k]) then k else FirstUnnamed(cmds, k + 1)
  }

  /** The commands before `i` have only named parameters. */
  predicate NamedBefore(cmds: seq<Api>, i: nat)
    requires i <= |cmds|
  {
    forall m | 0 <= m < i :: ParamsNamed(cmds[m])
  }

  /** A command with named parameters extends the prefix. */
  lemma NamedBeforeStep(cmds: seq<Api>, i: nat)
    requires i < |cmds| && NamedBefore(cmds, i) && ParamsNamed(cmds[i])
    ensures NamedBefore(cmds, i + 1)
  {
  }

  /** What `gen_stub_impls` returns or raises. */
  function StubImplsText(cmds: seq<Api>, unit: string): Result<string, EmitError> {
    var u := FirstUnnamed(cmds, 0);
    if u < |cmds| then Failure(UnnamedParameter(u)) else Success(Fragment([], ImplSteps(cmds, unit), |cmds|, []))
  }

  /** `gen_stub_impls` raises at the first command with an unnamed parameter. */
  lemma StubImplsFails(cmds: seq<Api>, unit: string, i: nat)
    requires i < |cmds| && !ParamsNamed(cmds[i])
    requires NamedBefore(cmds, i)
    ensures StubImplsText(cmds, unit) == Failure(UnnamedParameter(i))
  {
    var u := FirstUnnamed(cmds, 0);
    if u < i {
      assert false;
    } else if i < u {
      assert false;
    }
  }

  /** With every parameter named, `gen_stub_impls` returns its text. */
  lemma StubImplsSucceeds(cmds: seq<Api>, unit: string)
    requires NamedBefore(cmds, |cmds|)
    ensures StubImplsText(cmds, unit) == Success(Fragment([], ImplSteps(cmds, unit), |cmds|, []))
  {
    if FirstUnnamed(cmds, 0) < |cmds| {
      assert false;
    }
  }

  /** One iteration of `gen_stub_impls`: the separator, then the forwarding
      function of command `i`; `ok` is false where joining the argument
      names raises because a parameter has no name. */
  method WriteImpl(out: seq<string>, cmds: seq<Api>, i: nat, unit: string) returns (r: seq<string>, ok: bool)
    requires i < |cmds| && HasName(cmds[i])
    ensures ok <==> ParamsNamed(cmds[i])
    ensures ok ==> r == out + ImplSteps(cmds, unit)(i)
  {
    var a := cmds[i];
    r := WriteSeparator(out, i);
    var formal := FormalList(a);
    if !ParamsNamed(a) {
      return r, false;
    }
    var actual := Join(", ", Actuals(a.params));
    var body := TypeText(a.ret.typ) + " " + Name(a) + "(" + formal + ") {\n"
      + Indent(unit, 1) + "return cl3w_apis.cl." + Name(a) + "(" + actual + ");\n"
      + "}\n";
    r := r + [body];
    AppendAssoc(out, Separator(i), [body]);
    ok := true;
  }

  /** `gen_stub_impls`: forwarding functions that call through the table. */
  method GenStubImpls(cmds: seq<Api>, unit: string) returns (r: Result<string, EmitError>)
    requires AllNamed(cmds)
    ensures r == StubImplsText(cmds, unit)
  {
    ghost var e := ImplSteps(cmds, unit);
    var out: seq<string> := [];
    for i := 0 to |cmds|
      invariant out == Span(e, 0, i)
      invariant NamedBefore(cmds, i)
    {
      var ok;
      out, ok := WriteImpl(out, cmds, i, unit);
      if !ok {
        StubImplsFails(cmds, unit, i);
        return Failure(UnnamedParameter(i));
      }
      NamedBeforeStep(cmds, i);
    }
    FragmentSteps(e, |cmds|);
    StubImplsSucceeds(cmds, unit);
    r := Success(Concat(out));
  }

  // gen_stub_dummies

  /** The comment every dummy carries. */
  const ReuseComment :=
    "/* We reuse CL_INVALID_HOST_PTR as an indicator of unloaded function, aka, function pointer is invalid. */\n"

  /** The dummy implementation of command `a`, the `i`-th, piece by piece:
      its signature, the message naming entry `i` of `cl3w_api_names`, the
      comment, and the error report. */
  function DummyPieces(a: Api, i: nat, unit: string): seq<string>
    requires HasName(a)
  {
    [ TypeText(a.ret.typ) + " ", DummyImplName(a) + "(", FormalList(a) + ") {\n",
      Indent(unit, 1) + "fprintf(stderr, \"%s %s %s\\n\", cl3w_msg_prefix, ",
      "cl3w_api_names[" + NatToString(i) + "]",
      ", cl3w_msg_suffix);\n",
      Indent(unit, 1) + ReuseComment,
      Indent(unit, 1) + Appendix(Report(a), Indent(unit, 1)) + "\n",
      "}\n" ]
  }

  /** Step `k` of `gen_stub_dummies`: the dummy of command `k`. */
  function DummySteps(cmds: seq<Api>, unit: string): nat -> seq<string> {
    (k: nat) => if k < |cmds| && HasName(cmds[k]) then Separator(k) + [Concat(DummyPieces(cmds[k], k, unit))] else []
  }

  /** The writes of `gen_stub_dummies` before its loop. */
  const DummiesHead: seq<string> := [
    "char cl3w_msg_prefix[] = \"[cl3w] OpenCL API\";\n",
    "char cl3w_msg_suffix[] = \"is not loaded/supported\";\n",
    "\n"]

  /** What `gen_stub_dummies` returns. */
  function StubDummiesText(cmds: seq<Api>, unit: string): string {
    Fragment(DummiesHead, DummySteps(cmds, unit), |cmds|, [])
  }

  /** The `if`/`elif`/`else` of `gen_stub_dummies` that picks how a dummy
      signals the error. */
  method ChooseAppendix(a: Api, unit: string) returns (appendix: string)
    ensures appendix == Appendix(Report(a), Indent(unit, 1))
  {
    if IsRettypeErr(a) {
      appendix := "return CL_INVALID_HOST_PTR;";
    } else if IsLastParamErr(a) {
      appendix := "*" + NameText(a.params[|a.params| - 1].name) + " = CL_INVALID_HOST_PTR;\n"
        + Indent(unit, 1) + "return NULL;";
    } else {
      appendix := "/* no error handling here*/\n" + Indent(unit, 1) + "return NULL;";
    }
  }

  /** One iteration of `gen_stub_dummies`: the separator, then the dummy of
      command `i`. */
  method WriteDummy(out: seq<string>, cmds: seq<Api>, i: nat, unit: string) returns (r: seq<string>)
    requires i < |cmds| && HasName(cmds[i])
    ensures r == out + DummySteps(cmds, unit)(i)
  {
    var a := cmds[i];
    r := WriteSeparator(out, i);
    var formal := FormalList(a);
    var appendix := ChooseAppendix(a, unit);
    var body := Concat([ TypeText(a.ret.typ) + " ", DummyImplName(a) + "(", formal + ") {\n",
      Indent(unit, 1) + "fprintf(stderr, \"%s %s %s\\n\", cl3w_msg_prefix, ",
      "cl3w_api_names[" + NatToString(i) + "]",
      ", cl3w_msg_suffix);\n",
      Indent(unit, 1) + ReuseComment,
      Indent(unit, 1) + appendix + "\n",
      "}\n" ]);
    r := r + [body];
    AppendAssoc(out, Separator(i), [body]);
  }

  /** `gen_stub_dummies`: one placeholder per command that reports the
      call and signals the error as the command's signature allows. */
  method GenStubDummies(cmds: seq<Api>, unit: string) returns (s: string)
    requires AllNamed(cmds)
    ensures s == StubDummiesText(cmds, unit)
  {
    ghost var e := DummySteps(cmds, unit);
    var out: seq<string> := [];
    out := out + ["char cl3w_msg_prefix[] = \"[cl3w] OpenCL API\";\n"];
    out := out + ["char cl3w_msg_suffix[] = \"is not loaded/supported\";\n"];
    out := out + ["\n"];
    assert out == DummiesHead;
    for i := 0 to |cmds|
      invariant out == DummiesHead + Span(e, 0, i)
    {
      out := WriteDummy(out, cmds, i, unit);
      AppendAssoc(DummiesHead, Span(e, 0, i), e(i));
    }
    assert out + [] == out;
    s := Concat(out);
  }

  // gen_array_cl3w_api_names

  /** Step `k` of `gen_array_cl3w_api_names`: the name of command `k`. */
  function NameSteps(cmds: seq<Api>, unit: string): nat -> seq<string> {
    (k: nat) => if k < |cmds| && HasName(cmds[k]) then [Indent(unit, 1) + "\"" + Name(cmds[k]) + "\",\n"] else []
  }

  /** What `gen_array_cl3w_api_names` returns. */
  function ApiNamesText(cmds: seq<Api>, unit: string): string {
    Fragment(["static const char* cl3w_api_names[] = {\n"], NameSteps(cmds, unit), |cmds|, ["};\n"])
  }

  /** `gen_array_cl3w_api_names`. */
  method GenApiNames(cmds: seq<Api>, unit: string) returns (s: string)
    requires AllNamed(cmds)
    ensures s == ApiNamesText(cmds, unit)
  {
    ghost var e := NameSteps(cmds, unit);
    ghost var h := ["static const char* cl3w_api_names[] = {\n"];
    var out: seq<string> := [];
    out := out + ["static const char* cl3w_api_names[] = {\n"];
    for i := 0 to |cmds|
      invariant out == h + Span(e, 0, i)
    {
      out := out + [Indent(unit, 1) + "\"" + Name(cmds[i]) + "\",\n"];
      AppendAssoc(h, Span(e, 0, i), e(i));
    }
    out := out + ["};\n"];
    s := Concat(out);
  }

  // gen_defines

  /** Step `k` of `gen_defines`: the macro that names the slot of command `k`. */
  function DefineSteps(cmds: seq<Api>): nat -> seq<string> {
    (k: nat) => if k < |cmds| && HasName(cmds[k])
      then ["#define " + PadRight(Name(cmds[k]), 50) + " cl3w_apis.cl." + Name(cmds[k]) + "\n"]
      else []
  }

  /** What `gen_defines` returns. */
  function DefinesText(cmds: seq<Api>): string {
    Fragment([], DefineSteps(cmds), |cmds|, [])
  }

  /** `gen_defines`: one macro per command naming its table slot. */
  method GenDefines(cmds: seq<Api>) returns (s: string)
    requires AllNamed(cmds)
    ensures s == DefinesText(cmds)
  {
    ghost var e := DefineSteps(cmds);
    var out: seq<string> := [];
    for i := 0 to |cmds|
      invariant out == Span(e, 0, i)
    {
      out := out + ["#define " + PadRight(Name(cmds[i]), 50) + " cl3w_apis.cl." + Name(cmds[i]) + "\n"];
    }
    FragmentSteps(e, |cmds|);
    s := Concat(out);
  }

  // gen_func_unload_apis

  /** Step `k` of `gen_func_unload_apis`: slot `k` gets the dummy of command `k`. */
  function UnloadSteps(cmds: seq<Api>, unit: string): nat -> seq<string> {
    (k: nat) => if k < |cmds| && HasName(cmds[k])
      then [Indent(unit, 1) + "cl3w_apis.ptr[" + NatToString(k) + "] = (CL3WclAPI)" + DummyImplName(cmds[k]) + ";\n"]
      else []
  }

  /** What `gen_func_unload_apis` returns. */
  function UnloadApisText(cmds: seq<Api>, unit: string): string {
    Fragment([Indent(unit, 0) + "static void unload_apis(void) {\n"], UnloadSteps(cmds, unit), |cmds|,
      [Indent(unit, 0) + "}\n"])
  }

  /** `gen_func_unload_apis`: points every slot at its dummy. */
  method GenUnloadApis(cmds: seq<Api>, unit: string) returns (s: string)
    requires AllNamed(cmds)
    ensures s == UnloadApisText(cmds, unit)
  {
    ghost var e := UnloadSteps(cmds, unit);
    ghost var h := [Indent(unit, 0) + "static void unload_apis(void) {\n"];
    var out: seq<string> := [];
    out := out + [Indent(unit, 0) + "static void unload_apis(void) {\n"];
    for i := 0 to |cmds|
      invariant out == h + Span(e, 0, i)
    {
      out := out + [Indent(unit, 1) + "cl3w_apis.ptr[" + NatToString(i) + "] = (CL3WclAPI)" + DummyImplName(cmds[i]) + ";\n"];
      AppendAssoc(h, Span(e, 0, i), e(i));
    }
    out := out + [Indent(unit, 0) + "}\n"];
    s := Concat(out);
  }

  // gen_func_get_probe_api_name

  /** The command the loader probes for. */
  const ProbeName := "clCreateContext"

  /** The loop index left after the probe loop: the first command named
      `clCreateContext`, or the last command when there is none. */
  function ProbeIndex(cmds: seq<Api>): (i: nat)
    requires AllNamed(cmds) && cmds != []
    ensures i < |cmds|
    ensures forall m | 0 <= m < i :: Name(cmds[m]) != ProbeName
    ensures Name(cmds[i]) == ProbeName || i == |cmds| - 1
  {
    ProbeFrom(cmds, 0)
  }

  function ProbeFrom(cmds: seq<Api>, k: nat): (i: nat)
    requires AllNamed(cmds) && k < |cmds|
    ensures k <= i < |cmds|
    ensures forall m | k <= m < i :: Name(cmds[m]) != ProbeName
    ensures Name(cmds[i]) == ProbeName || i == |cmds| - 1
    decreases |cmds| - k
  {
    if Name(cmds[k]) == ProbeName || k == |cmds| - 1 then k else ProbeFrom(cmds, k + 1)
  }

  /** The accessor that returns the probe command's entry of the name table. */
  function ProbeText(unit: string, i: nat): string {
    "static const char* get_probe_api_name(void) {\n"
    + Indent(unit, 1) + "/* " + ProbeName + " */\n"
    + Indent(unit, 1) + "return cl3w_api_names[" + NatToString(i) + "];\n"
    + "}\n"
  }

  /** What `gen_func_get_probe_api_name` returns or raises. */
  function ProbeResult(cmds: seq<Api>, unit: string): Result<string, EmitError>
    requires AllNamed(cmds)
  {
    if cmds == [] then Failure(NoCommands) else Success(ProbeText(unit, ProbeIndex(cmds)))
  }

  /** `gen_func_get_probe_api_name`: the loop stops at `clCreateContext`
      and its index is used after the loop. */
  method GenProbeApiName(cmds: seq<Api>, unit: string) returns (r: Result<string, EmitError>)
    requires AllNamed(cmds)
    ensures r == ProbeResult(cmds, unit)
  {
    var name := ProbeName;
    var bound := false;
    var i := 0;
    var k := 0;
    while k < |cmds|
      invariant k <= |cmds|
      invariant bound <==> k > 0
      invariant bound ==> i == k - 1
      invariant forall m | 0 <= m < k :: Name(cmds[m]) != name
    {
      i, bound := k, true;
      if Name(cmds[k]) == name {
        break;
      }
      k := k + 1;
    }
    if !bound {
      return Failure(NoCommands);
    }
    var s := "static const char* get_probe_api_name(void) {\n";
    s := s + Indent(unit, 1) + "/* " + name + " */\n";
    s := s + Indent(unit, 1) + "return cl3w_api_names[" + NatToString(i) + "];\n";
    s := s + "}\n";
    return Success(s);
  }

  /** A single write is the text it writes. */
  lemma ConcatSingle(x: string)
    ensures Concat([x]) == x
  {
    ConcatSnoc([], x);
    assert [] + [x] == [x];
  }

  /** Index alignment, first half: `unload_apis` stores the dummy of
      command `i` in slot `i` of `ptr`, and the union declares `ptr` with
      one slot per command, so the slot exists. */
  lemma UnloadSlot(cmds: seq<Api>, unit: string, i: nat)
    requires AllNamed(cmds) && i < |cmds|
    ensures var d := NatToString(i);
      && ParseNat(d) == i < ParseNat(NatToString(|cmds|)) == |cmds|
      && DeclHead(|cmds|, unit)[1] == Indent(unit, 1) + "CL3WclAPI ptr[" + NatToString(|cmds|) + "];\n"
      && Concat(UnloadSteps(cmds, unit)(i))
         == Indent(unit, 1) + "cl3w_apis.ptr[" + d + "] = (CL3WclAPI)" + DummyImplName(cmds[i]) + ";\n"
  {
    ParseNatToString(i);
    ParseNatToString(|cmds|);
    ConcatSingle(UnloadSteps(cmds, unit)(i)[0]);
  }

  /** Index alignment, second half: the dummy of command `i` is named after
      the command and prints entry `i` of `cl3w_api_names`, and that entry
      holds the command's name. */
  lemma DummySlot(cmds: seq<Api>, unit: string, i: nat)
    requires AllNamed(cmds) && i < |cmds|
    ensures var d := NatToString(i);
      && Contains(Concat(DummySteps(cmds, unit)(i)), DummyImplName(cmds[i]) + "(")
      && Contains(Concat(DummySteps(cmds, unit)(i)), "cl3w_api_names[" + d + "]")
      && Concat(NameSteps(cmds, unit)(i)) == Indent(unit, 1) + "\"" + Name(cmds[i]) + "\",\n"
  {
    var p := DummyPieces(cmds[i], i, unit);
    ConcatContains(p, 1);
    ConcatContains(p, 4);
    assert DummySteps(cmds, unit)(i) == Separator(i) + [Concat(p)];
    ConcatAppend(Separator(i), [Concat(p)]);
    ConcatSingle(Concat(p));
    ContainsSuffix(Concat(Separator(i)), Concat(p), DummyImplName(cmds[i]) + "(");
    ContainsSuffix(Concat(Separator(i)), Concat(p), "cl3w_api_names[" + NatToString(i) + "]");
    ConcatSingle(NameSteps(cmds, unit)(i)[0]);
  }

  /** The probe accessor reads an entry of `cl3w_api_names` that exists:
      the entry of the first `clCreateContext` when there is one. */
  lemma ProbeInBounds(cmds: seq<Api>, unit: string)
    requires AllNamed(cmds)
    ensures ProbeResult(cmds, unit).Failure? <==> cmds == []
    ensures cmds != [] ==> ProbeIndex(cmds) < |cmds|
    ensures forall j | 0 <= j < |cmds| && Name(cmds[j]) == ProbeName ::
      Name(cmds[ProbeIndex(cmds)]) == ProbeName && ProbeIndex(cmds) <= j
  {
  }

  /** A line `pre`, then `s` left-aligned in a field of `w`, then `mid`,
      `t` and `post`: `s` starts right after `pre`, blanks fill the field,
      and `mid` starts at the column after the field. */
  lemma PaddedLayout(pre: string, s: string, w: nat, mid: string, t: string, post: string)
    ensures var line := pre + PadRight(s, w) + mid + t + post;
      var c := |pre| + (if |s| < w then w else |s|);
      && |line| == c + |mid| + |t| + |post|
      && line[..|pre|] == pre && line[|pre|..|pre| + |s|] == s
      && (forall k | |pre| + |s| <= k < c :: line[k] == ' ')
      && line[c..c + |mid|] == mid && line[c + |mid|..c + |mid| + |t|] == t
      && line[c + |mid| + |t|..] == post
  {
    var f := PadRight(s, w);
    var line := pre + f + mid + t + post;
    var c := |pre| + |f|;
    assert line == (pre + f) + (mid + t + post);
    assert (pre + f)[|pre|..|pre| + |s|] == f[..|s|];
    assert (mid + t + post) == mid + (t + post);
  }

  /** Macro `i` of `gen_defines` names command `i` in a column of at least
      50 characters and then its slot `cl3w_apis.cl.<name>`. */
  lemma DefineLine(cmds: seq<Api>, i: nat)
    requires AllNamed(cmds) && i < |cmds|
    ensures var line, n := Concat(DefineSteps(cmds)(i)), Name(cmds[i]);
      var c := 8 + (if |n| < 50 then 50 else |n|);
      && line[..8] == "#define " && line[8..8 + |n|] == n
      && (forall k | 8 + |n| <= k < c :: line[k] == ' ')
      && line[c..c + 14] == " cl3w_apis.cl." && line[c + 14..c + 14 + |n|] == n
      && line[c + 14 + |n|..] == "\n"
  {
    var n := Name(cmds[i]);
    ConcatSingle(DefineSteps(cmds)(i)[0]);
    PaddedLayout("#define ", n, 50, " cl3w_apis.cl.", n, "\n");
  }

  /** Entry `i` of the `cl` struct of `gen_stub_decl` declares a function pointer
      named after command `i`, of its typedef type, the names lined up
      after a type column of at least 55 characters. */
  lemma DeclLine(cmds: seq<Api>, unit: string, i: nat)
    requires AllNamed(cmds) && i < |cmds|
    ensures var line, t, n := Concat(DeclSteps(cmds, unit)(i)), PfnTypedefName(cmds[i]), Name(cmds[i]);
      var p := |Indent(unit, 2)|;
      var c := p + (if |t| < 55 then 55 else |t|);
      && line[..p] == Indent(unit, 2) && line[p..p + |t|] == t
      && (forall k | p + |t| <= k < c :: line[k] == ' ')
      && line[c..c + 1] == " " && line[c + 1..c + 1 + |n|] == n && line[c + 1 + |n|..] == ";\n"
  {
    ConcatSingle(DeclSteps(cmds, unit)(i)[0]);
    PaddedLayout(Indent(unit, 2), PfnTypedefName(cmds[i]), 55, " ", Name(cmds[i]), ";\n");
  }
}
