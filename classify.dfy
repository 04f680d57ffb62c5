/** The per-command helpers of `API`: the error-reporting classification a
    dummy implementation uses, the derived C identifiers, and the
    function-pointer typedef. */
module Classify {
  import opened Wrappers
  import opened Strings
  import opened Decl

  /** `API.is_rettype_err`: the command reports failure through its
      `cl_int` return value (it has no trailing `cl_int*` error slot). */
  predicate IsRettypeErr(a: Api) {
    var isNullary := |a.params| == 0;
    var lastIsErrCode := !isNullary && TypeText(a.params[|a.params| - 1].typ) != "cl_int*";
    TypeText(a.ret.typ) == "cl_int" && (isNullary || lastIsErrCode)
  }

  /** `API.is_last_param_err`: the last parameter is a `cl_int*` error slot. */
  predicate IsLastParamErr(a: Api) {
    |a.params| != 0 && TypeText(a.params[|a.params| - 1].typ) == "cl_int*"
  }

  /** The three ways a dummy implementation signals that the function is
      not loaded. */
  datatype ErrorReport =
    | ReturnCode                 // return CL_INVALID_HOST_PTR
    | WriteBack(slot: string)    // store it through the last parameter, return NULL
    | NoReport                   // return NULL

  /** The choice the `if`/`elif`/`else` of `gen_stub_dummies` makes. */
  function Report(a: Api): (r: ErrorReport)
    ensures r.ReturnCode? <==>
      TypeText(a.ret.typ) == "cl_int" && !(|a.params| > 0 && TypeText(a.params[|a.params| - 1].typ) == "cl_int*")
    ensures r.WriteBack? <==> |a.params| > 0 && TypeText(a.params[|a.params| - 1].typ) == "cl_int*"
    ensures r.WriteBack? ==> r.slot == NameText(a.params[|a.params| - 1].name)
    ensures r.NoReport? <==> !IsRettypeErr(a) && !IsLastParamErr(a)
  {
    if IsRettypeErr(a) then ReturnCode
    else if IsLastParamErr(a) then WriteBack(NameText(a.params[|a.params| - 1].name))
    else NoReport
  }

  /** The two predicates never hold together, and they are exactly the
      first two branches of the dummy's `if`/`elif`/`else`. A command with
      no params reports through its return value iff it returns `cl_int`. */
  lemma Classification(a: Api)
    ensures !(IsRettypeErr(a) && IsLastParamErr(a))
    ensures IsRettypeErr(a) <==> Report(a).ReturnCode?
    ensures IsLastParamErr(a) <==> Report(a).WriteBack?
    ensures |a.params| == 0 ==> (Report(a).ReturnCode? <==> TypeText(a.ret.typ) == "cl_int")
  {
  }

  /** The `appendix` statement(s) of a dummy body, `ind` being `indent(1)`. */
  function Appendix(r: ErrorReport, ind: string): string {
    match r
    case ReturnCode => "return CL_INVALID_HOST_PTR;"
    case WriteBack(slot) => "*" + slot + " = CL_INVALID_HOST_PTR;\n" + ind + "return NULL;"
    case NoReport => "/* no error handling here*/\n" + ind + "return NULL;"
  }

  /** A dummy body ends in one of exactly three ways; only a command that
      returns its error code returns `CL_INVALID_HOST_PTR`. */
  lemma AppendixCases(a: Api, ind: string)
    ensures var t := Appendix(Report(a), ind);
      || (t == "return CL_INVALID_HOST_PTR;" && IsRettypeErr(a))
      || (IsLastParamErr(a)
          && t == "*" + NameText(a.params[|a.params| - 1].name) + " = CL_INVALID_HOST_PTR;\n" + ind + "return NULL;")
      || (t == "/* no error handling here*/\n" + ind + "return NULL;" && !IsRettypeErr(a) && !IsLastParamErr(a))
  {
  }

  /** `API.get_pfn_typedef_name`. */
  function PfnTypedefName(a: Api): string
    requires HasName(a)
  {
    "PFN" + Upper(Name(a)) + "FUNC"
  }

  /** `API.get_dummy_impl_name`. */
  function DummyImplName(a: Api): string
    requires HasName(a)
  {
    Name(a) + "DummyImpl"
  }

  /** Two commands share a typedef name exactly when their names agree up
      to letter case. */
  lemma PfnTypedefNameIff(a: Api, b: Api)
    requires HasName(a) && HasName(b)
    ensures PfnTypedefName(a) == PfnTypedefName(b) <==> Upper(Name(a)) == Upper(Name(b))
  {
    var x, y := PfnTypedefName(a), PfnTypedefName(b);
    if x == y {
      assert |Upper(Name(a))| == |Upper(Name(b))|;
      assert Upper(Name(a)) == x[3..|x| - 4];
      assert Upper(Name(b)) == y[3..|y| - 4];
    }
  }

  /** Distinct commands get distinct dummy implementations. */
  lemma DummyImplNameInjective(a: Api, b: Api)
    requires HasName(a) && HasName(b)
    ensures DummyImplName(a) == DummyImplName(b) <==> Name(a) == Name(b)
  {
    var x, y := DummyImplName(a), DummyImplName(b);
    if x == y {
      assert Name(a) == x[..|x| - 9];
      assert Name(b) == y[..|y| - 9];
    }
  }

  /** The parameter declarations joined as in a C parameter list. */
  function FormalList(a: Api): string {
    Join(", ", Formals(a.params))
  }

  /** The calling-convention macros between the return type and the name. */
  const CallMacros := " (CL_API_CALL CL_API_ENTRYP"

  /** `API.as_pfn_typedef`; the `Type` constructor strips the two parts. */
  function AsPfnTypedef(a: Api): string
    requires HasName(a)
  {
    var prefix := TypeText(a.ret.typ) + CallMacros;
    var suffix := ")(" + FormalList(a) + ")";
    "typedef " + WithName(MkType(prefix, suffix), PfnTypedefName(a)) + ";"
  }

  /** Every declaration of `a` is stripped, as the `Type` constructor leaves it. */
  predicate Normalized(a: Api) {
    && IsStripped(a.ret.typ.prefix) && IsStripped(a.ret.typ.suffix)
    && forall j | 0 <= j < |a.params| :: IsStripped(a.params[j].typ.prefix) && IsStripped(a.params[j].typ.suffix)
  }

  /** Parsing yields normalized commands. */
  lemma ParseNormalized(cmd: CommandNode)
    requires Parse(cmd).Success?
    ensures Normalized(Parse(cmd).value)
  {
    ParseSucceedsIff(cmd);
  }

  /** `str(T)` of a stripped type is stripped. */
  lemma TypeTextStripped(t: Type)
    requires IsStripped(t.prefix) && IsStripped(t.suffix)
    ensures IsStripped(TypeText(t))
  {
  }

  /** `as_pfn_typedef` is the declaration of the typedef name with the type
      built from the two parts. */
  lemma AsPfnTypedefParts(a: Api, prefix: string, suffix: string)
    requires HasName(a)
    requires Strip(TypeText(a.ret.typ) + CallMacros) == prefix && Strip(")(" + FormalList(a) + ")") == suffix
    ensures AsPfnTypedef(a) == "typedef " + prefix + " " + PfnTypedefName(a) + suffix + ";"
  {
    MkTypeStrips(TypeText(a.ret.typ) + CallMacros, ")(" + FormalList(a) + ")");
  }

  /** The parameter list part is never stripped. */
  lemma SuffixKept(a: Api)
    ensures Strip(")(" + FormalList(a) + ")") == ")(" + FormalList(a) + ")"
  {
    var suffix := ")(" + FormalList(a) + ")";
    assert IsStripped(suffix);
    StripStripped(suffix);
  }

  /** For a normalized command with a return type, the typedef reads
      `typedef <ret> (CL_API_CALL CL_API_ENTRYP PFN<NAME>FUNC)(<params>);`:
      nothing is stripped from either part. */
  lemma AsPfnTypedefShape(a: Api)
    requires HasName(a) && Normalized(a) && TypeText(a.ret.typ) != ""
    ensures AsPfnTypedef(a) ==
      "typedef " + TypeText(a.ret.typ) + CallMacros + " " + PfnTypedefName(a) + ")(" + FormalList(a) + ")" + ";"
  {
    var rt := TypeText(a.ret.typ);
    TypeTextStripped(a.ret.typ);
    var prefix := rt + CallMacros;
    assert prefix[0] == rt[0] && prefix[|prefix| - 1] == 'P';
    assert IsStripped(prefix);
    StripStripped(prefix);
    SuffixKept(a);
    AsPfnTypedefParts(a, prefix, ")(" + FormalList(a) + ")");
    AppendAssoc("typedef ", rt, CallMacros);
    SuffixAssoc("typedef " + prefix + " " + PfnTypedefName(a), FormalList(a));
  }

  /** With an empty return type the leading space of the macros is
      stripped: the typedef starts `typedef (CL_API_CALL`. */
  lemma AsPfnTypedefNoReturnType(a: Api)
    requires HasName(a) && TypeText(a.ret.typ) == ""
    ensures AsPfnTypedef(a) ==
      "typedef " + CallMacros[1..] + " " + PfnTypedefName(a) + ")(" + FormalList(a) + ")" + ";"
  {
    assert TypeText(a.ret.typ) + CallMacros == CallMacros;
    CallPrefixStrip();
    SuffixKept(a);
    AsPfnTypedefParts(a, CallMacros[1..], ")(" + FormalList(a) + ")");
    SuffixAssoc("typedef " + CallMacros[1..] + " " + PfnTypedefName(a), FormalList(a));
  }

  lemma SuffixAssoc(p: string, f: string)
    ensures p + (")(" + f + ")") == p + ")(" + f + ")"
  {
    AppendAssoc(p, ")(" + f, ")");
    AppendAssoc(p, ")(", f);
  }

  lemma MkTypeStrips(prefix: string, suffix: string)
    ensures MkType(prefix, suffix) == Type(Strip(prefix), Strip(suffix))
  {
  }

  lemma CallPrefixStrip()
    ensures Strip(CallMacros) == CallMacros[1..]
  {
    var body := CallMacros[1..];
    assert IsStripped(body);
    StripStripped(body);
  }
}
