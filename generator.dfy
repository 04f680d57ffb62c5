/** The script's top level: the fragments are generated and spliced into
    the two templates in a fixed order, and each file gets its banner. The
    selected command list and the indentation unit are parameters; the
    template texts are given rather than read, and the file contents are
    returned rather than written. */
module Generator {
  import opened Wrappers
  import opened Strings
  import opened Decl
  import opened Emit
  import opened Templates
  import Selection

  /** Why generating a file stops: a fragment raised, or a marker is missing. */
  datatype GenError = EmitFailed(emit: EmitError) | FormatFailed(format: FormatError)

  /** One `template.format(key, fragment)` statement applied to the text so
      far: an earlier error stands, then the fragment may raise (it is
      evaluated first), then the marker may be missing. */
  function Step(prev: Result<string, GenError>, key: string, fragment: Result<string, EmitError>)
    : Result<string, GenError>
  {
    if prev.Failure? then prev
    else if fragment.Failure? then Failure(EmitFailed(fragment.error))
    else
      var f := Formatted(prev.value, key, fragment.value);
      if f.Failure? then Failure(FormatFailed(f.error)) else Success(f.value)
  }

  /** What `write` puts in the file once every statement went through. */
  function Written(r: Result<string, GenError>, noHeader: bool, noLicense: bool): Result<string, GenError> {
    if r.Failure? then r else Success(Banner(noHeader, noLicense) + r.value)
  }

  /** `cl3w.h` from its template text and its three fragments, filled in
      the order of the script. */
  function HeaderFill(text: string, typedefs: string, decl: string, defines: string, noHeader: bool, noLicense: bool)
    : Result<string, GenError>
  {
    var t1 := Step(Success(text), "typedefs", Success(typedefs));
    var t2 := Step(t1, "CL3WAPIs", Success(decl));
    var t3 := Step(t2, "defines", Success(defines));
    Written(t3, noHeader, noLicense)
  }

  /** `cl3w.c` from its template text and its five fragments, two of which
      may raise, filled in the order of the script. */
  function SourceFill(text: string, dummies: string, impls: Result<string, EmitError>, names: string,
                      unload: string, probe: Result<string, EmitError>, noHeader: bool, noLicense: bool)
    : Result<string, GenError>
  {
    var t1 := Step(Success(text), "stub dummies", Success(dummies));
    var t2 := Step(t1, "stub impls", impls);
    var t3 := Step(t2, "cl3w_api_names", Success(names));
    var t4 := Step(t3, "unload_apis", Success(unload));
    var t5 := Step(t4, "get_probe_api_name", probe);
    Written(t5, noHeader, noLicense)
  }

  /** The `cl3w_h` statements: a `Template` over the text, three `format`
      calls, then `write`. */
  method FillHeader(text: string, typedefs: string, decl: string, defines: string, noHeader: bool, noLicense: bool)
    returns (r: Result<string, GenError>)
    ensures r == HeaderFill(text, typedefs, decl, defines, noHeader, noLicense)
  {
    var t := new Template(text);
    var o := t.Format("typedefs", typedefs);
    if o.Fail? {
      return Failure(FormatFailed(o.error));
    }
    o := t.Format("CL3WAPIs", decl);
    if o.Fail? {
      return Failure(FormatFailed(o.error));
    }
    o := t.Format("defines", defines);
    if o.Fail? {
      return Failure(FormatFailed(o.error));
    }
    var contents := t.Write(noHeader, noLicense);
    return Success(contents);
  }

  /** The `cl3w_c` statements: a `Template` over the text, five `format`
      calls, each after its fragment, then `write`. */
  method FillSource(text: string, dummies: string, impls: Result<string, EmitError>, names: string,
                    unload: string, probe: Result<string, EmitError>, noHeader: bool, noLicense: bool)
    returns (r: Result<string, GenError>)
    ensures r == SourceFill(text, dummies, impls, names, unload, probe, noHeader, noLicense)
  {
    var t := new Template(text);
    var o := t.Format("stub dummies", dummies);
    if o.Fail? {
      return Failure(FormatFailed(o.error));
    }
    if impls.Failure? {
      return Failure(EmitFailed(impls.error));
    }
    o := t.Format("stub impls", impls.value);
    if o.Fail? {
      return Failure(FormatFailed(o.error));
    }
    o := t.Format("cl3w_api_names", names);
    if o.Fail? {
      return Failure(FormatFailed(o.error));
    }
    o := t.Format("unload_apis", unload);
    if o.Fail? {
      return Failure(FormatFailed(o.error));
    }
    if probe.Failure? {
      return Failure(EmitFailed(probe.error));
    }
    o := t.Format("get_probe_api_name", probe.value);
    if o.Fail? {
      return Failure(FormatFailed(o.error));
    }
    var contents := t.Write(noHeader, noLicense);
    return Success(contents);
  }

  /** `cl3w.h` for the selected commands. */
  method GenerateHeader(text: string, cmds: seq<Api>, unit: string, noHeader: bool, noLicense: bool)
    returns (r: Result<string, GenError>)
    requires AllNamed(cmds)
    ensures r == HeaderFill(text, TypedefsText(cmds), StubDeclText(cmds, unit), DefinesText(cmds), noHeader, noLicense)
  {
    var typedefs := GenPfnTypedefs(cmds);
    var decl := GenStubDecl(cmds, unit);
    var defines := GenDefines(cmds);
    r := FillHeader(text, typedefs, decl, defines, noHeader, noLicense);
  }

  /** `cl3w.c` for the selected commands. */
  method GenerateSource(text: string, cmds: seq<Api>, unit: string, noHeader: bool, noLicense: bool)
    returns (r: Result<string, GenError>)
    requires AllNamed(cmds)
    ensures r == SourceFill(text, StubDummiesText(cmds, unit), StubImplsText(cmds, unit), ApiNamesText(cmds, unit),
                            UnloadApisText(cmds, unit), ProbeResult(cmds, unit), noHeader, noLicense)
  {
    var dummies := GenStubDummies(cmds, unit);
    var impls := GenStubImpls(cmds, unit);
    var names := GenApiNames(cmds, unit);
    var unload := GenUnloadApis(cmds, unit);
    var probe := GenProbeApiName(cmds, unit);
    r := FillSource(text, dummies, impls, names, unload, probe, noHeader, noLicense);
  }

  /** Splicing a fragment for a marker that occurs once, with the rest of
      the text regrouped for the next marker. */
  lemma SpliceNext(p: string, key: string, s: string, m: string, rest: string, v: string)
    requires OnlyAt(p + Marker(key) + (s + m + rest), Marker(key), |p|)
    ensures Formatted(p + Marker(key) + (s + m + rest), key, v) == Success(p + v + s + m + rest)
  {
    FormatSplice(p, key, s + m + rest, v);
    AppendAssoc(p + v, s + m, rest);
    AppendAssoc(p + v, s, m);
  }

  /** With each marker of `cl3w.h` occurring once in the text it is
      spliced into, the header is the banner, then the template with the
      three fragments in the places of their markers, in template order. */
  lemma HeaderLayout(a: string, b: string, c: string, d: string, v1: string, v2: string, v3: string,
                     noHeader: bool, noLicense: bool)
    requires var m1, m2, m3 := Marker("typedefs"), Marker("CL3WAPIs"), Marker("defines");
      && OnlyAt(a + m1 + (b + m2 + (c + m3 + d)), m1, |a|)
      && OnlyAt(a + v1 + b + m2 + (c + m3 + d), m2, |a + v1 + b|)
      && OnlyAt(a + v1 + b + v2 + c + m3 + d, m3, |a + v1 + b + v2 + c|)
    ensures HeaderFill(a + Marker("typedefs") + (b + Marker("CL3WAPIs") + (c + Marker("defines") + d)),
                       v1, v2, v3, noHeader, noLicense)
      == Success(Banner(noHeader, noLicense) + (a + v1 + b + v2 + c + v3 + d))
  {
    var m1, m2, m3 := Marker("typedefs"), Marker("CL3WAPIs"), Marker("defines");
    SpliceNext(a, "typedefs", b, m2, c + m3 + d, v1);
    SpliceNext(a + v1 + b, "CL3WAPIs", c, m3, d, v2);
    FormatSplice(a + v1 + b + v2 + c, "defines", d, v3);
  }

  /** Regrouping a text whose tail is a left-nested chain of seven parts. */
  lemma Regroup(x: string, b1: string, b2: string, b3: string, b4: string, b5: string, b6: string, b7: string)
    ensures x + (b1 + b2 + b3 + b4 + b5 + b6 + b7) == x + b1 + b2 + b3 + b4 + b5 + b6 + b7
  {
    AppendAssoc(x, b1 + b2 + b3 + b4 + b5 + b6, b7);
    AppendAssoc(x, b1 + b2 + b3 + b4 + b5, b6);
    AppendAssoc(x, b1 + b2 + b3 + b4, b5);
    AppendAssoc(x, b1 + b2 + b3, b4);
    AppendAssoc(x, b1 + b2, b3);
    AppendAssoc(x, b1, b2);
  }

  /** The same for `cl3w.c`, whose template holds the name table marker
      first and then the markers of the dummies, the forwarding functions,
      `unload_apis` and the probe accessor, when neither fragment raises:
      each fragment lands in the place of its marker although the name
      table is spliced third. */
  lemma SourceLayout(a: string, b: string, c: string, d: string, e: string, f: string,
                     vn: string, vd: string, vi: string, vu: string, vp: string, noHeader: bool, noLicense: bool)
    requires var mn, md, mi, mu, mp :=
        Marker("cl3w_api_names"), Marker("stub dummies"), Marker("stub impls"), Marker("unload_apis"),
        Marker("get_probe_api_name");
      && OnlyAt(a + mn + b + md + (c + mi + (d + mu + (e + mp + f))), md, |a + mn + b|)
      && OnlyAt(a + mn + b + vd + c + mi + (d + mu + (e + mp + f)), mi, |a + mn + b + vd + c|)
      && OnlyAt(a + mn + (b + vd + c + vi + d + mu + (e + mp + f)), mn, |a|)
      && OnlyAt(a + vn + b + vd + c + vi + d + mu + (e + mp + f), mu, |a + vn + b + vd + c + vi + d|)
      && OnlyAt(a + vn + b + vd + c + vi + d + vu + e + mp + f, mp, |a + vn + b + vd + c + vi + d + vu + e|)
    ensures SourceFill(a + Marker("cl3w_api_names") + (b + Marker("stub dummies") + (c + Marker("stub impls")
                         + (d + Marker("unload_apis") + (e + Marker("get_probe_api_name") + f)))),
                       vd, Success(vi), vn, vu, Success(vp), noHeader, noLicense)
      == Success(Banner(noHeader, noLicense) + (a + vn + b + vd + c + vi + d + vu + e + vp + f))
  {
    var mn, md, mi, mu, mp := Marker("cl3w_api_names"), Marker("stub dummies"), Marker("stub impls"),
      Marker("unload_apis"), Marker("get_probe_api_name");
    var r3 := e + mp + f;
    var r2 := d + mu + r3;
    var r1 := c + mi + r2;
    AppendAssoc(a + mn, b + md, r1);
    AppendAssoc(a + mn, b, md);
    SpliceNext(a + mn + b, "stub dummies", c, mi, r2, vd);
    SpliceNext(a + mn + b + vd + c, "stub impls", d, mu, r3, vi);
    Regroup(a + mn, b, vd, c, vi, d, mu, r3);
    FormatSplice(a, "cl3w_api_names", b + vd + c + vi + d + mu + r3, vn);
    Regroup(a + vn, b, vd, c, vi, d, mu, r3);
    SpliceNext(a + vn + b + vd + c + vi + d, "unload_apis", e, mp, f, vu);
    FormatSplice(a + vn + b + vd + c + vi + d + vu + e, "get_probe_api_name", f, vp);
  }

  /** The errors of `cl3w.c` in the order the script meets them: a missing
      `stub dummies` marker comes before a parameter without a name, and a
      command list without entries fails only at the probe accessor, after
      the first four markers were found. */
  lemma SourceErrors(text: string, dummies: string, impls: Result<string, EmitError>, names: string,
                     unload: string, probe: Result<string, EmitError>, noHeader: bool, noLicense: bool)
    ensures !Contains(text, Marker("stub dummies")) ==>
      SourceFill(text, dummies, impls, names, unload, probe, noHeader, noLicense)
        == Failure(FormatFailed(MarkerNotFound(Marker("stub dummies"))))
    ensures Contains(text, Marker("stub dummies")) && impls.Failure? ==>
      SourceFill(text, dummies, impls, names, unload, probe, noHeader, noLicense) == Failure(EmitFailed(impls.error))
    ensures SourceFill(text, dummies, impls, names, unload, probe, noHeader, noLicense).Success? ==>
      impls.Success? && probe.Success?
  {
  }

  /** The command list of line 185 meets what the generators require:
      every selected command has a name. */
  lemma LoadedCommandsNamed(reg: Selection.Registry, v: string, patterns: seq<string>, matches: (string, string) -> bool)
    requires Selection.LoadCommands(reg, v, patterns, matches).Success?
    ensures AllNamed(Selection.LoadCommands(reg, v, patterns, matches).value)
  {
    var cmds := Selection.LoadCommands(reg, v, patterns, matches).value;
    forall j | 0 <= j < |cmds|
      ensures HasName(cmds[j])
    {
      assert Selection.Selected(cmds[j], Selection.SupportedNames(reg, v, patterns, matches).value);
    }
  }
}
