/** The two C templates and how the generated fragments are spliced into
    them (cl3w_gen.py, class `Template`, and the banner constants it
    writes in front of the result). */
module Templates {
  import opened Wrappers
  import opened Strings

  /** `f"/* generated {key} */\n"`: the whole marker line, newline included. */
  function Marker(key: string): string {
    "/* generated " + key + " */\n"
  }

  /** Markers are one line each, and different keys have different markers. */
  lemma MarkerShape(key: string, other: string)
    ensures var m := Marker(key);
      && |m| == |key| + 17 && m[..13] == "/* generated " && m[|m| - 4..] == " */\n"
      && (Marker(other) == m <==> other == key)
  {
    var m, n := Marker(key), Marker(other);
    assert m[13..|m| - 4] == key;
    assert n[13..|n| - 4] == other;
  }

  /** The assertion of `Template.format` that fails, with the marker it
      reports as not found. */
  datatype FormatError = MarkerNotFound(marker: string)

  /** `format(key, value)` on template text `tpl`: the new text, or the
      failed assertion. */
  function Formatted(tpl: string, key: string, value: string): Result<string, FormatError> {
    if Contains(tpl, Marker(key)) then Success(ReplaceAll(tpl, Marker(key), value))
    else Failure(MarkerNotFound(Marker(key)))
  }

  /** A template being filled in; `__init__` reads the file, here the text
      is given. */
  class Template {
    var tpl: string

    constructor (text: string)
      ensures tpl == text
    {
      tpl := text;
    }

    /** `Template.format`: every occurrence of the marker of `key` becomes
        `value`; a template without the marker fails the assertion and is
        left as it was. */
    method Format(key: string, value: string) returns (r: Outcome<FormatError>)
      modifies this
      ensures r.Pass? <==> Contains(old(tpl), Marker(key))
      ensures r.Pass? ==> tpl == ReplaceAll(old(tpl), Marker(key), value)
      ensures r.Fail? ==> r.error == MarkerNotFound(Marker(key)) && tpl == old(tpl)
      ensures Formatted(old(tpl), key, value) == if r.Pass? then Success(tpl) else Failure(r.error)
    {
      var fullKey := "/* generated " + key + " */\n";
      if !Contains(tpl, fullKey) {
        return Fail(MarkerNotFound(fullKey));
      }
      tpl := ReplaceAll(tpl, fullKey, value);
      r := Pass;
    }

    /** What `Template.write` puts in the file: the banner the two flags
        select, then the filled-in text. */
    method Write(noHeader: bool, noLicense: bool) returns (contents: string)
      ensures contents == Banner(noHeader, noLicense) + tpl
    {
      contents := "";
      if !noHeader {
        if noLicense {
          contents := contents + NoLicenseHeader;
        } else {
          contents := contents + Header;
        }
      }
      contents := contents + tpl;
    }
  }

  /** A marker that is absent fails, and nothing is spliced. */
  lemma FormatMissing(tpl: string, key: string, value: string)
    ensures Formatted(tpl, key, value).Failure? <==> !Contains(tpl, Marker(key))
    ensures Formatted(tpl, key, value).Failure? ==> Formatted(tpl, key, value).error == MarkerNotFound(Marker(key))
  {
  }

  /** The marker occurs only at `i` in `s`. */
  predicate OnlyAt(s: string, pat: string, i: nat) {
    forall j | 0 <= j <= |s| && OccursAt(s, pat, j) :: j == i
  }

  /** A marker that occurs once is replaced by the value at that place and
      the rest of the template is kept. */
  lemma FormatSplice(a: string, key: string, b: string, value: string)
    requires OnlyAt(a + Marker(key) + b, Marker(key), |a|)
    ensures Formatted(a + Marker(key) + b, key, value) == Success(a + value + b)
  {
    var m := Marker(key);
    ContainsMiddle(a, m, b);
    ReplaceOnce(a, m, b, value);
  }

  /** A marker that occurs twice is replaced at both places (the
      assertion rejects only a missing marker, not a repeated one). */
  lemma FormatEveryOccurrence(a: string, key: string, b: string, c: string, value: string)
    requires forall j | OccursAt(a + Marker(key) + (b + Marker(key) + c), Marker(key), j) ::
      j == |a| || j == |a| + |Marker(key)| + |b|
    ensures Formatted(a + Marker(key) + (b + Marker(key) + c), key, value) == Success(a + value + (b + value + c))
  {
    var m := Marker(key);
    ContainsMiddle(a, m, b + m + c);
    ReplaceTwice(a, m, b, c, value);
  }

  /** The banner lines, as the script spells them. */
  const Src := "\n * This file was generated with cl3w_gen.py, part of cl3w\n * (hosted at https://github.com/cloudhan/cl3w)\n"

  const Wtfpl := "\n * This program is free software. It comes without any warranty, to the extent\n"
    + " * permitted by applicable law. You can redistribute it and/or modify it under\n"
    + " * the terms of the Do What The Fuck You Want To Public License, Version 2, as\n"
    + " * published by Sam Hocevar. See http://www.wtfpl.net/ for more details.\n"

  /** `HEADER`: the origin note and the licence in one C comment. */
  const Header := "/*" + Src + " *" + Wtfpl + "*/\n"

  /** `NO_LICENSE_HEADER`: the origin note alone. */
  const NoLicenseHeader := "/*" + Src + "*/\n"

  /** The banner `write` puts before the text for `--no_header` and `--no_license`. */
  function Banner(noHeader: bool, noLicense: bool): string {
    if noHeader then "" else if noLicense then NoLicenseHeader else Header
  }

  /** `--no_header` writes no banner; otherwise the banner is one C comment
      that names the generator, and it carries the licence exactly when
      `--no_license` is absent. */
  lemma BannerChoice(noHeader: bool, noLicense: bool)
    ensures noHeader <==> Banner(noHeader, noLicense) == ""
    ensures !noHeader ==> var b := Banner(noHeader, noLicense);
      && b[..2] == "/*" && b[|b| - 3..] == "*/\n" && Contains(b, Src)
      && (Contains(b, Wtfpl) <==> !noLicense)
  {
    if !noHeader {
      var b := Banner(noHeader, noLicense);
      if noLicense {
        ContainsMiddle("/*", Src, "*/\n");
        assert !Contains(b, Wtfpl) by {
          assert |b| < |Wtfpl|;
        }
      } else {
        assert b == "/*" + Src + (" *" + Wtfpl + "*/\n");
        ContainsMiddle("/*", Src, " *" + Wtfpl + "*/\n");
        assert b == "/*" + Src + " *" + Wtfpl + "*/\n";
        ContainsMiddle("/*" + Src + " *", Wtfpl, "*/\n");
      }
    }
  }
}
