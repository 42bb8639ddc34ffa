/** How the two generators' `escapeLatex` relate. The chain of one-character
    replacements in `src/utils/index.ts` does what the single class
    replacement of `src/app/utils/index.ts` does, so both perform the same
    structural escaping, `EscapeSpec.EscapeEach`. They differ only in the
    bold pass, which `src/utils` adds: they agree on text without asterisks,
    and `**x**` becomes `\textbf{x}` in one and stays as it is in the other. */
module Variants {
  import opened Wrappers
  import opened Text
  import EscapeSpec
  import SrcEscape
  import AppUtils
  import SrcUtils
  import Types
  import Template

  /** Seven one-character replacements in turn, or one pass over the class:
      the same text. */
  lemma {:induction false} ClassPassAgrees(x: string)
    ensures SrcEscape.PrefixEach(x, SrcEscape.ClassChars) == AppUtils.EscapeClass(x)
  {
    if x == [] {
      SrcEscape.PrefixEachAbsent(x, SrcEscape.ClassChars);
    } else {
      var c := x[0];
      assert x == [c] + x[1..];
      SrcEscape.PrefixEachAppend([c], x[1..], SrcEscape.ClassChars);
      SrcEscape.ClassCharsDistinct();
      SrcEscape.PrefixEachChar(c, SrcEscape.ClassChars);
      AppUtils.EscapeClassAppend([c], x[1..]);
      AppUtils.EscapeClassSingle(c);
      assert AppUtils.InClass(c) <==> c in SrcEscape.ClassChars;
      ClassPassAgrees(x[1..]);
    }
  }

  /** Both generators escape structurally in the same way, character by character. */
  lemma StructuralAgrees(s: string)
    ensures SrcEscape.Structural(s) == AppUtils.EscapeLatex(s)
    ensures SrcEscape.Structural(s) == EscapeSpec.EscapeEach(s)
  {
    ClassPassAgrees(ReplaceChar(s, '\\', EscapeSpec.BackslashMacro));
    AppUtils.EscapeLatexPerChar(s);
  }

  /** The escaping never introduces an asterisk. */
  lemma {:induction false} EscapeEachNoStar(s: string)
    requires '*' !in s
    ensures '*' !in EscapeSpec.EscapeEach(s)
  {
    if s != [] {
      assert s[0] != '*';
      assert '*' !in EscapeSpec.EscapedChar(s[0]);
      EscapeEachNoStar(s[1..]);
    }
  }

  /** The escaping never introduces a line terminator. */
  lemma {:induction false} EscapeEachSingleLine(s: string)
    requires forall k :: 0 <= k < |s| ==> !SrcEscape.IsLineTerminator(s[k])
    ensures forall k :: 0 <= k < |EscapeSpec.EscapeEach(s)| ==> !SrcEscape.IsLineTerminator(EscapeSpec.EscapeEach(s)[k])
  {
    if s != [] {
      var e, rest := EscapeSpec.EscapedChar(s[0]), EscapeSpec.EscapeEach(s[1..]);
      EscapedCharSingleLine(s[0]);
      EscapeEachSingleLine(s[1..]);
      assert EscapeSpec.EscapeEach(s) == e + rest;
      forall k | 0 <= k < |e + rest| ensures !SrcEscape.IsLineTerminator((e + rest)[k]) {
        if k >= |e| {
          assert (e + rest)[k] == rest[k - |e|];
        }
      }
    }
  }

  lemma EscapedCharSingleLine(c: char)
    requires !SrcEscape.IsLineTerminator(c)
    ensures forall k :: 0 <= k < |EscapeSpec.EscapedChar(c)| ==> !SrcEscape.IsLineTerminator(EscapeSpec.EscapedChar(c)[k])
  {
    var e := EscapeSpec.EscapedChar(c);
    assert forall k :: 0 <= k < |e| ==> e[k] == c || ' ' <= e[k] <= '~';
  }

  /** Escaped non-empty text is non-empty. */
  lemma EscapeEachNonEmpty(s: string)
    requires s != []
    ensures EscapeSpec.EscapeEach(s) != []
  {
    assert |EscapeSpec.EscapedChar(s[0])| > 0;
  }

  /** Text with no asterisk has no "**" anywhere. */
  lemma NoStarNoMarker(t: string)
    requires '*' !in t
    ensures forall k: nat :: !OccursAt(t, "**", k)
  {
    forall k: nat ensures !OccursAt(t, "**", k) {
      if k + 2 <= |t| {
        assert t[k..k + 2][0] == t[k];
      }
    }
  }

  /** On text without asterisks the two `escapeLatex` functions agree. */
  lemma StarFreeAgrees(s: string)
    requires '*' !in s
    ensures SrcEscape.EscapeLatex(Some(s)) == AppUtils.EscapeLatex(s)
  {
    StructuralAgrees(s);
    EscapeEachNoStar(s);
    NoStarNoMarker(SrcEscape.Structural(s));
    SrcEscape.BoldUnmarked(SrcEscape.Structural(s));
  }

  /** `**x**` on one line: bold in `src/utils`, markers kept in `src/app/utils`. */
  lemma BoldOnlyInSrc(x: string)
    requires x != [] && '*' !in x
    requires forall k :: 0 <= k < |x| ==> !SrcEscape.IsLineTerminator(x[k])
    ensures SrcEscape.EscapeLatex(Some("**" + x + "**")) == "\\textbf{" + AppUtils.EscapeLatex(x) + "}"
    ensures AppUtils.EscapeLatex("**" + x + "**") == "**" + AppUtils.EscapeLatex(x) + "**"
  {
    var y := AppUtils.EscapeLatex(x);
    StructuralAgrees("**" + x + "**");
    AppUtils.AsterisksKept(x);
    AppUtils.EscapeLatexPerChar(x);
    EscapeEachNonEmpty(x);
    EscapeEachNoStar(x);
    EscapeEachSingleLine(x);
    SrcEscape.BoldWrapped(y);
  }

  // ---------------------------------------------------------------------
  // Skill lines

  /** Text with neither a reserved character nor an asterisk. */
  predicate Inert(s: string) {
    forall i :: 0 <= i < |s| ==> !EscapeSpec.IsReserved(s[i]) && s[i] != '*'
  }

  /** `src/utils`'s `escapeLatex` leaves inert text unchanged. */
  lemma InertEscaped(s: string)
    requires Inert(s)
    ensures SrcUtils.Escape(s) == s
  {
    StarFreeAgrees(s);
    StructuralAgrees(s);
    EscapeSpec.EscapeEachUnreserved(s);
  }

  /** An ampersand between inert texts gets its backslash. */
  lemma AmpersandEscaped(a: string, b: string)
    requires Inert(a) && Inert(b)
    ensures SrcUtils.Escape(a + "&" + b) == a + "\\&" + b
  {
    StarFreeAround(a, b);
    StarFreeAgrees(a + "&" + b);
    StructuralAgrees(a + "&" + b);
    EscapeEachAround(a, b);
  }

  lemma StarFreeAround(a: string, b: string)
    requires Inert(a) && Inert(b)
    ensures '*' !in a + "&" + b
  {
    assert '*' !in a && '*' !in b;
  }

  lemma EscapeEachAround(a: string, b: string)
    requires Inert(a) && Inert(b)
    ensures EscapeSpec.EscapeEach(a + "&" + b) == a + "\\&" + b
  {
    EscapeSpec.EscapeEachAppend(a + "&", b);
    EscapeSpec.EscapeEachAppend(a, "&");
    EscapeSpec.EscapeEachUnreserved(a);
    EscapeSpec.EscapeEachUnreserved(b);
    EscapedAmpersand();
  }

  lemma EscapedAmpersand()
    ensures EscapeSpec.EscapeEach("&") == "\\&"
  {
    assert EscapeSpec.EscapeEach("&") == EscapeSpec.EscapedChar('&') + EscapeSpec.EscapeEach([]);
  }

  /** Every skill label but "Cloud & DevOps" is inert, so `src/utils` writes
      it as it is; that one is "Cloud " and " DevOps" around an ampersand,
      which it escapes. `src/app/utils` writes every label as it is. */
  lemma LabelsInert(c: Types.Category)
    ensures c != Types.CloudDevOps ==> Inert(Template.Label(c))
    ensures c == Types.CloudDevOps ==> Template.Label(c) == "Cloud " + "&" + " DevOps"
    ensures Inert("Cloud ") && Inert(" DevOps")
  {
  }

  /** Asterisk-free items are escaped alike by both generators. */
  lemma {:induction false} EscapeAllAgrees(items: seq<string>)
    requires forall i :: 0 <= i < |items| ==> '*' !in items[i]
    ensures SrcUtils.EscapeAll(items) == AppUtils.EscapeAll(items)
  {
    forall i | 0 <= i < |items| ensures SrcUtils.EscapeAll(items)[i] == AppUtils.EscapeAll(items)[i] {
      StarFreeAgrees(items[i]);
    }
  }

  /** For every category but "Cloud & DevOps", and items without asterisks,
      the two generators write the same skill line. */
  lemma SkillLineAgrees(c: Types.Category, items: seq<string>)
    requires c != Types.CloudDevOps
    requires forall i :: 0 <= i < |items| ==> '*' !in items[i]
    ensures SrcUtils.SkillLine(Template.Label(c), items) == AppUtils.SkillLine(c, items)
  {
    LabelsInert(c);
    InertEscaped(Template.Label(c));
    EscapeAllAgrees(items);
  }
}
