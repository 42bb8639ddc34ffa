/** `escapeLatex` of `src/utils/index.ts`: `null` and `undefined` give the
    empty string; otherwise ten chained one-character replacements, then the
    markdown bold pass, which turns each lazily matched `**text**` into
    `\textbf{text}`. */
module SrcEscape {
  import opened Wrappers
  import opened Text
  import EscapeSpec

  // ---------------------------------------------------------------------
  // The chain of one-character replacements

  /** The seven characters that get a backslash in front, in the order the
      chain replaces them. */
  const ClassChars: seq<char> := ['&', '%', '$', '#', '_', '{', '}']

  /** `.replace(/d/g, "\\d")` for each `d` of `ds` in turn. */
  function PrefixEach(s: string, ds: seq<char>): string
    decreases |ds|
  {
    if ds == [] then s else PrefixEach(ReplaceChar(s, ds[0], ['\\', ds[0]]), ds[1..])
  }

  /** The replacements before the bold pass, in source order. */
  function Structural(s: string): string {
    var a := ReplaceChar(s, '\\', EscapeSpec.BackslashMacro);
    var b := PrefixEach(a, ClassChars);
    var c := ReplaceChar(b, '~', "\\textasciitilde{}");
    ReplaceChar(c, '^', "\\textasciicircum{}")
  }

  lemma {:induction false} PrefixEachAppend(a: string, b: string, ds: seq<char>)
    ensures PrefixEach(a + b, ds) == PrefixEach(a, ds) + PrefixEach(b, ds)
    decreases |ds|
  {
    if ds != [] {
      var rep := ['\\', ds[0]];
      ReplaceCharAppend(a, b, ds[0], rep);
      PrefixEachAppend(ReplaceChar(a, ds[0], rep), ReplaceChar(b, ds[0], rep), ds[1..]);
    }
  }

  lemma {:induction false} PrefixEachAbsent(s: string, ds: seq<char>)
    requires forall k :: 0 <= k < |ds| ==> ds[k] !in s
    ensures PrefixEach(s, ds) == s
    decreases |ds|
  {
    if ds != [] {
      ReplaceCharAbsent(s, ds[0], ['\\', ds[0]]);
      PrefixEachAbsent(s, ds[1..]);
    }
  }

  /** Passing distinct, backslash-free characters one replacement at a time
      escapes each character once: a replacement's output is never matched
      by a later replacement. */
  lemma {:induction false} PrefixEachChar(c: char, ds: seq<char>)
    requires '\\' !in ds
    requires forall k, l :: 0 <= k < l < |ds| ==> ds[k] != ds[l]
    ensures PrefixEach([c], ds) == if c in ds then ['\\', c] else [c]
    decreases |ds|
  {
    if ds != [] {
      ReplaceCharSingle(c, ds[0], ['\\', ds[0]]);
      if c == ds[0] {
        assert c !in ds[1..] by {
          forall k | 0 <= k < |ds[1..]| ensures ds[1..][k] != c {
            assert ds[1..][k] == ds[k + 1];
          }
        }
        PrefixEachAbsent(['\\', c], ds[1..]);
      } else {
        PrefixEachChar(c, ds[1..]);
        assert c in ds <==> c in ds[1..] by {
          assert ds == [ds[0]] + ds[1..];
        }
      }
    }
  }

  lemma ClassCharsDistinct()
    ensures '\\' !in ClassChars
    ensures forall k, l :: 0 <= k < l < |ClassChars| ==> ClassChars[k] != ClassChars[l]
  {
  }

  // ---------------------------------------------------------------------
  // The bold pass

  /** The characters the regular expression's `.` does not match. */
  predicate IsLineTerminator(c: char) {
    c == '\n' || c == '\r' || c == '\U{2028}' || c == '\U{2029}'
  }

  /** Where the lazy `(.+?)` of a match stops: trying `j0`, `j0 + 1`, ... in
      turn, the first position where a closing `**` follows, provided the
      character before it is matched by `.`; `None` when a line terminator or
      the end of the text comes first. */
  function CloseFrom(s: string, j0: nat): (r: Option<nat>)
    requires 1 <= j0
    ensures r.Some? ==> j0 <= r.value && r.value + 2 <= |s|
    ensures r.Some? ==> OccursAt(s, "**", r.value)
    decreases |s| - j0
  {
    if j0 + 2 > |s| then None
    else if IsLineTerminator(s[j0 - 1]) then None
    else if OccursAt(s, "**", j0) then Some(j0)
    else CloseFrom(s, j0 + 1)
  }

  /** The lazy group ends at the first closing `**` that is reached without
      passing a line terminator. */
  lemma {:induction false} CloseFromFirst(s: string, j0: nat)
    requires 1 <= j0
    ensures CloseFrom(s, j0).Some? ==> OccursAt(s, "**", CloseFrom(s, j0).value)
    ensures CloseFrom(s, j0).Some? ==>
              forall k :: j0 - 1 <= k < CloseFrom(s, j0).value ==> !IsLineTerminator(s[k])
    ensures CloseFrom(s, j0).Some? ==>
              forall k :: j0 <= k < CloseFrom(s, j0).value ==> !OccursAt(s, "**", k)
    ensures CloseFrom(s, j0).None? ==>
              forall e: nat :: j0 <= e && OccursAt(s, "**", e) ==>
                exists k :: j0 - 1 <= k < e && IsLineTerminator(s[k])
    decreases |s| - j0
  {
    if j0 + 2 <= |s| && !IsLineTerminator(s[j0 - 1]) && !OccursAt(s, "**", j0) {
      CloseFromFirst(s, j0 + 1);
    }
  }

  /** The end of the opening `**` of a match at `i`, and the position of its
      closing `**`: at least one character lies between them. */
  function MatchAt(s: string, i: nat): (r: Option<nat>)
    ensures r.Some? ==> i + 3 <= r.value && r.value + 2 <= |s|
  {
    if OccursAt(s, "**", i) then CloseFrom(s, i + 3) else None
  }

  /** The global replacement from position `i` on: each match is replaced by
      `\textbf{...}` around its group and the scan resumes after it;
      elsewhere characters are copied. */
  function BoldFrom(s: string, i: nat): string
    requires i <= |s|
    decreases |s| - i
  {
    if i == |s| then ""
    else match MatchAt(s, i)
      case Some(j) => "\\textbf{" + s[i + 2..j] + "}" + BoldFrom(s, j + 2)
      case None => [s[i]] + BoldFrom(s, i + 1)
  }

  function Bold(s: string): string {
    BoldFrom(s, 0)
  }

  function EscapeLatex(text: Option<string>): string {
    if text.None? then "" else Bold(Structural(text.value))
  }

  /** Text without a `**` passes through the bold pass unchanged. */
  lemma {:induction false} BoldFromUnmarked(s: string, i: nat)
    requires i <= |s|
    requires forall k: nat :: !OccursAt(s, "**", k)
    ensures BoldFrom(s, i) == s[i..]
    decreases |s| - i
  {
    if i < |s| {
      BoldFromUnmarked(s, i + 1);
      assert s[i..] == [s[i]] + s[i + 1..];
    }
  }

  lemma BoldUnmarked(s: string)
    requires forall k: nat :: !OccursAt(s, "**", k)
    ensures Bold(s) == s
  {
    BoldFromUnmarked(s, 0);
  }

  /** A one-line, asterisk-free, non-empty `x` between double asterisks
      becomes bold. */
  lemma BoldWrapped(x: string)
    requires x != [] && '*' !in x
    requires forall k :: 0 <= k < |x| ==> !IsLineTerminator(x[k])
    ensures Bold("**" + x + "**") == "\\textbf{" + x + "}"
  {
    var s := "**" + x + "**";
    var e := |x| + 2;
    assert OccursAt(s, "**", 0) && OccursAt(s, "**", e);
    forall k | 3 <= k < e ensures !OccursAt(s, "**", k) {
      assert s[k] == x[k - 2];
    }
    forall k | 2 <= k < e ensures !IsLineTerminator(s[k]) {
      assert s[k] == x[k - 2];
    }
    CloseFromFirst(s, 3);
    assert MatchAt(s, 0) == Some(e);
    assert s[2..e] == x;
    assert BoldFrom(s, e + 2) == "";
    assert BoldFrom(s, 0) == "\\textbf{" + s[2..e] + "}" + BoldFrom(s, e + 2);
  }
}
