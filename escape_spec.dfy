/** The reference meaning of the structural LaTeX escaping both generators
    perform, one character at a time. Each escaper in the model is a chain of
    global replacements; its lemma shows the chain equals `EscapeEach`. */
module EscapeSpec {

  /** The ten characters the escapers rewrite. */
  predicate IsReserved(c: char) {
    c == '\\' || c == '&' || c == '%' || c == '$' || c == '#' || c == '_'
    || c == '{' || c == '}' || c == '~' || c == '^'
  }

  /** The backslash macro's name, `\textbackslash`. */
  const BackslashName: string := "\\textbackslash"

  /** What both escapers put for a backslash first: `\textbackslash{}`. */
  const BackslashMacro: string := BackslashName + "{}"

  /** What one character becomes. The backslash macro's braces are escaped
      again because the brace replacements run after it; the tilde and caret
      macros keep plain braces because they are introduced last. */
  function EscapedChar(c: char): string {
    match c
    case '\\' => BackslashName + "\\{\\}"
    case '&' => "\\&"
    case '%' => "\\%"
    case '$' => "\\$"
    case '#' => "\\#"
    case '_' => "\\_"
    case '{' => "\\{"
    case '}' => "\\}"
    case '~' => "\\textasciitilde{}"
    case '^' => "\\textasciicircum{}"
    case _ => [c]
  }

  function EscapeEach(s: string): string {
    if s == [] then [] else EscapedChar(s[0]) + EscapeEach(s[1..])
  }

  lemma {:induction false} EscapeEachAppend(a: string, b: string)
    ensures EscapeEach(a + b) == EscapeEach(a) + EscapeEach(b)
  {
    if a == [] {
      assert a + b == b;
    } else {
      assert (a + b)[1..] == a[1..] + b;
      EscapeEachAppend(a[1..], b);
    }
  }

  /** Text without reserved characters is left exactly as it is. */
  lemma {:induction false} EscapeEachUnreserved(s: string)
    requires forall i :: 0 <= i < |s| ==> !IsReserved(s[i])
    ensures EscapeEach(s) == s
  {
    if s != [] {
      EscapeEachUnreserved(s[1..]);
    }
  }

  /** Every reserved character is replaced by a form that starts with a
      backslash, so none of them reaches the output bare. */
  lemma ReservedGetsBackslash(c: char)
    requires IsReserved(c)
    ensures |EscapedChar(c)| >= 2 && EscapedChar(c)[0] == '\\'
    ensures c == '\\' || c == '~' || c == '^' ==> EscapedChar(c)[1] == 't'
    ensures c != '\\' && c != '~' && c != '^' ==> EscapedChar(c) == ['\\', c]
  {
  }
}
