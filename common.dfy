/** Values shared by every page: optional values, server answers, the logged-in
    user, and the two pieces of JavaScript string semantics the handlers rely on
    (`String.prototype.trim` and the `a || b` fallback on strings). */
module Common {

  datatype Option<+T> = None | Some(value: T)

  /** The outcome of one awaited request: `Ok(data)` is the body of a 2xx answer,
      `Err` is anything that makes the awaited call throw. */
  datatype Response<+T> = Ok(data: T) | Err

  /** The session user as the pages read it from the user context. */
  datatype User = User(email: string, name: string, nickname: Option<string>)

  /** JavaScript `a || b` where `a` is an optional string: `a` wins only when it is
      present and not the empty string (both `undefined` and "" are falsy). */
  function OrElse(a: Option<string>, b: string): (r: string)
    ensures a.Some? && a.value != "" ==> r == a.value
    ensures a.None? || a.value == "" ==> r == b
  {
    match a
    case Some(s) => if s != "" then s else b
    case None => b
  }

  /** The characters `String.prototype.trim` removes: ECMAScript WhiteSpace
      (TAB, VT, FF, ZWNBSP and every space separator) and LineTerminator
      (LF, CR, LS, PS). */
  predicate IsWhitespace(c: char)
  {
    c == '\t' || c == '\n' || c == '\U{000B}' || c == '\U{000C}' || c == '\r' ||
    c == ' ' || c == '\U{00A0}' || c == '\U{1680}' ||
    ('\U{2000}' <= c <= '\U{200A}') ||
    c == '\U{2028}' || c == '\U{2029}' || c == '\U{202F}' || c == '\U{205F}' ||
    c == '\U{3000}' || c == '\U{FEFF}'
  }

  predicate AllWhitespace(s: string)
  {
    forall i :: 0 <= i < |s| ==> IsWhitespace(s[i])
  }

  /** The number of whitespace characters `s` starts with. */
  function LeadingWhitespace(s: string): (n: nat)
    ensures n <= |s| && AllWhitespace(s[..n])
    ensures n == |s| || !IsWhitespace(s[n])
  {
    if s == [] || !IsWhitespace(s[0]) then 0
    else
      var n := LeadingWhitespace(s[1..]);
      assert s[..n + 1] == [s[0]] + s[1..][..n];
      n + 1
  }

  /** The number of whitespace characters `s` ends with. */
  function TrailingWhitespace(s: string): (n: nat)
    ensures n <= |s| && AllWhitespace(s[|s| - n..])
    ensures n == |s| || !IsWhitespace(s[|s| - n - 1])
  {
    if s == [] || !IsWhitespace(s[|s| - 1]) then 0
    else
      var n := TrailingWhitespace(s[..|s| - 1]);
      assert s[|s| - (n + 1)..] == s[..|s| - 1][|s| - 1 - n..] + [s[|s| - 1]];
      n + 1
  }

  /** Drops the trailing whitespace. */
  function TrimEnd(s: string): (r: string)
    ensures |r| <= |s| && r == s[..|r|]
    ensures AllWhitespace(s[|r|..])
    ensures r == [] || !IsWhitespace(r[|r| - 1])
  {
    s[..|s| - TrailingWhitespace(s)]
  }

  /** `s.trim()`: whitespace removed at both ends and nowhere else. The result
      is the piece of `s` that starts right after its leading whitespace and
      is followed by whitespace only. */
  function Trim(s: string): (r: string)
    ensures |r| <= |s|
    ensures r == [] || (!IsWhitespace(r[0]) && !IsWhitespace(r[|r| - 1]))
    ensures var k := LeadingWhitespace(s);
            k + |r| <= |s| && r == s[k..k + |r|] && AllWhitespace(s[k + |r|..])
  {
    Window(s, LeadingWhitespace(s));
    TrimEnd(s[LeadingWhitespace(s)..])
  }

  /** Trimming the end of a suffix of `s` leaves a piece of `s` followed by
      whitespace only. */
  lemma Window(s: string, k: nat)
    requires k <= |s|
    ensures var r := TrimEnd(s[k..]);
            k + |r| <= |s| && r == s[k..k + |r|] && AllWhitespace(s[k + |r|..])
  {
    var t := s[k..];
    var r := TrimEnd(t);
    assert s[k + |r|..] == t[|r|..];
  }

  /** `!s.trim()`: the trimmed string is "", the only falsy string. */
  predicate IsBlank(s: string)
  {
    Trim(s) == ""
  }

  /** A string is blank exactly when every character of it is whitespace. */
  lemma BlankIffAllWhitespace(s: string)
    ensures IsBlank(s) <==> AllWhitespace(s)
  {
  }

  /** An illustration of `BlankIffAllWhitespace` on concrete inputs of the
      guards the pages use. */
  lemma BlankExamples()
    ensures IsBlank(" \n") && !IsBlank(" a")
  {
  }
}
