/** The parts of Python's text handling that the gateway relies on. */
module Text {

  /** The characters `str.strip` removes and `str.split` splits at. */
  predicate Whitespace(c: char) {
    '\t' <= c <= '\r' || '\U{1c}' <= c <= ' ' || c == '\U{85}' || c == '\U{a0}' || c == '\U{1680}' ||
    '\U{2000}' <= c <= '\U{200a}' || c == '\U{2028}' || c == '\U{2029}' || c == '\U{202f}' || c == '\U{205f}' ||
    c == '\U{3000}'
  }

  /** The characters `str.splitlines` ends a line at. */
  predicate LineBreak(c: char) {
    '\n' <= c <= '\r' || '\U{1c}' <= c <= '\U{1e}' || c == '\U{85}' || c == '\U{2028}' || c == '\U{2029}'
  }

  function StripLeft(s: string): (r: string)
    ensures r != [] ==> !Whitespace(r[0])
    ensures |r| <= |s| && r == s[|s| - |r|..]
  {
    if s != [] && Whitespace(s[0]) then StripLeft(s[1..]) else s
  }

  function StripRight(s: string): (r: string)
    ensures r != [] ==> !Whitespace(r[|r| - 1])
    ensures |r| <= |s| && r == s[..|r|]
  {
    if s != [] && Whitespace(s[|s| - 1]) then StripRight(s[..|s| - 1]) else s
  }

  function Strip(s: string): (r: string)
    ensures r != [] ==> !Whitespace(r[0]) && !Whitespace(r[|r| - 1])
  {
    StripRight(StripLeft(s))
  }

  predicate Stripped(s: string) {
    s == [] || (!Whitespace(s[0]) && !Whitespace(s[|s| - 1]))
  }

  predicate OnlyWhitespace(s: string) {
    forall i :: 0 <= i < |s| ==> Whitespace(s[i])
  }

  lemma {:induction false} StripLeftTakes(s: string)
    ensures OnlyWhitespace(s[..|s| - |StripLeft(s)|])
  {
    if s != [] && Whitespace(s[0]) {
      StripLeftTakes(s[1..]);
      var n := |s| - |StripLeft(s)|;
      assert s[1..][..n - 1] == s[..n][1..];
    }
  }

  lemma {:induction false} StripRightTakes(s: string)
    ensures OnlyWhitespace(s[|StripRight(s)|..])
  {
    if s != [] && Whitespace(s[|s| - 1]) {
      var rest := s[..|s| - 1];
      StripRightTakes(rest);
      assert s[|StripRight(s)|..] == rest[|StripRight(rest)|..] + [s[|s| - 1]];
    }
  }

  /** Stripping takes whitespace off both ends, nothing else, and all of it. */
  lemma StripTakesWhitespace(s: string) returns (left: string, right: string)
    ensures s == left + Strip(s) + right && OnlyWhitespace(left) && OnlyWhitespace(right) && Stripped(Strip(s))
  {
    hide StripLeft, StripRight, OnlyWhitespace, Whitespace;
    var rest := StripLeft(s);
    StripLeftTakes(s);
    StripRightTakes(rest);
    left, right := s[..|s| - |rest|], rest[|StripRight(rest)|..];
    assert s == left + rest;
    assert rest == Strip(s) + right;
    assert left + Strip(s) + right == left + (Strip(s) + right);
  }

  lemma StripStripped(s: string)
    requires Stripped(s)
    ensures Strip(s) == s
  {
  }
}
