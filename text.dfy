/** JavaScript's `String.prototype.trim`, which both programs apply to a chunk
    read from standard input before wrapping it in an envelope. */
module Text {

  /** The ECMAScript WhiteSpace and LineTerminator code points: the ones
      `trim` removes. */
  predicate IsWhite(c: char) {
    c == '\t' || c == '\n' || c == '\U{000B}' || c == '\U{000C}' || c == '\r' ||
    c == ' ' || c == '\U{00A0}' || c == '\U{1680}' ||
    ('\U{2000}' <= c <= '\U{200A}') ||
    c == '\U{2028}' || c == '\U{2029}' || c == '\U{202F}' || c == '\U{205F}' ||
    c == '\U{3000}' || c == '\U{FEFF}'
  }

  predicate AllWhite(s: string) {
    forall k :: 0 <= k < |s| ==> IsWhite(s[k])
  }

  /** Neither end of `s` is white space. */
  predicate Trimmed(s: string) {
    s == [] || (!IsWhite(s[0]) && !IsWhite(s[|s| - 1]))
  }

  /** `s` without its leading white space. */
  function TrimStart(s: string): (r: string)
    ensures |r| <= |s| && r == s[|s| - |r|..]
    ensures r == [] || !IsWhite(r[0])
    ensures AllWhite(s[..|s| - |r|])
  {
    if s != [] && IsWhite(s[0]) then TrimStart(s[1..]) else s
  }

  /** `s` without its trailing white space. */
  function TrimEnd(s: string): (r: string)
    ensures |r| <= |s| && r == s[..|r|]
    ensures r == [] || !IsWhite(r[|r| - 1])
    ensures AllWhite(s[|r|..])
  {
    if s != [] && IsWhite(s[|s| - 1]) then TrimEnd(s[..|s| - 1]) else s
  }

  /** `s.trim()`: the longest middle part of `s` with no white space at
      either end; what is cut off on both sides is white space only. */
  function Trim(s: string): (r: string)
    ensures Trimmed(r)
    ensures exists i ::
              0 <= i <= |s| - |r| && r == s[i..i + |r|] &&
              AllWhite(s[..i]) && AllWhite(s[i + |r|..])
  {
    var t := TrimStart(s);
    var r := TrimEnd(t);
    var i := |s| - |t|;
    assert t == s[i..] && AllWhite(s[..i]);
    assert r == t[..|r|] && AllWhite(t[|r|..]);
    assert r != [] ==> r[0] == t[0];
    assert r == s[i..i + |r|];
    assert s[i + |r|..] == t[|r|..];
    r
  }

  /** Trimming text that has no white space at either end leaves it as it is. */
  lemma {:induction false} TrimKeepsTrimmed(s: string)
    requires Trimmed(s)
    ensures Trim(s) == s
  {
    assert TrimStart(s) == s;
    assert TrimEnd(s) == s;
  }

  /** `trim` is idempotent. */
  lemma {:induction false} TrimIdempotent(s: string)
    ensures Trim(Trim(s)) == Trim(s)
  {
    TrimKeepsTrimmed(Trim(s));
  }

  /** Text made of white space only trims to the empty string. */
  lemma {:induction false} TrimAllWhite(s: string)
    requires AllWhite(s)
    ensures Trim(s) == []
  {
    if s != [] {
      assert IsWhite(s[0]);
      assert AllWhite(s[1..]);
      TrimAllWhite(s[1..]);
      assert TrimStart(s) == TrimStart(s[1..]);
    }
  }
}
