/** The JavaScript string built-ins the model relies on: `startsWith`, `includes`
    and `trim`. Strings are sequences of UTF-16 code units in the source; here they
    are sequences of `char`. */
module Text {

  /** `s.startsWith(p)`: `p` occurs at position 0, and `s` is `p` followed by the rest. */
  predicate StartsWith(s: string, p: string): (b: bool)
    ensures b <==> OccursAt(s, p, 0)
    ensures b ==> s == p + s[|p|..]
  {
    |p| <= |s| && s[..|p|] == p
  }

  /** `s.includes(t)`, defined by scanning for `t` at every position in turn. */
  predicate Includes(s: string, t: string): (b: bool)
    ensures StartsWith(s, t) ==> b
    ensures b ==> |t| <= |s|
    decreases |s|
  {
    StartsWith(s, t) || (|s| > 0 && Includes(s[1..], t))
  }

  /** `t` occurs in `s` at position `i`. */
  predicate OccursAt(s: string, t: string, i: int) {
    0 <= i && i + |t| <= |s| && s[i..i + |t|] == t
  }

  /** The scanning definition of `Includes` agrees with the positional one. */
  lemma {:induction false} IncludesIffOccurs(s: string, t: string)
    ensures Includes(s, t) <==> exists i :: OccursAt(s, t, i)
    decreases |s|
  {
    if StartsWith(s, t) {
      assert OccursAt(s, t, 0);
    } else if |s| > 0 {
      IncludesIffOccurs(s[1..], t);
      if exists i :: OccursAt(s[1..], t, i) {
        var i :| OccursAt(s[1..], t, i);
        assert s[i + 1..i + 1 + |t|] == s[1..][i..i + |t|];
        assert OccursAt(s, t, i + 1);
      }
      forall i | OccursAt(s, t, i) ensures OccursAt(s[1..], t, i - 1) {
        assert s[1..][i - 1..i - 1 + |t|] == s[i..i + |t|];
      }
    }
  }

  /** Appending text never removes an occurrence. */
  lemma {:induction false} IncludesAppend(s: string, t: string, q: string)
    requires Includes(s, t)
    ensures Includes(s + q, t)
    decreases |s|
  {
    if StartsWith(s, t) {
      assert (s + q)[..|t|] == s[..|t|];
    } else {
      IncludesAppend(s[1..], t, q);
      assert (s + q)[1..] == s[1..] + q;
    }
  }

  /** An occurrence of `t + u` contains an occurrence of `t`. */
  lemma {:induction false} IncludesLonger(s: string, t: string, u: string)
    requires Includes(s, t + u)
    ensures Includes(s, t)
    decreases |s|
  {
    if StartsWith(s, t + u) {
      assert s[..|t|] == (t + u)[..|t|] == t;
    } else {
      IncludesLonger(s[1..], t, u);
    }
  }

  /** The characters `String.prototype.trim` removes: the ECMAScript WhiteSpace and
      LineTerminator code points. */
  predicate IsJsWhitespace(c: char) {
    c == '\t' || c == '\n' || c == '\U{B}' || c == '\U{C}' || c == '\r' || c == ' '
    || c == '\U{A0}' || c == '\U{1680}' || ('\U{2000}' <= c <= '\U{200A}')
    || c == '\U{2028}' || c == '\U{2029}' || c == '\U{202F}' || c == '\U{205F}'
    || c == '\U{3000}' || c == '\U{FEFF}'
  }

  predicate AllWhitespace(s: string) {
    forall i :: 0 <= i < |s| ==> IsJsWhitespace(s[i])
  }

  function TrimStart(s: string): (r: string)
    ensures |r| <= |s| && r == s[|s| - |r|..]
    ensures AllWhitespace(s[..|s| - |r|])
    ensures r != [] ==> !IsJsWhitespace(r[0])
  {
    if |s| > 0 && IsJsWhitespace(s[0]) then TrimStart(s[1..]) else s
  }

  function TrimEnd(s: string): (r: string)
    ensures |r| <= |s| && r == s[..|r|]
    ensures AllWhitespace(s[|r|..])
    ensures r != [] ==> !IsJsWhitespace(r[|r| - 1])
  {
    if |s| > 0 && IsJsWhitespace(s[|s| - 1]) then TrimEnd(s[..|s| - 1]) else s
  }

  /** `s.trim()`: the result is a contiguous piece of `s`, only whitespace was cut
      off on either side, and the result neither starts nor ends with whitespace. */
  function Trim(s: string): (r: string)
    ensures exists i, j :: 0 <= i <= j <= |s| && r == s[i..j]
                           && AllWhitespace(s[..i]) && AllWhitespace(s[j..])
    ensures r != [] ==> !IsJsWhitespace(r[0]) && !IsJsWhitespace(r[|r| - 1])
  {
    var a := TrimStart(s);
    var r := TrimEnd(a);
    var i := |s| - |a|;
    var j := i + |r|;
    assert r == s[i..j];
    assert s[j..] == a[|r|..];
    r
  }
}
