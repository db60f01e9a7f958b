/**
 * `String.prototype.trim` as the form's name validation uses it: it strips the
 * ECMAScript white space and line terminator characters from both ends.
 */
module JsText {

  /** The ECMAScript WhiteSpace and LineTerminator code points. */
  predicate IsWhitespace(c: char) {
    || c == '\t' || c == '\n' || c == '\U{000B}' || c == '\U{000C}' || c == '\r'
    || c == ' ' || c == '\U{00A0}' || c == '\U{1680}'
    || ('\U{2000}' <= c <= '\U{200A}')
    || c == '\U{2028}' || c == '\U{2029}' || c == '\U{202F}' || c == '\U{205F}'
    || c == '\U{3000}' || c == '\U{FEFF}'
  }

  predicate AllWhitespace(s: string) {
    forall i :: 0 <= i < |s| ==> IsWhitespace(s[i])
  }

  /** Drops the leading white space: what is left is a suffix that starts with a non-space. */
  function TrimStart(s: string): (r: string)
    ensures |r| <= |s| && r == s[|s| - |r|..]
    ensures forall i :: 0 <= i < |s| - |r| ==> IsWhitespace(s[i])
    ensures r != [] ==> !IsWhitespace(r[0])
  {
    if |s| > 0 && IsWhitespace(s[0]) then TrimStart(s[1..]) else s
  }

  /** Drops the trailing white space: what is left is a prefix that ends with a non-space. */
  function TrimEnd(s: string): (r: string)
    ensures |r| <= |s| && r == s[..|r|]
    ensures forall i :: |r| <= i < |s| ==> IsWhitespace(s[i])
    ensures r != [] ==> !IsWhitespace(r[|r| - 1])
  {
    if |s| > 0 && IsWhitespace(s[|s| - 1]) then TrimEnd(s[..|s| - 1]) else s
  }

  /**
   * `s.trim()`: the text between the surrounding white space. It is empty
   * exactly when `s` is all white space, and otherwise neither starts nor ends
   * with white space; `TrimIsSlice` places it inside `s`.
   */
  function Trim(s: string): (r: string)
    ensures |r| <= |s|
    ensures r == [] <==> AllWhitespace(s)
    ensures r != [] ==> !IsWhitespace(r[0]) && !IsWhitespace(r[|r| - 1])
  {
    var t := TrimStart(s);
    var r := TrimEnd(t);
    assert r != [] ==> r[0] == t[0];
    r
  }

  /** The characters of `s` from index `n` on are all white space. */
  lemma WhitespaceFrom(s: string, n: nat)
    requires n <= |s|
    requires forall k :: n <= k < |s| ==> IsWhitespace(s[k])
    ensures AllWhitespace(s[n..])
  {
    forall k | 0 <= k < |s| - n
      ensures IsWhitespace(s[n..][k])
    {
      assert s[n..][k] == s[n + k];
    }
  }

  /** The characters of `s` before index `n` are all white space. */
  lemma WhitespaceUpTo(s: string, n: nat)
    requires n <= |s|
    requires forall k :: 0 <= k < n ==> IsWhitespace(s[k])
    ensures AllWhitespace(s[..n])
  {
    forall k | 0 <= k < n
      ensures IsWhitespace(s[..n][k])
    {
      assert s[..n][k] == s[k];
    }
  }

  /** `r` is the slice of `s` at `i`, with only white space before and after it. */
  predicate PaddedSliceAt(s: string, r: string, i: int) {
    && 0 <= i <= |s| - |r| && r == s[i..i + |r|]
    && AllWhitespace(s[..i]) && AllWhitespace(s[i + |r|..])
  }

  /**
   * Dropping white space from the front of `s` (leaving `t`) and then from the
   * back of `t` (leaving `r`) leaves a padded slice of `s`.
   */
  lemma PaddedSliceOfSuffix(s: string, t: string, r: string, i: nat)
    requires i <= |s| && t == s[i..] && AllWhitespace(s[..i])
    requires |r| <= |t| && r == t[..|r|]
    requires forall k :: |r| <= k < |t| ==> IsWhitespace(t[k])
    ensures PaddedSliceAt(s, r, i)
  {
    assert s[i + |r|..] == t[|r|..];
    WhitespaceFrom(t, |r|);
  }

  /**
   * The trimmed text is a slice of `s` with nothing but white space before and
   * after it. With the contract of `Trim` (its ends are not white space) this
   * determines it.
   */
  lemma TrimIsSlice(s: string)
    ensures exists i :: PaddedSliceAt(s, Trim(s), i)
  {
    var t := TrimStart(s);
    var i := |s| - |t|;
    WhitespaceUpTo(s, i);
    PaddedSliceOfSuffix(s, t, TrimEnd(t), i);
    assert Trim(s) == TrimEnd(t);
  }

  /** Every character of `s` before index `n` is white space. */
  lemma WhitespaceBefore(s: string, n: nat)
    requires n <= |s| && AllWhitespace(s[..n])
    ensures forall k :: 0 <= k < n ==> IsWhitespace(s[k])
  {
    forall k | 0 <= k < n
      ensures IsWhitespace(s[k])
    {
      assert s[..n][k] == s[k];
    }
  }

  /** Every character of `s` from index `n` on is white space. */
  lemma WhitespaceAfter(s: string, n: nat)
    requires n <= |s| && AllWhitespace(s[n..])
    ensures forall k :: n <= k < |s| ==> IsWhitespace(s[k])
  {
    forall k | n <= k < |s|
      ensures IsWhitespace(s[k])
    {
      assert s[n..][k - n] == s[k];
    }
  }

  /** A text that is empty or neither starts nor ends with white space. */
  predicate Unpadded(r: string) {
    r == [] || (!IsWhitespace(r[0]) && !IsWhitespace(r[|r| - 1]))
  }

  /** `s` has at most one unpadded slice with only white space around it. */
  lemma PaddedSliceUnique(s: string, r1: string, i1: nat, r2: string, i2: nat)
    requires PaddedSliceAt(s, r1, i1) && Unpadded(r1)
    requires PaddedSliceAt(s, r2, i2) && Unpadded(r2)
    ensures r1 == r2
  {
    WhitespaceBefore(s, i1);
    WhitespaceBefore(s, i2);
    WhitespaceAfter(s, i1 + |r1|);
    WhitespaceAfter(s, i2 + |r2|);
    if r1 != [] {
      assert s[i1] == r1[0] && s[i1 + |r1| - 1] == r1[|r1| - 1];
    }
    if r2 != [] {
      assert s[i2] == r2[0] && s[i2 + |r2| - 1] == r2[|r2| - 1];
    }
  }

  /**
   * The facts about the trimmed text determine it: an unpadded slice of `s`
   * with only white space around it is `Trim(s)`.
   */
  lemma TrimDetermined(s: string, r: string, i: nat)
    requires PaddedSliceAt(s, r, i) && Unpadded(r)
    ensures r == Trim(s)
  {
    TrimIsSlice(s);
    var j :| PaddedSliceAt(s, Trim(s), j);
    PaddedSliceUnique(s, r, i, Trim(s), j);
  }

  /** A text that neither starts nor ends with white space is its own trimmed form. */
  lemma TrimOfUnpadded(s: string)
    requires s != [] && !IsWhitespace(s[0]) && !IsWhitespace(s[|s| - 1])
    ensures Trim(s) == s
  {
    assert TrimStart(s) == s;
  }

  /** Trimming twice is trimming once. */
  lemma TrimIdempotent(s: string)
    ensures Trim(Trim(s)) == Trim(s)
  {
    var r := Trim(s);
    if r != [] {
      assert TrimStart(r) == r;
      assert TrimEnd(r) == r;
    }
  }

  /** Leading white space before `s` is all dropped. */
  lemma {:induction false} TrimStartSkipsPrefix(pre: string, s: string)
    requires AllWhitespace(pre)
    ensures TrimStart(pre + s) == TrimStart(s)
    decreases |pre|
  {
    if pre == [] {
      assert pre + s == s;
    } else {
      assert (pre + s)[0] == pre[0];
      assert (pre + s)[1..] == pre[1..] + s;
      TrimStartSkipsPrefix(pre[1..], s);
    }
  }

  /** Trailing white space after `s` is all dropped. */
  lemma {:induction false} TrimEndSkipsSuffix(s: string, post: string)
    requires AllWhitespace(post)
    ensures TrimEnd(s + post) == TrimEnd(s)
    decreases |post|
  {
    if post == [] {
      assert s + post == s;
    } else {
      var n := |post| - 1;
      assert (s + post)[|s + post| - 1] == post[n];
      assert (s + post)[..|s + post| - 1] == s + post[..n];
      TrimEndSkipsSuffix(s, post[..n]);
    }
  }

  /** Trimming the start of `s` stops inside `s` when `s` holds a non-space. */
  lemma {:induction false} TrimStartStopsEarly(s: string, post: string)
    requires !AllWhitespace(s)
    ensures TrimStart(s + post) == TrimStart(s) + post
    decreases |s|
  {
    assert (s + post)[0] == s[0];
    if IsWhitespace(s[0]) {
      assert (s + post)[1..] == s[1..] + post;
      assert !AllWhitespace(s[1..]) by {
        var i :| 0 <= i < |s| && !IsWhitespace(s[i]);
        assert s[1..][i - 1] == s[i];
      }
      TrimStartStopsEarly(s[1..], post);
    }
  }

  /** White space around a text never changes its trimmed form. */
  lemma TrimIgnoresPadding(pre: string, s: string, post: string)
    requires AllWhitespace(pre) && AllWhitespace(post)
    ensures Trim(pre + s + post) == Trim(s)
  {
    assert pre + s + post == pre + (s + post);
    TrimStartSkipsPrefix(pre, s + post);
    if AllWhitespace(s) {
      assert AllWhitespace(pre + s + post) by {
        forall i | 0 <= i < |pre + s + post|
          ensures IsWhitespace((pre + s + post)[i])
        {
          if i < |pre| {
            assert (pre + s + post)[i] == pre[i];
          } else if i < |pre| + |s| {
            assert (pre + s + post)[i] == s[i - |pre|];
          } else {
            assert (pre + s + post)[i] == post[i - |pre| - |s|];
          }
        }
      }
    } else {
      TrimStartStopsEarly(s, post);
      TrimEndSkipsSuffix(TrimStart(s), post);
    }
  }
}
