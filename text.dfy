/** Strings as sequences of characters, and JavaScript's `String.prototype.trim`. */
module Text {

  /** The white-space and line-terminator characters that `trim` removes. */
  predicate IsWhitespace(c: char)
  {
    c == ' ' || c == '\t' || c == '\n' || c == '\r' || c == '\U{000B}' || c == '\U{000C}'
    || c == '\U{00A0}' || c == '\U{1680}' || ('\U{2000}' <= c <= '\U{200A}')
    || c == '\U{2028}' || c == '\U{2029}' || c == '\U{202F}' || c == '\U{205F}'
    || c == '\U{3000}' || c == '\U{FEFF}'
  }

  predicate AllWhitespace(s: string)
  {
    forall k :: 0 <= k < |s| ==> IsWhitespace(s[k])
  }

  /** Drops leading white space. */
  function TrimStart(s: string): string
  {
    if |s| > 0 && IsWhitespace(s[0]) then TrimStart(s[1..]) else s
  }

  /** Drops trailing white space. */
  function TrimEnd(s: string): string
  {
    if |s| > 0 && IsWhitespace(s[|s| - 1]) then TrimEnd(s[..|s| - 1]) else s
  }

  /** JavaScript's `s.trim()`. */
  function Trim(s: string): string
  {
    TrimEnd(TrimStart(s))
  }

  /** `TrimStart` gives a suffix of `s` that does not start with white space. */
  lemma {:induction false} TrimStartIsSuffix(s: string)
    ensures var r := TrimStart(s);
      |r| <= |s| && r == s[|s| - |r|..] && (r == [] || !IsWhitespace(r[0]))
  {
    if |s| > 0 && IsWhitespace(s[0]) {
      var t := s[1..];
      TrimStartIsSuffix(t);
      var r := TrimStart(t);
      assert t[|t| - |r|..] == s[|s| - |r|..];
    }
  }

  /** Everything `TrimStart` cuts off is white space, so the suffix is the longest one. */
  lemma {:induction false} TrimStartCutsBlanks(s: string)
    ensures |TrimStart(s)| <= |s| && AllWhitespace(s[..|s| - |TrimStart(s)|])
  {
    TrimStartIsSuffix(s);
    if |s| > 0 && IsWhitespace(s[0]) {
      var t := s[1..];
      TrimStartCutsBlanks(t);
      var n := |t| - |TrimStart(t)|;
      var cut, rest := s[..n + 1], t[..n];
      assert cut == [s[0]] + rest;
      forall k | 0 <= k < |cut|
        ensures IsWhitespace(cut[k])
      {
        if k > 0 {
          assert cut[k] == rest[k - 1];
        }
      }
    }
  }

  /** `TrimEnd` gives a prefix of `s` that does not end with white space. */
  lemma {:induction false} TrimEndIsPrefix(s: string)
    ensures var r := TrimEnd(s);
      |r| <= |s| && r == s[..|r|] && (r == [] || !IsWhitespace(r[|r| - 1]))
  {
    if |s| > 0 && IsWhitespace(s[|s| - 1]) {
      var t := s[..|s| - 1];
      TrimEndIsPrefix(t);
      var r := TrimEnd(t);
      assert t[..|r|] == s[..|r|];
    }
  }

  /** Everything `TrimEnd` cuts off is white space, so the prefix is the longest one. */
  lemma {:induction false} TrimEndCutsBlanks(s: string)
    ensures |TrimEnd(s)| <= |s| && AllWhitespace(s[|TrimEnd(s)|..])
  {
    TrimEndIsPrefix(s);
    if |s| > 0 && IsWhitespace(s[|s| - 1]) {
      var t := s[..|s| - 1];
      TrimEndCutsBlanks(t);
      var n := |TrimEnd(t)|;
      var cut, rest := s[n..], t[n..];
      assert cut == rest + [s[|s| - 1]];
      forall k | 0 <= k < |cut|
        ensures IsWhitespace(cut[k])
      {
        if k < |rest| {
          assert cut[k] == rest[k];
        }
      }
    }
  }

  /** `trim` removes white space only at the two ends: the result is a slice of the input,
      everything cut off is white space, and the result neither starts nor ends with white space. */
  lemma TrimIsSlice(s: string)
    ensures exists i, j :: 0 <= i <= j <= |s| && Trim(s) == s[i..j]
                           && AllWhitespace(s[..i]) && AllWhitespace(s[j..])
    ensures Trim(s) == [] || (!IsWhitespace(Trim(s)[0]) && !IsWhitespace(Trim(s)[|Trim(s)| - 1]))
  {
    var t := TrimStart(s);
    TrimStartIsSuffix(s);
    TrimStartCutsBlanks(s);
    TrimEndIsPrefix(t);
    TrimEndCutsBlanks(t);
    var i := |s| - |t|;
    var r := TrimEnd(t);
    var j := i + |r|;
    assert t == s[i..];
    assert r == t[..|r|];
    assert r == s[i..j];
    assert t[|r|..] == s[j..];
    assert Trim(s) == r;
    if r != [] {
      assert r[0] == t[0];
    }
    assert 0 <= i <= j <= |s| && Trim(s) == s[i..j] && AllWhitespace(s[..i]) && AllWhitespace(s[j..]);
  }

  lemma {:induction false} TrimStartOfBlank(s: string)
    requires AllWhitespace(s)
    ensures TrimStart(s) == []
  {
    if |s| > 0 {
      TrimStartOfBlank(s[1..]);
    }
  }

  lemma {:induction false} TrimStartOfNonBlank(s: string, k: nat)
    requires k < |s| && !IsWhitespace(s[k])
    ensures TrimStart(s) != []
  {
    if IsWhitespace(s[0]) {
      TrimStartOfNonBlank(s[1..], k - 1);
    }
  }

  lemma {:induction false} TrimEndKeepsFirst(s: string)
    requires s != [] && !IsWhitespace(s[0])
    ensures TrimEnd(s) != []
  {
    if IsWhitespace(s[|s| - 1]) {
      TrimEndKeepsFirst(s[..|s| - 1]);
    }
  }

  /** A string is blank after trimming exactly when it consists of white space only. */
  lemma TrimEmptyIffBlank(s: string)
    ensures Trim(s) == [] <==> AllWhitespace(s)
  {
    if AllWhitespace(s) {
      TrimStartOfBlank(s);
    } else {
      var k :| 0 <= k < |s| && !IsWhitespace(s[k]);
      TrimStartOfNonBlank(s, k);
      TrimStartIsSuffix(s);
      TrimEndKeepsFirst(TrimStart(s));
    }
  }
}
