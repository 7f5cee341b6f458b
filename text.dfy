/** The part of JavaScript's String.prototype.trim that the editor relies on:
    removing leading and trailing white space and line terminators. */
module Text {

  /** WhiteSpace and LineTerminator code points as ECMAScript defines them
      (tab, vertical tab, form feed, space, no-break space, byte order mark,
      the space separators of Unicode category Zs, LF, CR, LS and PS). */
  predicate IsWhitespace(c: char)
  {
    c == '\t' || c == '\n' || c == '\U{000B}' || c == '\U{000C}' || c == '\r' ||
    c == ' ' || c == '\U{00A0}' || c == '\U{1680}' ||
    ('\U{2000}' <= c <= '\U{200A}') ||
    c == '\U{2028}' || c == '\U{2029}' || c == '\U{202F}' || c == '\U{205F}' ||
    c == '\U{3000}' || c == '\U{FEFF}'
  }

  /** Every character of `s` is white space (true of the empty string). */
  predicate Blank(s: string)
  {
    forall i :: 0 <= i < |s| ==> IsWhitespace(s[i])
  }

  /** `s` without its leading white space: a suffix of `s` that starts with a
      non-white-space character, and what was dropped is all white space. */
  function TrimStart(s: string): (r: string)
    ensures |r| <= |s| && r == s[|s| - |r|..]
    ensures Blank(s[..|s| - |r|])
    ensures r == [] || !IsWhitespace(r[0])
  {
    if |s| > 0 && IsWhitespace(s[0]) then
      var rest := s[1..];
      var r := TrimStart(rest);
      assert r == s[|s| - |r|..] by { assert rest[|rest| - |r|..] == s[|s| - |r|..]; }
      assert Blank(s[..|s| - |r|]) by {
        var dropped := s[..|s| - |r|];
        assert dropped == [s[0]] + rest[..|rest| - |r|];
      }
      r
    else s
  }

  /** `s` without its trailing white space: a prefix of `s` that ends with a
      non-white-space character, and what was dropped is all white space. */
  function TrimEnd(s: string): (r: string)
    ensures |r| <= |s| && r == s[..|r|]
    ensures Blank(s[|r|..])
    ensures r == [] || !IsWhitespace(r[|r| - 1])
  {
    if |s| > 0 && IsWhitespace(s[|s| - 1]) then
      var init := s[..|s| - 1];
      var r := TrimEnd(init);
      assert r == s[..|r|] by { assert init[..|r|] == s[..|r|]; }
      assert Blank(s[|r|..]) by {
        assert s[|r|..] == init[|r|..] + [s[|s| - 1]];
      }
      r
    else s
  }

  /** String.prototype.trim: the leading, then the trailing white space
      removed; never longer than the input. */
  function Trim(s: string): (r: string)
    ensures |r| <= |s|
  {
    TrimEnd(TrimStart(s))
  }

  /** The trimmed string is empty exactly when the input is all white space. */
  lemma {:induction false} TrimEmptyIffBlank(s: string)
    ensures Trim(s) == [] <==> Blank(s)
  {
    var t := TrimStart(s);
    var k := |s| - |t|;
    if Trim(s) == [] {
      assert t[0..] == t;
      assert t == [];
      assert s[..k] == s;
    } else {
      assert !IsWhitespace(t[0]) && t[0] == s[k];
    }
  }

  /** A string that neither starts nor ends with white space is its own trim. */
  lemma {:induction false} TrimUnchanged(s: string)
    requires s == [] || (!IsWhitespace(s[0]) && !IsWhitespace(s[|s| - 1]))
    ensures Trim(s) == s
  {
  }

  /** The trim of a string has no white space at either end. */
  lemma {:induction false} TrimEdges(s: string)
    ensures var r := Trim(s); r == [] || (!IsWhitespace(r[0]) && !IsWhitespace(r[|r| - 1]))
  {
    var t := TrimStart(s);
    var r := TrimEnd(t);
    if r != [] {
      assert r[0] == t[0];
    }
  }

  /** Trimming twice is trimming once. */
  lemma {:induction false} TrimIdempotent(s: string)
    ensures Trim(Trim(s)) == Trim(s)
  {
    TrimEdges(s);
    TrimUnchanged(Trim(s));
  }

  /** The trim is a contiguous part of the input, starting where the leading
      white space ends. */
  lemma {:induction false} TrimIsInfix(s: string)
    ensures var k := |s| - |TrimStart(s)|;
            k + |Trim(s)| <= |s| && Trim(s) == s[k..k + |Trim(s)|]
  {
    var t := TrimStart(s);
    PrefixOfSuffix(s, |s| - |t|, t, TrimEnd(t));
  }

  /** A prefix of the suffix of `s` from `k` is a slice of `s` from `k`. */
  lemma {:induction false} PrefixOfSuffix(s: string, k: nat, t: string, r: string)
    requires k <= |s| && t == s[k..] && |r| <= |t| && r == t[..|r|]
    ensures k + |r| <= |s| && r == s[k..k + |r|]
  {
    assert s[k..][..|r|] == s[k..k + |r|];
  }

  /** What the trim drops on either side is white space only. */
  lemma {:induction false} TrimDropsOnlyWhitespace(s: string)
    ensures var k := |s| - |TrimStart(s)|;
            k + |Trim(s)| <= |s| && Blank(s[..k]) && Blank(s[k + |Trim(s)|..])
  {
    var t := TrimStart(s);
    var r := TrimEnd(t);
    BlankTailOfSuffix(s, |s| - |t|, t, |r|);
  }

  /** A blank tail of the suffix of `s` from `k` is a blank tail of `s`. */
  lemma {:induction false} BlankTailOfSuffix(s: string, k: nat, t: string, j: nat)
    requires k <= |s| && t == s[k..] && j <= |t| && Blank(t[j..])
    ensures k + j <= |s| && Blank(s[k + j..])
  {
    assert s[k + j..] == t[j..];
  }
}
