/**
 * `String.prototype.trim` as the two form modals use it: white space and
 * line terminators, as ECMAScript defines them, are removed from both ends.
 */
module Text {

  /** ECMAScript WhiteSpace and LineTerminator code points. */
  predicate IsWhite(c: char)
  {
    var n := c as int;
    n == 0x09 || n == 0x0A || n == 0x0B || n == 0x0C || n == 0x0D || n == 0x20 ||
    n == 0xA0 || n == 0x1680 || (0x2000 <= n <= 0x200A) || n == 0x2028 || n == 0x2029 ||
    n == 0x202F || n == 0x205F || n == 0x3000 || n == 0xFEFF
  }

  predicate AllWhite(s: string)
  {
    forall k :: 0 <= k < |s| ==> IsWhite(s[k])
  }

  /** `s.trimStart()`: the longest suffix of `s` that does not start with white space. */
  function TrimStart(s: string): (r: string)
    ensures |r| <= |s| && r == s[|s| - |r|..]
    ensures r == [] || !IsWhite(r[0])
    ensures AllWhite(s[..|s| - |r|])
  {
    if s == [] || !IsWhite(s[0]) then s
    else
      var r := TrimStart(s[1..]);
      assert s[1..][..|s| - 1 - |r|] == s[1..|s| - |r|];
      r
  }

  /** `s.trimEnd()`: the longest prefix of `s` that does not end with white space. */
  function TrimEnd(s: string): (r: string)
    ensures |r| <= |s| && r == s[..|r|]
    ensures r == [] || !IsWhite(r[|r| - 1])
    ensures AllWhite(s[|r|..])
  {
    if s == [] || !IsWhite(s[|s| - 1]) then s
    else
      var r := TrimEnd(s[..|s| - 1]);
      assert s[..|s| - 1][|r|..] == s[|r|..|s| - 1];
      r
  }

  /** `s.trim()` */
  function Trim(s: string): string
  {
    TrimEnd(TrimStart(s))
  }

  /**
   * The trimmed text is a contiguous part of `s`, only white space was cut
   * from either end, and it neither starts nor ends with white space.
   */
  lemma TrimShape(s: string)
    ensures var r := Trim(s);
      (exists i :: 0 <= i <= |s| - |r| && r == s[i..i + |r|] &&
                   AllWhite(s[..i]) && AllWhite(s[i + |r|..])) &&
      (r == [] || (!IsWhite(r[0]) && !IsWhite(r[|r| - 1])))
  {
    Framed(s, TrimStart(s), Trim(s));
  }

  /**
   * White space `s[..i]` cut from the front leaves `t`, white space cut from
   * the back of `t` leaves `r`: then `r` sits in `s` at `i` between white space.
   */
  lemma Framed(s: string, t: string, r: string)
    requires |t| <= |s| && t == s[|s| - |t|..] && AllWhite(s[..|s| - |t|])
    requires t == [] || !IsWhite(t[0])
    requires |r| <= |t| && r == t[..|r|] && AllWhite(t[|r|..])
    requires r == [] || !IsWhite(r[|r| - 1])
    ensures exists i :: 0 <= i <= |s| - |r| && r == s[i..i + |r|] &&
                        AllWhite(s[..i]) && AllWhite(s[i + |r|..])
    ensures r == [] || (!IsWhite(r[0]) && !IsWhite(r[|r| - 1]))
  {
    var i := |s| - |t|;
    PrefixOfSuffix(s, t, i, r);
    if r != [] {
      assert r[0] == t[0];
    }
  }

  /** A prefix `r` of the suffix `t == s[i..]`, followed in `t` by white space only, sits in `s` at `i`. */
  lemma PrefixOfSuffix(s: string, t: string, i: nat, r: string)
    requires i <= |s| && t == s[i..] && |r| <= |t| && r == t[..|r|] && AllWhite(t[|r|..])
    ensures r == s[i..i + |r|] && AllWhite(s[i + |r|..])
  {
    assert s[i + |r|..] == t[|r|..];
  }

  /** A text that neither starts nor ends with white space is its own trim. */
  lemma TrimKeepsTrimmed(s: string)
    requires s == [] || (!IsWhite(s[0]) && !IsWhite(s[|s| - 1]))
    ensures Trim(s) == s
  {
    assert TrimStart(s) == s;
  }

  /** Trimming twice is trimming once. */
  lemma TrimIdempotent(s: string)
    ensures Trim(Trim(s)) == Trim(s)
  {
    TrimShape(s);
    TrimKeepsTrimmed(Trim(s));
  }

  /** The trim is empty exactly when the text is all white space, so `s.trim() || d` picks `d`. */
  lemma TrimEmptyIffAllWhite(s: string)
    ensures Trim(s) == [] <==> AllWhite(s)
  {
    var t := TrimStart(s);
    if Trim(s) == [] {
      assert t[0..] == t;
      assert t == [];
      assert s[..|s|] == s;
    }
  }

  /** `s.trim() || fallback` */
  function TrimOr(s: string, fallback: string): (r: string)
    requires fallback != []
    ensures r != []
    ensures AllWhite(s) ==> r == fallback
    ensures !AllWhite(s) ==> r == Trim(s)
  {
    TrimEmptyIffAllWhite(s);
    if Trim(s) == [] then fallback else Trim(s)
  }

  /** Normalising a normalised value changes nothing, when the fallback is itself trimmed. */
  lemma TrimOrIdempotent(s: string, fallback: string)
    requires fallback != [] && !IsWhite(fallback[0]) && !IsWhite(fallback[|fallback| - 1])
    ensures TrimOr(TrimOr(s, fallback), fallback) == TrimOr(s, fallback)
  {
    TrimKeepsTrimmed(fallback);
    if AllWhite(s) {
      FallbackKept(fallback);
    } else {
      TrimmedKept(s, fallback);
    }
  }

  lemma FallbackKept(fallback: string)
    requires fallback != [] && Trim(fallback) == fallback
    ensures TrimOr(fallback, fallback) == fallback
  {
    TrimEmptyIffAllWhite(fallback);
  }

  lemma TrimmedKept(s: string, fallback: string)
    requires fallback != [] && !AllWhite(s)
    ensures TrimOr(Trim(s), fallback) == Trim(s)
  {
    TrimEmptyIffAllWhite(s);
    TrimIdempotent(s);
    TrimEmptyIffAllWhite(Trim(s));
  }
}
