/** JavaScript's String.prototype.trim, which both forms apply to a field when
    it loses focus. A JavaScript string is a sequence of UTF-16 code units; every
    character trim removes is in the Basic Multilingual Plane, so a sequence of
    Dafny chars trims the same way. */
module JsString {

  /** The characters trim removes: ECMAScript WhiteSpace (tab, vertical tab,
      form feed, space, no-break space, byte order mark and the Unicode space
      separators) and LineTerminator (line feed, carriage return, line and
      paragraph separators). */
  predicate IsWhiteSpace(c: char) {
    c == '\t' || c == '\n' || c == '\U{000B}' || c == '\U{000C}' || c == '\r' ||
    c == ' ' || c == '\U{00A0}' || c == '\U{1680}' ||
    ('\U{2000}' <= c <= '\U{200A}') ||
    c == '\U{2028}' || c == '\U{2029}' || c == '\U{202F}' || c == '\U{205F}' ||
    c == '\U{3000}' || c == '\U{FEFF}'
  }

  /** Every character of s is white space (vacuously so for ""). */
  predicate AllWhiteSpace(s: string) {
    forall i :: 0 <= i < |s| ==> IsWhiteSpace(s[i])
  }

  /** s neither starts nor ends with white space: trimming leaves it as it is. */
  predicate IsTrimmed(s: string) {
    s == [] || (!IsWhiteSpace(s[0]) && !IsWhiteSpace(s[|s| - 1]))
  }

  /** Every character of s at a position in [lo, hi) is white space. */
  predicate WhiteSpaceBetween(s: string, lo: int, hi: int)
    requires 0 <= lo && hi <= |s|
  {
    forall i :: lo <= i < hi ==> IsWhiteSpace(s[i])
  }

  /** Scanning forward from position i, the first position that is not white
      space (|s| when there is none). */
  function SkipLeading(s: string, i: nat): (k: nat)
    requires i <= |s|
    ensures i <= k <= |s|
    ensures WhiteSpaceBetween(s, i, k)
    ensures k == |s| || !IsWhiteSpace(s[k])
    decreases |s| - i
  {
    if i < |s| && IsWhiteSpace(s[i]) then SkipLeading(s, i + 1) else i
  }

  /** Scanning backward from position j, but not below lo, the end of the last
      character that is not white space (lo when there is none). */
  function SkipTrailing(s: string, lo: nat, j: nat): (e: nat)
    requires lo <= j <= |s|
    ensures lo <= e <= j
    ensures WhiteSpaceBetween(s, e, j)
    ensures e == lo || !IsWhiteSpace(s[e - 1])
    decreases j
  {
    if lo < j && IsWhiteSpace(s[j - 1]) then SkipTrailing(s, lo, j - 1) else j
  }

  /** The length of the white space s starts with. */
  function LeadLength(s: string): (k: nat)
    ensures k <= |s|
    ensures WhiteSpaceBetween(s, 0, k)
    ensures k == |s| || !IsWhiteSpace(s[k])
  {
    SkipLeading(s, 0)
  }

  /** `s.trim()`: the result is the part of s between its leading and its
      trailing white space, that is the slice starting after the leading white
      space with only white space after it. It has no white space at either
      end, is empty exactly when s is all white space, and a string that is
      already trimmed is left as it is (so trimming twice is trimming once). */
  function Trim(s: string): (r: string)
    ensures LeadLength(s) + |r| <= |s|
    ensures r == s[LeadLength(s)..LeadLength(s) + |r|]
    ensures WhiteSpaceBetween(s, LeadLength(s) + |r|, |s|)
    ensures IsTrimmed(r)
    ensures r == [] <==> AllWhiteSpace(s)
    ensures IsTrimmed(s) ==> r == s
  {
    var k := LeadLength(s);
    var e := SkipTrailing(s, k, |s|);
    assert k < e ==> s[k..e][0] == s[k] && s[k..e][e - k - 1] == s[e - 1];
    assert e == k ==> AllWhiteSpace(s) by {
      if e == k {
        forall i | 0 <= i < |s| ensures IsWhiteSpace(s[i]) {
          assert WhiteSpaceBetween(s, 0, k) && WhiteSpaceBetween(s, k, |s|);
        }
      }
    }
    s[k..e]
  }

  /** Trimming removes exactly the white space around a trimmed string:
      `(p + s + q).trim() == s` whenever p and q are all white space. */
  lemma TrimPadded(p: string, s: string, q: string)
    requires AllWhiteSpace(p) && AllWhiteSpace(q) && IsTrimmed(s)
    ensures Trim(p + s + q) == s
  {
    var x := p + s + q;
    if s == [] {
      assert x == p + q;
      assert AllWhiteSpace(x);
    } else {
      var k := LeadLength(x);
      var e := SkipTrailing(x, k, |x|);
      assert x[|p|] == s[0] && x[|p| + |s| - 1] == s[|s| - 1];
      assert k == |p|;
      assert e == |p| + |s| by {
        if e < |p| + |s| { assert false; }
        if e > |p| + |s| { assert false; }
      }
      assert x[k..e] == s;
    }
  }
}
