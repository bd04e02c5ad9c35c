/** The two string primitives the app leans on: `String.prototype.trim`
    and the ordering used to compare date strings. */
module Text {

  /** The code points `trim` strips: ECMAScript's WhiteSpace and
      LineTerminator characters. */
  predicate IsSpace(ch: char) {
    var n := ch as int;
    n == 0x09 || n == 0x0A || n == 0x0B || n == 0x0C || n == 0x0D || n == 0x20
    || n == 0xA0 || n == 0x1680 || (0x2000 <= n <= 0x200A) || n == 0x2028
    || n == 0x2029 || n == 0x202F || n == 0x205F || n == 0x3000 || n == 0xFEFF
  }

  predicate AllSpace(s: string) {
    forall i :: 0 <= i < |s| ==> IsSpace(s[i])
  }

  /** Drops leading white space; what is left is a suffix of `s`. */
  function TrimStart(s: string): (r: string)
    ensures |r| <= |s| && r == s[|s| - |r|..]
    ensures AllSpace(s[..|s| - |r|])
    ensures r != [] ==> !IsSpace(r[0])
  {
    if s != [] && IsSpace(s[0]) then TrimStart(s[1..]) else s
  }

  /** Drops trailing white space; what is left is a prefix of `s`. */
  function TrimEnd(s: string): (r: string)
    ensures |r| <= |s| && r == s[..|r|]
    ensures AllSpace(s[|r|..])
    ensures r != [] ==> !IsSpace(r[|r| - 1])
  {
    if s != [] && IsSpace(s[|s| - 1]) then TrimEnd(s[..|s| - 1]) else s
  }

  /** `s.trim()`: `s` without its leading and trailing white space. It is
      empty exactly when `s` is all white space. */
  function Trim(s: string): (r: string)
    ensures r == [] <==> AllSpace(s)
    ensures r != [] ==> !IsSpace(r[0]) && !IsSpace(r[|r| - 1])
  {
    var e := TrimEnd(s);
    TrimEmpty(s, e);
    TrimStart(e)
  }

  lemma TrimEmpty(s: string, e: string)
    requires e == TrimEnd(s)
    ensures TrimStart(e) == [] <==> AllSpace(s)
  {
    var r := TrimStart(e);
    if r == [] {
      // a non-empty `e` ends in a non-space, which TrimStart would keep
      assert e == [];
      assert s[|e|..] == s;
    }
  }

  /** Code-point lexicographic order on strings: `a` sorts no later than `b`. */
  predicate LexLeq(a: string, b: string) {
    if a == [] then true
    else if b == [] then false
    else if a[0] != b[0] then a[0] < b[0]
    else LexLeq(a[1..], b[1..])
  }

  lemma {:induction false} LexTotal(a: string, b: string)
    ensures LexLeq(a, b) || LexLeq(b, a)
  {
    if a != [] && b != [] && a[0] == b[0] {
      LexTotal(a[1..], b[1..]);
    }
  }

  lemma {:induction false} LexTransitive(a: string, b: string, c: string)
    requires LexLeq(a, b) && LexLeq(b, c)
    ensures LexLeq(a, c)
  {
    if a != [] && b != [] && c != [] && a[0] == b[0] && b[0] == c[0] {
      LexTransitive(a[1..], b[1..], c[1..]);
    }
  }
}

/** How `trim` relates its result to its input, kept apart from the
    definitions so that callers of `Trim` do not carry it. */
module TrimFacts {
  import opened Text

  /** What `trim` keeps is a slice of `s`, with only white space before
      and after it. */
  lemma TrimIsSlice(s: string)
    ensures exists k :: SpaceBounded(s, Trim(s), k)
  {
    var e := TrimEnd(s);
    var r := TrimStart(e);
    assert r == Trim(s);
    TrimSlice(s, e, r);
    assert SpaceBounded(s, r, |e| - |r|);
  }

  /** `r` is the slice of `s` starting at `k`, with only white space
      before and after it. */
  predicate SpaceBounded(s: string, r: string, k: int) {
    0 <= k <= |s| - |r| && r == s[k..k + |r|] && AllSpace(s[..k]) && AllSpace(s[k + |r|..])
  }

  lemma TrimSlice(s: string, e: string, r: string)
    requires e == TrimEnd(s) && r == TrimStart(e)
    ensures SpaceBounded(s, r, |e| - |r|)
  {
    var k := |e| - |r|;
    assert s[..k] == e[..k];
    assert s[k + |r|..] == s[|e|..];
  }
}
