/**
 * The few operations of Go's `strings` package that the upgrade engine uses,
 * over Dafny strings.  Go compares strings byte by byte in UTF-8; since UTF-8
 * preserves the order of code points, comparing character by character is the
 * same order.
 */
module Text {

  /** A byte of a request body or of a downloaded file. */
  newtype byte = x: int | 0 <= x < 256

  /** `strings.HasPrefix(s, p)` */
  predicate HasPrefix(s: string, p: string)
  {
    |p| <= |s| && s[..|p|] == p
  }

  /** `strings.TrimPrefix(s, p)`: removes ONE leading occurrence of `p`, if any. */
  function TrimPrefix(s: string, p: string): (r: string)
    ensures HasPrefix(s, p) ==> p + r == s
    ensures !HasPrefix(s, p) ==> r == s
  {
    if HasPrefix(s, p) then s[|p|..] else s
  }

  /** `strings.ReplaceAll(s, string(from), string(to))` for one-character strings. */
  function ReplaceChar(s: string, from: char, to: char): (r: string)
    ensures |r| == |s|
    ensures forall i :: 0 <= i < |s| ==> r[i] == (if s[i] == from then to else s[i])
  {
    if s == [] then [] else [if s[0] == from then to else s[0]] + ReplaceChar(s[1..], from, to)
  }

  /**
   * Reference definition of the lexicographic order: `a` is a proper prefix of
   * `b`, or the first position where they differ holds a smaller character in `a`.
   */
  ghost predicate LexLess(a: string, b: string)
  {
    exists k :: FirstDifference(a, b, k)
  }

  /** `a` and `b` agree before position `k`, and `k` is where `a` ends first or holds the smaller character. */
  predicate FirstDifference(a: string, b: string, k: int)
  {
    0 <= k <= |a| && k <= |b| && a[..k] == b[..k] &&
      (k == |a| < |b| || (k < |a| && k < |b| && a[k] < b[k]))
  }

  /** `strings.Compare(a, b)`: -1, 0 or +1. */
  function Compare(a: string, b: string): (r: int)
    ensures -1 <= r <= 1
  {
    if a == [] && b == [] then 0
    else if a == [] then -1
    else if b == [] then 1
    else if a[0] < b[0] then -1
    else if b[0] < a[0] then 1
    else Compare(a[1..], b[1..])
  }

  /** A difference after an equal first character is a difference of the tails, one position earlier. */
  lemma FirstDifferenceTail(a: string, b: string, k: int)
    requires a != [] && b != [] && a[0] == b[0]
    requires FirstDifference(a, b, k)
    ensures k > 0 && FirstDifference(a[1..], b[1..], k - 1)
  {
    assert a[1..][..k - 1] == a[1..k];
    assert b[1..][..k - 1] == b[1..k];
  }

  /** A difference of the tails is a difference of the whole strings, one position later. */
  lemma FirstDifferenceCons(a: string, b: string, k: int)
    requires a != [] && b != [] && a[0] == b[0]
    requires FirstDifference(a[1..], b[1..], k)
    ensures FirstDifference(a, b, k + 1)
  {
    assert a[..k + 1] == [a[0]] + a[1..][..k];
    assert b[..k + 1] == [b[0]] + b[1..][..k];
  }

  /** Dropping an equal first character affects neither direction of the order. */
  lemma LexLessTail(a: string, b: string)
    requires a != [] && b != [] && a[0] == b[0]
    ensures LexLess(a, b) <==> LexLess(a[1..], b[1..])
  {
    if LexLess(a, b) {
      var k :| FirstDifference(a, b, k);
      FirstDifferenceTail(a, b, k);
    }
    if LexLess(a[1..], b[1..]) {
      var k :| FirstDifference(a[1..], b[1..], k);
      FirstDifferenceCons(a, b, k);
    }
  }

  /** A leading difference decides the order, in exactly one direction. */
  lemma LexLessHead(a: string, b: string)
    requires a != [] && b != [] && a[0] < b[0]
    ensures LexLess(a, b) && !LexLess(b, a)
  {
    assert FirstDifference(a, b, 0);
    forall k | 0 < k <= |b| && k <= |a|
      ensures b[..k] != a[..k]
    {
      assert b[..k][0] == b[0] && a[..k][0] == a[0];
    }
  }

  /** `strings.Compare` decides the lexicographic order: 0 for equal, >0 for greater. */
  lemma {:induction false} CompareIsLexicographic(a: string, b: string)
    ensures Compare(a, b) == 0 <==> a == b
    ensures Compare(a, b) < 0 <==> LexLess(a, b)
    ensures Compare(a, b) > 0 <==> LexLess(b, a)
  {
    if a == [] && b == [] {
    } else if a == [] {
      assert FirstDifference(a, b, 0);
    } else if b == [] {
      assert FirstDifference(b, a, 0);
    } else if a[0] < b[0] {
      LexLessHead(a, b);
    } else if b[0] < a[0] {
      LexLessHead(b, a);
    } else {
      CompareIsLexicographic(a[1..], b[1..]);
      LexLessTail(a, b);
      LexLessTail(b, a);
      if a[1..] == b[1..] {
        assert a == [a[0]] + a[1..] && b == [b[0]] + b[1..];
      }
    }
  }

  /** The lexicographic order is irreflexive, asymmetric and total. */
  lemma LexLessTrichotomy(a: string, b: string)
    ensures !(LexLess(a, b) && LexLess(b, a))
    ensures a == b ==> !LexLess(a, b)
    ensures a != b ==> LexLess(a, b) || LexLess(b, a)
  {
    CompareIsLexicographic(a, b);
  }

  /** The lexicographic order is transitive; with `LexLessTrichotomy`, a strict total order. */
  lemma LexLessTransitive(a: string, b: string, c: string)
    requires LexLess(a, b) && LexLess(b, c)
    ensures LexLess(a, c)
  {
    var k1 :| FirstDifference(a, b, k1);
    var k2 :| FirstDifference(b, c, k2);
    if k1 < k2 {
      assert b[..k1] == b[..k2][..k1] && c[..k1] == c[..k2][..k1];
      assert k1 < |b| ==> b[k1] == b[..k2][k1] == c[..k2][k1] == c[k1];
      assert FirstDifference(a, c, k1);
    } else if k2 < k1 {
      assert a[..k2] == a[..k1][..k2] && b[..k2] == b[..k1][..k2];
      assert a[k2] == a[..k1][k2] == b[..k1][k2] == b[k2];
      assert FirstDifference(a, c, k2);
    } else {
      assert FirstDifference(a, c, k1);
    }
  }
}
