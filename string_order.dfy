/** Go's `<` on strings and the key order it induces on a finite set of keys.

    Go compares strings byte by byte on their UTF-8 encoding. UTF-8 preserves
    the order of code points, and a Dafny `char` is a Unicode scalar value, so
    comparing code points one by one gives the same order. */
module StringOrder {

  /** The length of the longest common prefix of a and b: the strings
      differ right after it, unless one of them ends there. */
  function CommonPrefixLength(a: string, b: string): (n: nat)
    ensures n <= |a| && n <= |b|
    ensures n < |a| && n < |b| ==> a[n] != b[n]
    decreases |a|
  {
    if |a| == 0 || |b| == 0 || a[0] != b[0] then 0
    else 1 + CommonPrefixLength(a[1..], b[1..])
  }

  /** The strings agree on their first CommonPrefixLength characters. */
  lemma {:induction false} CommonPrefixShared(a: string, b: string)
    ensures a[..CommonPrefixLength(a, b)] == b[..CommonPrefixLength(a, b)]
    decreases |a|
  {
    if |a| > 0 && |b| > 0 && a[0] == b[0] {
      var n := CommonPrefixLength(a[1..], b[1..]);
      CommonPrefixShared(a[1..], b[1..]);
      assert a[..n + 1] == [a[0]] + a[1..][..n];
      assert b[..n + 1] == [b[0]] + b[1..][..n];
    }
  }

  /** Strict lexicographic order: a proper prefix comes first, otherwise the
      first differing character decides. */
  predicate Less(a: string, b: string)
    ensures var n := CommonPrefixLength(a, b);
      Less(a, b) <==> (n == |a| && n < |b|) || (n < |a| && n < |b| && a[n] < b[n])
    decreases |a|
  {
    if |a| == 0 then |b| > 0
    else if |b| == 0 then false
    else if a[0] != b[0] then a[0] < b[0]
    else Less(a[1..], b[1..])
  }

  lemma {:induction false} LessIrreflexive(a: string)
    ensures !Less(a, a)
    decreases |a|
  {
    if |a| > 0 {
      LessIrreflexive(a[1..]);
    }
  }

  lemma {:induction false} LessAsymmetric(a: string, b: string)
    requires Less(a, b)
    ensures !Less(b, a)
    decreases |a|
  {
    if |a| > 0 && |b| > 0 && a[0] == b[0] {
      LessAsymmetric(a[1..], b[1..]);
    }
  }

  lemma {:induction false} LessTransitive(a: string, b: string, c: string)
    requires Less(a, b) && Less(b, c)
    ensures Less(a, c)
    decreases |a|
  {
    if |a| > 0 && a[0] == b[0] && b[0] == c[0] {
      LessTransitive(a[1..], b[1..], c[1..]);
    }
  }

  /** Any two different strings are ordered one way or the other. */
  lemma {:induction false} LessTotal(a: string, b: string)
    requires a != b
    ensures Less(a, b) || Less(b, a)
    decreases |a|
  {
    if |a| > 0 && |b| > 0 && a[0] == b[0] {
      assert a == [a[0]] + a[1..] && b == [b[0]] + b[1..];
      LessTotal(a[1..], b[1..]);
    }
  }

  predicate StrictlyIncreasing(s: seq<string>)
  {
    forall i, j :: 0 <= i < j < |s| ==> Less(s[i], s[j])
  }

  /** m is the least element of s. */
  ghost predicate IsLeast(m: string, s: set<string>)
  {
    m in s && forall x :: x in s ==> !Less(x, m)
  }

  lemma {:induction false} LeastExists(s: set<string>)
    requires s != {}
    ensures exists m :: IsLeast(m, s)
    decreases s
  {
    var y :| y in s;
    if s == {y} {
      LessIrreflexive(y);
      assert IsLeast(y, s);
    } else {
      LeastExists(s - {y});
      var m :| IsLeast(m, s - {y});
      if Less(y, m) {
        forall x | x in s
          ensures !Less(x, y)
        {
          if x == y {
            LessIrreflexive(y);
          } else if Less(x, y) {
            LessTransitive(x, y, m);
          }
        }
        assert IsLeast(y, s);
      } else {
        assert IsLeast(m, s);
      }
    }
  }

  lemma LeastUnique(m1: string, m2: string, s: set<string>)
    requires IsLeast(m1, s) && IsLeast(m2, s)
    ensures m1 == m2
  {
    if m1 != m2 {
      LessTotal(m1, m2);
    }
  }

  ghost function Least(s: set<string>): (m: string)
    requires s != {}
    ensures IsLeast(m, s)
  {
    LeastExists(s);
    var m :| IsLeast(m, s); m
  }

  /** The least element is below every other element of the set. */
  lemma LeastBelowOthers(m: string, s: set<string>)
    requires IsLeast(m, s)
    ensures forall x :: x in s && x != m ==> Less(m, x)
  {
    forall x | x in s && x != m
      ensures Less(m, x)
    {
      LessTotal(m, x);
    }
  }

  /** The keys of s in increasing order: the order in which a table keyed by
      s is printed. */
  ghost function SortedKeys(s: set<string>): (r: seq<string>)
    ensures |r| == |s|
    ensures forall x :: x in r <==> x in s
    ensures StrictlyIncreasing(r)
    decreases s
  {
    if s == {} then []
    else
      var m := Least(s);
      LeastBelowOthers(m, s);
      [m] + SortedKeys(s - {m})
  }

  /** The first element of a strictly increasing sequence is its least. */
  lemma FirstIsLeast(xs: seq<string>, s: set<string>)
    requires StrictlyIncreasing(xs) && xs != []
    requires forall x :: x in xs <==> x in s
    ensures IsLeast(xs[0], s)
  {
    forall x | x in s
      ensures !Less(x, xs[0])
    {
      var j :| 0 <= j < |xs| && xs[j] == x;
      if j == 0 {
        LessIrreflexive(x);
      } else {
        LessAsymmetric(xs[0], x);
      }
    }
  }

  /** Dropping the first element of a strictly increasing sequence drops
      exactly that element from its set. */
  lemma RestElements(xs: seq<string>, s: set<string>)
    requires StrictlyIncreasing(xs) && xs != []
    requires forall x :: x in xs <==> x in s
    ensures forall x :: x in xs[1..] <==> x in s - {xs[0]}
  {
    forall x | x in xs[1..]
      ensures x != xs[0]
    {
      var j :| 0 <= j < |xs[1..]| && xs[1..][j] == x;
      assert Less(xs[0], xs[j + 1]);
      LessIrreflexive(x);
    }
    forall x | x in s - {xs[0]}
      ensures x in xs[1..]
    {
      var j :| 0 <= j < |xs| && xs[j] == x;
      assert xs[1..][j - 1] == x;
    }
  }

  /** A strictly increasing sequence is determined by its elements: however
      the keys were gathered, sorting them gives SortedKeys. */
  lemma {:induction false} SortedKeysUnique(xs: seq<string>, s: set<string>)
    requires StrictlyIncreasing(xs)
    requires forall x :: x in xs <==> x in s
    ensures xs == SortedKeys(s)
    decreases |xs|
  {
    if xs == [] {
      assert s == {};
    } else {
      var m := xs[0];
      assert m in s;
      FirstIsLeast(xs, s);
      LeastUnique(m, Least(s), s);
      RestElements(xs, s);
      SortedKeysUnique(xs[1..], s - {m});
      assert SortedKeys(s) == [m] + SortedKeys(s - {m});
      assert xs == [m] + xs[1..];
    }
  }
}
