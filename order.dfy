/** Python's ordering of `str` values (lexicographic by code point) and the
    sorted, duplicate-free lists that `sorted(set_of_strings)` returns. */
module Order {

  /** `a < b` on Python strings. */
  predicate Less(a: string, b: string)
    decreases |a|
  {
    |b| > 0 && (|a| == 0 || a[0] < b[0] || (a[0] == b[0] && Less(a[1..], b[1..])))
  }

  lemma {:induction false} LessIrreflexive(a: string)
    ensures !Less(a, a)
    decreases |a|
  {
    if |a| > 0 { LessIrreflexive(a[1..]); }
  }

  lemma {:induction false} LessTransitive(a: string, b: string, c: string)
    requires Less(a, b) && Less(b, c)
    ensures Less(a, c)
    decreases |a|
  {
    if |a| > 0 && a[0] == b[0] && b[0] == c[0] {
      LessTransitive(a[1..], b[1..], c[1..]);
    }
  }

  /** Any two different strings are ordered one way or the other. */
  lemma {:induction false} LessTotal(a: string, b: string)
    requires a != b
    ensures Less(a, b) || Less(b, a)
    decreases |a|
  {
    if |a| > 0 && |b| > 0 && a[0] == b[0] {
      assert a == [a[0]] + a[1..] && b == [b[0]] + b[1..];
      LessTotal(a[1..], b[1..]);
    }
  }

  lemma LessAsymmetric(a: string, b: string)
    requires Less(a, b)
    ensures !Less(b, a)
  {
    if Less(b, a) {
      LessTransitive(a, b, a);
      LessIrreflexive(a);
    }
  }

  predicate StrictlySorted(s: seq<string>)
  {
    forall i, j :: 0 <= i < j < |s| ==> Less(s[i], s[j])
  }

  function Elems<T>(s: seq<T>): set<T>
  {
    set x | x in s
  }

  /** Inserting `x` into a strictly increasing list keeps it strictly
      increasing and adds exactly `x` to its elements; one step of building
      `sorted({...})`. */
  function InsertSorted(s: seq<string>, x: string): (r: seq<string>)
    requires StrictlySorted(s)
    ensures StrictlySorted(r)
    ensures Elems(r) == Elems(s) + {x}
    ensures |r| == if x in s then |s| else |s| + 1
  {
    if s == [] then [x]
    else if s[0] == x then s
    else if Less(x, s[0]) then
      PrependBelow(s, x);
      [x] + s
    else
      LessTotal(x, s[0]);
      var rest := InsertSorted(s[1..], x);
      PrependHead(s, x, rest);
      [s[0]] + rest
  }

  /** An element below the head goes in front. */
  lemma PrependBelow(s: seq<string>, x: string)
    requires StrictlySorted(s) && s != [] && Less(x, s[0])
    ensures StrictlySorted([x] + s) && x !in s
  {
    forall j | 0 <= j < |s| ensures Less(x, s[j]) {
      if j > 0 { LessTransitive(x, s[0], s[j]); }
    }
    if x in s { LessIrreflexive(x); }
  }

  /** An element above the head goes into the tail, after the head. */
  lemma PrependHead(s: seq<string>, x: string, rest: seq<string>)
    requires StrictlySorted(s) && s != [] && Less(s[0], x)
    requires StrictlySorted(rest) && Elems(rest) == Elems(s[1..]) + {x}
    requires |rest| == if x in s[1..] then |s| - 1 else |s|
    ensures StrictlySorted([s[0]] + rest)
    ensures Elems([s[0]] + rest) == Elems(s) + {x}
    ensures |[s[0]] + rest| == if x in s then |s| else |s| + 1
  {
    forall y | y in rest ensures Less(s[0], y) {
      assert y in Elems(rest);
      if y != x {
        var k :| 0 <= k < |s| - 1 && s[1..][k] == y;
        assert s[k + 1] == y;
      }
    }
    assert Elems(s) == {s[0]} + Elems(s[1..]) by { assert s == [s[0]] + s[1..]; }
    assert Elems([s[0]] + rest) == {s[0]} + Elems(rest);
    assert x in s <==> x in s[1..] by { if x == s[0] { LessIrreflexive(x); } }
  }

  /** The distinct elements of `xs` in increasing order, which is what
      `sorted(set(xs))` returns. */
  function SortedSet(xs: seq<string>): (r: seq<string>)
    ensures StrictlySorted(r)
    ensures Elems(r) == Elems(xs)
    ensures |r| <= |xs|
  {
    if xs == [] then []
    else
      var r := InsertSorted(SortedSet(xs[..|xs| - 1]), xs[|xs| - 1]);
      assert xs == xs[..|xs| - 1] + [xs[|xs| - 1]];
      r
  }

  /** A strictly increasing list has no repeated element. */
  lemma {:induction false} ElemsOfStrictlySorted(s: seq<string>)
    requires StrictlySorted(s)
    ensures |Elems(s)| == |s|
  {
    if s != [] {
      assert Elems(s) == {s[0]} + Elems(s[1..]) by { assert s == [s[0]] + s[1..]; }
      assert s[0] !in Elems(s[1..]) by {
        if s[0] in Elems(s[1..]) {
          var k :| 0 <= k < |s| - 1 && s[1..][k] == s[0];
          assert Less(s[0], s[k + 1]);
          LessIrreflexive(s[0]);
        }
      }
      ElemsOfStrictlySorted(s[1..]);
    }
  }

  /** A strictly increasing list is fixed by its elements: two such lists with
      the same elements are equal, so `sorted(set(...))` has exactly one
      possible value. */
  lemma {:induction false} StrictlySortedUnique(a: seq<string>, b: seq<string>)
    requires StrictlySorted(a) && StrictlySorted(b)
    requires Elems(a) == Elems(b)
    ensures a == b
    decreases |a|
  {
    ElemsOfStrictlySorted(a);
    ElemsOfStrictlySorted(b);
    if a != [] {
      assert a[0] in Elems(b) && b[0] in Elems(a);
      var k :| 0 <= k < |b| && b[k] == a[0];
      var m :| 0 <= m < |a| && a[m] == b[0];
      if k > 0 && m > 0 {
        assert Less(b[0], a[0]) && Less(a[0], b[0]);
        LessAsymmetric(b[0], a[0]);
      }
      assert a[0] == b[0];
      assert Elems(a[1..]) == Elems(b[1..]) by {
        forall y | y in Elems(a[1..]) ensures y in Elems(b[1..]) {
          var i :| 0 <= i < |a| - 1 && a[1..][i] == y;
          assert y in Elems(b);
          var j :| 0 <= j < |b| && b[j] == y;
          if j == 0 {
            assert Less(a[0], a[i + 1]);
            LessIrreflexive(y);
          }
          assert b[1..][j - 1] == y;
        }
        forall y | y in Elems(b[1..]) ensures y in Elems(a[1..]) {
          var i :| 0 <= i < |b| - 1 && b[1..][i] == y;
          assert y in Elems(a);
          var j :| 0 <= j < |a| && a[j] == y;
          if j == 0 {
            assert Less(b[0], b[i + 1]);
            LessIrreflexive(y);
          }
          assert a[1..][j - 1] == y;
        }
      }
      StrictlySortedUnique(a[1..], b[1..]);
    }
  }
}
