/** Counting into a Python `defaultdict(int)`: `counts[k] += 1` for each key in
    turn, read back as the dict's `(key, count)` items in first-seen
    (insertion) order. */
module Counting {

  /** How many times `k` occurs in `ks`. */
  function Count<K(==)>(ks: seq<K>, k: K): nat
  {
    if ks == [] then 0 else Count(ks[..|ks| - 1], k) + (if ks[|ks| - 1] == k then 1 else 0)
  }

  function Keys<K>(t: seq<(K, nat)>): seq<K>
  {
    seq(|t|, i requires 0 <= i < |t| => t[i].0)
  }

  function Sum<K>(t: seq<(K, nat)>): nat
  {
    if t == [] then 0 else t[0].1 + Sum(t[1..])
  }

  predicate Distinct<K(==)>(s: seq<K>)
  {
    forall i, j :: 0 <= i < j < |s| ==> s[i] != s[j]
  }

  /** `counts[k] += 1` on a dict held as its items: bump the entry for `k`,
      or append `(k, 1)` when `k` is new. */
  function Bump<K(==)>(t: seq<(K, nat)>, k: K): (r: seq<(K, nat)>)
    requires Distinct(Keys(t))
    ensures Distinct(Keys(r))
    ensures |r| == if k in Keys(t) then |t| else |t| + 1
    ensures Keys(r) == if k in Keys(t) then Keys(t) else Keys(t) + [k]
    ensures forall i :: 0 <= i < |t| ==> r[i].1 == t[i].1 + (if t[i].0 == k then 1 else 0)
    ensures k !in Keys(t) ==> r[|t|] == (k, 1)
  {
    if k in Keys(t) then
      var r := seq(|t|, i requires 0 <= i < |t| => if t[i].0 == k then (k, t[i].1 + 1) else t[i]);
      assert Keys(r) == Keys(t);
      r
    else
      var r := t + [(k, 1)];
      assert Keys(r) == Keys(t) + [k];
      forall i | 0 <= i < |t| ensures Keys(r)[i] == Keys(t)[i] == t[i].0 != k {
        assert Keys(t)[i] in Keys(t);
      }
      assert Distinct(Keys(r)) by {
        forall i, j | 0 <= i < j < |r| ensures Keys(r)[i] != Keys(r)[j] {
          if j < |t| {
            assert Keys(t)[i] != Keys(t)[j];
          } else {
            assert Keys(r)[j] == k;
          }
        }
      }
      r
  }

  lemma TallySnoc<K>(ks: seq<K>, k: K)
    ensures Tally(ks + [k]) == Bump(Tally(ks), k)
  {
    assert (ks + [k])[..|ks|] == ks;
  }

  /** The items of the dict after counting every key of `ks` in order. */
  function Tally<K(==)>(ks: seq<K>): (t: seq<(K, nat)>)
    ensures Distinct(Keys(t))
  {
    if ks == [] then [] else Bump(Tally(ks[..|ks| - 1]), ks[|ks| - 1])
  }

  /** The keys of `ks` without repeats, in order of first occurrence. */
  function FirstSeen<K(==)>(ks: seq<K>): seq<K>
  {
    if ks == [] then []
    else
      var d := FirstSeen(ks[..|ks| - 1]);
      if ks[|ks| - 1] in d then d else d + [ks[|ks| - 1]]
  }

  lemma {:induction false} FirstSeenElems<K>(ks: seq<K>)
    ensures forall k :: k in FirstSeen(ks) <==> k in ks
    ensures Distinct(FirstSeen(ks))
  {
    if ks != [] {
      var init := ks[..|ks| - 1];
      FirstSeenElems(init);
      assert ks == init + [ks[|ks| - 1]];
    }
  }

  lemma FirstSeenMember<K>(ks: seq<K>, i: nat)
    requires i < |FirstSeen(ks)|
    ensures FirstSeen(ks)[i] in ks
  {
    FirstSeenElems(ks);
  }

  /** The first key counted is the first key listed. */
  lemma {:induction false} FirstSeenHead<K>(ks: seq<K>)
    requires ks != []
    ensures FirstSeen(ks) != [] && FirstSeen(ks)[0] == ks[0]
  {
    var init := ks[..|ks| - 1];
    if init != [] {
      FirstSeenHead(init);
      assert init[0] == ks[0];
    }
  }

  /** First-seen order: a key listed before another occurs in `ks` before
      any occurrence of the other. */
  lemma {:induction false} FirstSeenOrder<K>(ks: seq<K>)
    ensures forall i, j, p :: (0 <= i < j < |FirstSeen(ks)| && 0 <= p < |ks| && ks[p] == FirstSeen(ks)[j])
               ==> FirstSeen(ks)[i] in ks[..p]
  {
    if ks != [] {
      var n := |ks| - 1;
      var init, last := ks[..n], ks[n];
      var d, r := FirstSeen(init), FirstSeen(ks);
      FirstSeenOrder(init);
      FirstSeenElems(init);
      forall i, j, p | 0 <= i < j < |r| && 0 <= p < |ks| && ks[p] == r[j] ensures r[i] in ks[..p] {
        assert r[i] == d[i];
        if p < n {
          assert init[p] == ks[p] && ks[..p] == init[..p];
          assert r[j] in d;
          assert r[j] == d[j];
          assert d[i] in init[..p];
        } else {
          assert ks[..p] == init;
          FirstSeenMember(init, i);
        }
      }
    }
  }

  /** The dict's keys are the distinct keys counted, in first-seen order. */
  lemma {:induction false} TallyKeys<K>(ks: seq<K>)
    ensures Keys(Tally(ks)) == FirstSeen(ks)
  {
    if ks != [] {
      TallyKeys(ks[..|ks| - 1]);
    }
  }

  lemma CountSnoc<K>(init: seq<K>, k: K, x: K)
    ensures Count(init + [k], x) == Count(init, x) + (if k == x then 1 else 0)
  {
    assert (init + [k])[..|init|] == init;
  }

  predicate CountsMatch<K(==)>(t: seq<(K, nat)>, ks: seq<K>)
  {
    forall i :: 0 <= i < |t| ==> t[i].1 == Count(ks, t[i].0)
  }

  lemma BumpCounts<K>(t: seq<(K, nat)>, init: seq<K>, k: K)
    requires Distinct(Keys(t)) && CountsMatch(t, init)
    requires forall x :: x in Keys(t) <==> x in init
    ensures CountsMatch(Bump(t, k), init + [k])
  {
    var r := Bump(t, k);
    forall i | 0 <= i < |t| ensures r[i].1 == Count(init + [k], r[i].0) {
      BumpCountOld(t, init, k, i);
    }
    if k !in Keys(t) {
      assert k !in init;
      BumpCountNew(t, init, k);
    }
  }

  lemma BumpCountNew<K>(t: seq<(K, nat)>, init: seq<K>, k: K)
    requires Distinct(Keys(t)) && k !in Keys(t) && k !in init
    ensures Bump(t, k)[|t|].1 == Count(init + [k], Bump(t, k)[|t|].0)
  {
    CountAbsent(init, k);
    CountSnoc(init, k, k);
  }

  lemma BumpCountOld<K>(t: seq<(K, nat)>, init: seq<K>, k: K, i: nat)
    requires Distinct(Keys(t)) && i < |t| && t[i].1 == Count(init, t[i].0)
    ensures Bump(t, k)[i].1 == Count(init + [k], Bump(t, k)[i].0)
  {
    var r := Bump(t, k);
    var x := t[i].0;
    assert x == Keys(t)[i] == Keys(r)[i] == r[i].0;
    CountSnoc(init, k, x);
  }

  /** Each key maps to the number of times it was counted. */
  lemma {:induction false} TallyCounts<K>(ks: seq<K>)
    ensures CountsMatch(Tally(ks), ks)
  {
    if ks != [] {
      var init, k := ks[..|ks| - 1], ks[|ks| - 1];
      assert ks == init + [k];
      TallyCounts(init);
      TallyKeys(init);
      FirstSeenElems(init);
      BumpCounts(Tally(init), init, k);
    }
  }

  lemma {:induction false} CountAbsent<K>(ks: seq<K>, k: K)
    requires k !in ks
    ensures Count(ks, k) == 0
  {
    if ks != [] {
      assert ks[..|ks| - 1] <= ks;
      CountAbsent(ks[..|ks| - 1], k);
    }
  }

  lemma {:induction false} SumBump<K>(t: seq<(K, nat)>, k: K)
    requires Distinct(Keys(t))
    ensures Sum(Bump(t, k)) == Sum(t) + 1
  {
    if k in Keys(t) {
      var j :| 0 <= j < |t| && Keys(t)[j] == k;
      forall i | 0 <= i < |t| && i != j ensures t[i].0 != k {
        assert Keys(t)[i] != Keys(t)[j];
      }
      SumBumpedAt(Bump(t, k), t, j);
    } else {
      SumSnoc(t, (k, 1));
    }
  }

  lemma {:induction false} SumSnoc<K>(t: seq<(K, nat)>, x: (K, nat))
    ensures Sum(t + [x]) == Sum(t) + x.1
  {
    if t != [] {
      assert (t + [x])[1..] == t[1..] + [x];
      SumSnoc(t[1..], x);
    }
  }

  /** Two dicts whose counts differ only by one at position `j`. */
  lemma {:induction false} SumBumpedAt<K>(a: seq<(K, nat)>, b: seq<(K, nat)>, j: nat)
    requires |a| == |b| && j < |a| && a[j].1 == b[j].1 + 1
    requires forall i :: 0 <= i < |a| && i != j ==> a[i].1 == b[i].1
    ensures Sum(a) == Sum(b) + 1
  {
    if j == 0 {
      SumSame(a[1..], b[1..]);
    } else {
      SumBumpedAt(a[1..], b[1..], j - 1);
    }
  }

  lemma {:induction false} SumSame<K>(a: seq<(K, nat)>, b: seq<(K, nat)>)
    requires |a| == |b| && forall i :: 0 <= i < |a| ==> a[i].1 == b[i].1
    ensures Sum(a) == Sum(b)
  {
    if a != [] {
      SumSame(a[1..], b[1..]);
    }
  }

  /** The counts add up to the number of keys counted. */
  lemma {:induction false} TallySum<K>(ks: seq<K>)
    ensures Sum(Tally(ks)) == |ks|
  {
    if ks != [] {
      TallySum(ks[..|ks| - 1]);
      SumBump(Tally(ks[..|ks| - 1]), ks[|ks| - 1]);
    }
  }

  /** Every key in the dict was counted at least once. */
  lemma {:induction false} TallyPositive<K>(ks: seq<K>)
    ensures forall i :: 0 <= i < |Tally(ks)| ==> Tally(ks)[i].1 > 0
  {
    if ks != [] {
      TallyPositive(ks[..|ks| - 1]);
    }
  }

  /** The entries of a tally, in any order, still hold every counted key
      once, each with its count. */
  lemma PermutedTally<K>(ks: seq<K>, r: seq<(K, nat)>)
    requires multiset(r) == multiset(Tally(ks))
    ensures forall i :: 0 <= i < |r| ==> r[i].1 == Count(ks, r[i].0) && r[i].1 > 0
    ensures forall k :: k in Keys(r) <==> k in ks
    ensures Distinct(Keys(r))
  {
    PermutedTallyCounts(ks, r);
    PermutedTallyKeys(ks, r);
    DistinctOfPermutation(Tally(ks), r);
  }

  lemma PermutedTallyCounts<K>(ks: seq<K>, r: seq<(K, nat)>)
    requires multiset(r) == multiset(Tally(ks))
    ensures forall i :: 0 <= i < |r| ==> r[i].1 == Count(ks, r[i].0) && r[i].1 > 0
  {
    var t := Tally(ks);
    TallyCounts(ks);
    TallyPositive(ks);
    forall i | 0 <= i < |r| ensures r[i].1 == Count(ks, r[i].0) && r[i].1 > 0 {
      assert r[i] in multiset(r);
      var k :| 0 <= k < |t| && t[k] == r[i];
    }
  }

  lemma PermutedTallyKeys<K>(ks: seq<K>, r: seq<(K, nat)>)
    requires multiset(r) == multiset(Tally(ks))
    ensures forall k :: k in Keys(r) <==> k in ks
  {
    var t := Tally(ks);
    TallyKeys(ks);
    FirstSeenElems(ks);
    forall c ensures c in Keys(r) <==> c in ks {
      if c in ks {
        assert c in Keys(t);
        var k :| 0 <= k < |t| && Keys(t)[k] == c;
        assert t[k] in multiset(r);
        var i :| 0 <= i < |r| && r[i] == t[k];
        assert Keys(r)[i] == c;
      }
      if c in Keys(r) {
        var i :| 0 <= i < |r| && Keys(r)[i] == c;
        assert r[i] in multiset(t);
        var k :| 0 <= k < |t| && t[k] == r[i];
        assert Keys(t)[k] == c;
      }
    }
  }

  /** A permutation of entries with distinct keys has distinct keys. */
  lemma DistinctOfPermutation<K>(t: seq<(K, nat)>, r: seq<(K, nat)>)
    requires Distinct(Keys(t)) && multiset(r) == multiset(t)
    ensures Distinct(Keys(r))
  {
    forall i, j | 0 <= i < j < |r| ensures Keys(r)[i] != Keys(r)[j] {
      if r[i].0 == r[j].0 {
        assert r[i] in multiset(t) && r[j] in multiset(t);
        var a :| 0 <= a < |t| && t[a] == r[i];
        var b :| 0 <= b < |t| && t[b] == r[j];
        assert Keys(t)[a] == Keys(t)[b];
        assert a == b && r[i] == r[j];
        TwiceInMultiset(r, i, j);
        MultiplicityOfDistinct(t, a);
      }
    }
  }

  lemma TwiceInMultiset<T>(r: seq<T>, i: nat, j: nat)
    requires i < j < |r| && r[i] == r[j]
    ensures multiset(r)[r[i]] >= 2
  {
    assert r == r[..i] + [r[i]] + r[i + 1..j] + [r[j]] + r[j + 1..];
  }

  /** An entry of a list with distinct keys occurs in it once. */
  lemma {:induction false} MultiplicityOfDistinct<K>(t: seq<(K, nat)>, a: nat)
    requires Distinct(Keys(t)) && a < |t|
    ensures multiset(t)[t[a]] == 1
  {
    var init := t[..|t| - 1];
    assert t == init + [t[|t| - 1]];
    assert Keys(init) == Keys(t)[..|t| - 1];
    if a == |t| - 1 {
      forall k | 0 <= k < |init| ensures init[k] != t[a] {
        assert init[k] == t[k];
        assert Keys(t)[k] != Keys(t)[a];
      }
      assert multiset(init)[t[a]] == 0;
    } else {
      MultiplicityOfDistinct(init, a);
      assert Keys(t)[a] != Keys(t)[|t| - 1];
    }
  }
}
