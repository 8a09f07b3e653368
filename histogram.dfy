/** A JavaScript object used as a counter dictionary, `counts[key] =
    (counts[key] || 0) + 1`, kept as an association list so that the
    insertion order `Object.entries` reports is part of the model. */
module Histogram {

  type Counts = seq<(string, nat)>

  function Keys(c: Counts): (ks: seq<string>)
    ensures |ks| == |c|
    ensures forall i :: 0 <= i < |c| ==> ks[i] == c[i].0
  {
    if c == [] then [] else [c[0].0] + Keys(c[1..])
  }

  predicate UniqueKeys(c: Counts) {
    forall i, j :: 0 <= i < j < |c| ==> c[i].0 != c[j].0
  }

  /** The count of a key, 0 for a key not yet seen. */
  function CountOf(c: Counts, k: string): nat
  {
    if c == [] then 0 else if c[0].0 == k then c[0].1 else CountOf(c[1..], k)
  }

  /** The sum of all counts. */
  function Total(c: Counts): nat
  {
    if c == [] then 0 else c[0].1 + Total(c[1..])
  }

  /** `counts[k] = (counts[k] || 0) + 1`: an existing key keeps its place, a
      new key is appended. */
  function Bump(c: Counts, k: string): (r: Counts)
  {
    if c == [] then [(k, 1)]
    else if c[0].0 == k then [(k, c[0].1 + 1)] + c[1..]
    else [c[0]] + Bump(c[1..], k)
  }

  lemma {:induction false} CountOfAbsent(c: Counts, k: string)
    requires k !in Keys(c)
    ensures CountOf(c, k) == 0
  {
    if c != [] { CountOfAbsent(c[1..], k); }
  }

  /** An existing key keeps its place in the key order; a new key goes last. */
  lemma {:induction false} BumpKeys(c: Counts, k: string)
    ensures Keys(Bump(c, k)) == if k in Keys(c) then Keys(c) else Keys(c) + [k]
  {
    if c != [] && c[0].0 != k {
      BumpKeys(c[1..], k);
      assert Keys(Bump(c, k)) == [c[0].0] + Keys(Bump(c[1..], k));
      assert Keys(c) == [c[0].0] + Keys(c[1..]);
    }
  }

  /** The bumped key gains one; every other key keeps its count. */
  lemma {:induction false} BumpCounts(c: Counts, k: string, o: string)
    ensures CountOf(Bump(c, k), o) == CountOf(c, o) + (if o == k then 1 else 0)
  {
    if c != [] && c[0].0 != k {
      BumpCounts(c[1..], k, o);
    }
  }

  lemma {:induction false} BumpTotal(c: Counts, k: string)
    ensures Total(Bump(c, k)) == Total(c) + 1
  {
    if c != [] && c[0].0 != k {
      BumpTotal(c[1..], k);
    }
  }

  lemma BumpUnique(c: Counts, k: string)
    requires UniqueKeys(c)
    ensures UniqueKeys(Bump(c, k))
  {
    var r := Bump(c, k);
    BumpKeys(c, k);
    assert Keys(r) == if k in Keys(c) then Keys(c) else Keys(c) + [k];
    forall i, j | 0 <= i < j < |r| ensures r[i].0 != r[j].0 {
      assert Keys(r)[i] == r[i].0 && Keys(r)[j] == r[j].0;
      if j < |c| {
        assert Keys(c)[i] == c[i].0 && Keys(c)[j] == c[j].0;
      } else {
        assert k !in Keys(c) && Keys(r)[j] == k;
        assert Keys(c)[i] == c[i].0;
      }
    }
  }

  lemma BumpSpec(c: Counts, k: string)
    requires UniqueKeys(c)
    ensures UniqueKeys(Bump(c, k))
    ensures CountOf(Bump(c, k), k) == CountOf(c, k) + 1
    ensures forall o :: o != k ==> CountOf(Bump(c, k), o) == CountOf(c, o)
    ensures Total(Bump(c, k)) == Total(c) + 1
    ensures Keys(Bump(c, k)) == if k in Keys(c) then Keys(c) else Keys(c) + [k]
  {
    BumpUnique(c, k);
    BumpCounts(c, k, k);
    forall o | o != k ensures CountOf(Bump(c, k), o) == CountOf(c, o) {
      BumpCounts(c, k, o);
    }
    BumpTotal(c, k);
    BumpKeys(c, k);
  }

  /** The counter after bumping each key of `ks` in order. */
  function Tally(ks: seq<string>): Counts
  {
    if ks == [] then [] else Bump(Tally(ks[..|ks| - 1]), ks[|ks| - 1])
  }

  /** Number of occurrences of `k` in `ks`. */
  function Occurrences(ks: seq<string>, k: string): nat
  {
    if ks == [] then 0 else Occurrences(ks[..|ks| - 1], k) + (if ks[|ks| - 1] == k then 1 else 0)
  }

  /** Every key gets exactly one increment per occurrence: the counter has
      each key once, the count of `k` is the number of times `k` was bumped,
      and the counts add up to the number of bumps. */
  lemma {:induction false} TallySpec(ks: seq<string>)
    ensures UniqueKeys(Tally(ks))
    ensures Total(Tally(ks)) == |ks|
    ensures forall k :: CountOf(Tally(ks), k) == Occurrences(ks, k)
  {
    if ks != [] {
      var init := ks[..|ks| - 1];
      var last := ks[|ks| - 1];
      TallySpec(init);
      BumpSpec(Tally(init), last);
      forall k ensures CountOf(Tally(ks), k) == Occurrences(ks, k) {
        assert Occurrences(ks, k) == Occurrences(init, k) + (if last == k then 1 else 0);
      }
    }
  }

  /** The keys of the counter are exactly the keys that were bumped. */
  lemma {:induction false} TallyKeys(ks: seq<string>)
    ensures forall k :: k in Keys(Tally(ks)) <==> k in ks
  {
    if ks != [] {
      var init := ks[..|ks| - 1];
      var last := ks[|ks| - 1];
      TallyKeys(init);
      BumpKeys(Tally(init), last);
      assert ks == init + [last];
      forall k ensures k in Keys(Tally(ks)) <==> k in ks {
        assert k in ks <==> k in init || k == last;
      }
    }
  }

  /** Appending a key (the next kept record) extends the tally by one bump. */
  lemma TallyAppend(ks: seq<string>, k: string)
    ensures Tally(ks + [k]) == Bump(Tally(ks), k)
  {
    assert (ks + [k])[..|ks|] == ks;
  }
}
