/**
 * Insertion-ordered vote counts: the `counts[key] = counts.get(key, 0) + w`
 * dictionaries the retrieval engine and the chat front end build, and
 * `max(counts, key=counts.get)`, which returns the first key holding the
 * largest count.
 */
module Tally {

  datatype Entry = Entry(key: string, total: int)

  /** A dictionary from keys to counts, entries in insertion order. */
  type Tally = seq<Entry>

  /** One vote: a key and the weight it adds. */
  type Vote = (string, int)

  /** The keys, in insertion order. */
  function Keys(t: Tally): (r: seq<string>)
    ensures |r| == |t|
    ensures forall i :: 0 <= i < |t| ==> r[i] == t[i].key
  {
    if t == [] then [] else [t[0].key] + Keys(t[1..])
  }

  predicate DistinctKeys(t: Tally) {
    forall i, j :: 0 <= i < j < |t| ==> t[i].key != t[j].key
  }

  predicate HasKey(t: Tally, k: string) {
    k in Keys(t)
  }

  /** `counts.get(k, 0)`. */
  function Lookup(t: Tally, k: string): int {
    if t == [] then 0
    else if t[0].key == k then t[0].total
    else Lookup(t[1..], k)
  }

  /** `counts[k] = counts.get(k, 0) + w`: an existing key keeps its place, a new key goes last. */
  function Add(t: Tally, k: string, w: int): Tally {
    if t == [] then [Entry(k, w)]
    else if t[0].key == k then [Entry(k, t[0].total + w)] + t[1..]
    else [t[0]] + Add(t[1..], k, w)
  }

  /** `sum(counts.values())`. */
  function Sum(t: Tally): int {
    if t == [] then 0 else t[0].total + Sum(t[1..])
  }

  /** The dictionary after the votes, cast in order, starting from an empty one. */
  function Accumulate(votes: seq<Vote>): Tally {
    if votes == [] then []
    else
      var last := votes[|votes| - 1];
      Add(Accumulate(votes[..|votes| - 1]), last.0, last.1)
  }

  /** Casting one more vote updates the dictionary the earlier votes built. */
  lemma {:induction false} AccumulateSnoc(votes: seq<Vote>, v: Vote)
    ensures Accumulate(votes + [v]) == Add(Accumulate(votes), v.0, v.1)
  {
    assert (votes + [v])[..|votes|] == votes;
  }

  /** The total weight the votes give to key k. */
  function WeightFor(votes: seq<Vote>, k: string): int {
    if votes == [] then 0
    else WeightFor(votes[..|votes| - 1], k) + (if votes[|votes| - 1].0 == k then votes[|votes| - 1].1 else 0)
  }

  /** The total weight of all the votes. */
  function TotalWeight(votes: seq<Vote>): int {
    if votes == [] then 0 else TotalWeight(votes[..|votes| - 1]) + votes[|votes| - 1].1
  }

  /** Adding a vote keeps the keys already present in their places and appends a new key. */
  lemma {:induction false} AddKeys(t: Tally, k: string, w: int)
    ensures Keys(Add(t, k, w)) == if k in Keys(t) then Keys(t) else Keys(t) + [k]
  {
    if t != [] && t[0].key != k {
      AddKeys(t[1..], k, w);
      assert k in Keys(t) <==> k in Keys(t[1..]);
    }
  }

  /** Adding a vote adds its weight to its own key and to the sum, and leaves every other key's count alone. */
  lemma {:induction false} AddCounts(t: Tally, k: string, w: int)
    ensures forall k' :: Lookup(Add(t, k, w), k') == Lookup(t, k') + (if k' == k then w else 0)
    ensures Sum(Add(t, k, w)) == Sum(t) + w
  {
    if t != [] && t[0].key != k {
      AddCounts(t[1..], k, w);
    }
  }

  /** Adding a vote keeps the keys distinct. */
  lemma {:induction false} AddDistinct(t: Tally, k: string, w: int)
    requires DistinctKeys(t)
    ensures DistinctKeys(Add(t, k, w))
  {
    AddKeys(t, k, w);
    var r := Add(t, k, w);
    forall i, j | 0 <= i < j < |r| ensures r[i].key != r[j].key {
      assert Keys(r)[i] == r[i].key && Keys(r)[j] == r[j].key;
      if j == |t| {
        assert Keys(r)[i] == Keys(t)[i];
      }
    }
  }

  /**
   * The accumulated dictionary counts, for every key, exactly the weight the
   * votes gave it, and its counts add up to the total weight.
   */
  lemma {:induction false} AccumulateCounts(votes: seq<Vote>)
    ensures forall k :: Lookup(Accumulate(votes), k) == WeightFor(votes, k)
    ensures Sum(Accumulate(votes)) == TotalWeight(votes)
  {
    if votes != [] {
      var n := |votes|;
      AccumulateCounts(votes[..n - 1]);
      AddCounts(Accumulate(votes[..n - 1]), votes[n - 1].0, votes[n - 1].1);
    }
  }

  /** The accumulated dictionary has distinct keys, and a key exactly when some vote named it. */
  lemma {:induction false} AccumulateKeys(votes: seq<Vote>)
    ensures DistinctKeys(Accumulate(votes))
    ensures forall k :: HasKey(Accumulate(votes), k) <==> exists i :: 0 <= i < |votes| && votes[i].0 == k
  {
    if votes != [] {
      var n := |votes|;
      var init := votes[..n - 1];
      AccumulateKeys(init);
      AddKeys(Accumulate(init), votes[n - 1].0, votes[n - 1].1);
      AddDistinct(Accumulate(init), votes[n - 1].0, votes[n - 1].1);
      assert Accumulate(votes) == Add(Accumulate(init), votes[n - 1].0, votes[n - 1].1);
      forall k ensures HasKey(Accumulate(votes), k) <==> exists i :: 0 <= i < n && votes[i].0 == k {
        assert HasKey(Accumulate(votes), k) <==> HasKey(Accumulate(init), k) || k == votes[n - 1].0;
        if exists i :: 0 <= i < n && votes[i].0 == k {
          var i :| 0 <= i < n && votes[i].0 == k;
          if i < n - 1 { assert init[i].0 == k; }
        }
        if exists i :: 0 <= i < n - 1 && init[i].0 == k {
          var i :| 0 <= i < n - 1 && init[i].0 == k;
          assert votes[i].0 == k;
        }
      }
    }
  }

  /** Every stored key was named by some vote. */
  lemma {:induction false} StoredKeyVoted(votes: seq<Vote>, b: nat)
    requires b < |Accumulate(votes)|
    ensures exists j :: 0 <= j < |votes| && votes[j].0 == Accumulate(votes)[b].key
  {
    var t := Accumulate(votes);
    AccumulateKeys(votes);
    assert Keys(t)[b] == t[b].key;
    assert HasKey(t, t[b].key);
  }

  /** Every key a vote names is stored. */
  lemma {:induction false} VotedKeyStored(votes: seq<Vote>, i: nat)
    requires i < |votes|
    ensures HasKey(Accumulate(votes), votes[i].0)
  {
    AccumulateKeys(votes);
  }

  /**
   * Keys enter the dictionary in the order of the votes that first name
   * them: the vote naming the key stored at c is preceded (or matched) by
   * a vote naming every key stored before it.
   */
  lemma {:induction false} AccumulateOrder(votes: seq<Vote>, b: nat, c: nat, i: nat)
    requires b <= c < |Accumulate(votes)| && i < |votes|
    requires votes[i].0 == Accumulate(votes)[c].key
    ensures exists j :: 0 <= j <= i && votes[j].0 == Accumulate(votes)[b].key
  {
    var n := |votes|;
    var init := votes[..n - 1];
    var v := votes[n - 1];
    var before := Accumulate(init);
    var after := Accumulate(votes);
    if b == c {
      assert votes[i].0 == after[b].key;
    } else {
      assert after == Add(before, v.0, v.1);
      AddKeys(before, v.0, v.1);
      assert Keys(after)[b] == after[b].key && Keys(after)[c] == after[c].key;
      if i == n - 1 {
        assert b < |before| && Keys(before)[b] == before[b].key;
        StoredKeyVoted(init, b);
        var j :| 0 <= j < n - 1 && init[j].0 == before[b].key;
        assert votes[j].0 == after[b].key;
      } else {
        assert init[i].0 == after[c].key;
        VotedKeyStored(init, i);
        assert c < |before|;
        assert Keys(before)[b] == before[b].key && Keys(before)[c] == before[c].key;
        assert after[b].key == before[b].key by {
          if v.0 in Keys(before) {
            assert Keys(after) == Keys(before);
          } else {
            assert Keys(after) == Keys(before) + [v.0];
          }
        }
        AccumulateOrder(init, b, c, i);
        var j :| 0 <= j <= i && init[j].0 == before[b].key;
        assert votes[j] == init[j];
      }
    }
  }

  /** A key holding a count is in the dictionary at the position where it is stored. */
  lemma {:induction false} LookupAt(t: Tally, i: nat)
    requires DistinctKeys(t) && i < |t|
    ensures Lookup(t, t[i].key) == t[i].total
  {
    if i > 0 {
      assert t[0].key != t[i].key;
      LookupAt(t[1..], i - 1);
    }
  }

  /** A key's count is 0 when the key is absent, and otherwise the count stored with it. */
  lemma {:induction false} LookupIsStored(t: Tally, k: string)
    ensures Lookup(t, k) == 0 || exists c :: 0 <= c < |t| && t[c].key == k && t[c].total == Lookup(t, k)
  {
    if t != [] && t[0].key != k {
      LookupIsStored(t[1..], k);
      if Lookup(t, k) != 0 {
        var c :| 0 <= c < |t| - 1 && t[1..][c].key == k && t[1..][c].total == Lookup(t, k);
        assert t[c + 1].key == k;
      }
    }
  }

  /** `max(counts, key=counts.get)`: the first entry holding the largest count. */
  function BestIndex(t: Tally): (b: nat)
    requires |t| > 0
    ensures b < |t|
    ensures forall j :: 0 <= j < |t| ==> t[j].total <= t[b].total
    ensures forall j :: 0 <= j < b ==> t[j].total < t[b].total
  {
    if |t| == 1 then 0
    else
      var b := BestIndex(t[..|t| - 1]);
      if t[|t| - 1].total > t[b].total then |t| - 1 else b
  }

  /** No key counts more than the key `max` picks (an absent key counts 0). */
  lemma {:induction false} BestHoldsMost(t: Tally, k: string)
    requires |t| > 0 && DistinctKeys(t)
    ensures Lookup(t, k) == 0 || Lookup(t, k) <= Lookup(t, t[BestIndex(t)].key)
  {
    LookupAt(t, BestIndex(t));
    LookupIsStored(t, k);
  }

  /** Votes that all name the same key accumulate into that key alone, holding the whole weight. */
  lemma {:induction false} SingleKey(votes: seq<Vote>, k: string)
    requires |votes| > 0
    requires forall i :: 0 <= i < |votes| ==> votes[i].0 == k
    ensures Accumulate(votes) == [Entry(k, TotalWeight(votes))]
  {
    var n := |votes|;
    if n > 1 {
      SingleKey(votes[..n - 1], k);
    }
  }
}
