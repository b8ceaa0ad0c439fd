/**
 * Choosing the primary manual of a set of retrieved passages: the title
 * seen most often, ties broken by the best score and then by which title
 * was seen first, with the equipment type and brand of the first passage
 * seen under that title.
 */
module PrimaryManual {
  import opened Wrappers
  import opened Passages

  /** The primary manual's title, type and brand; all absent for no passages. */
  datatype Primary = Primary(title: Option<string>, equipmentType: Option<string>, equipmentBrand: Option<string>)

  const NoPrimary := Primary(None, None, None)

  /** The stored title when the metadata has one, else the passage's own title. */
  function TitleOf(p: Passage): string {
    p.metadata.title.GetOr(p.title)
  }

  function TypeOf(p: Passage): string {
    p.metadata.equipmentType.GetOr(p.equipmentType)
  }

  function BrandOf(p: Passage): string {
    p.metadata.equipmentBrand.GetOr(p.equipmentBrand)
  }

  function Max(a: int, b: int): int {
    if a >= b then a else b
  }

  /** One `by_title` entry. */
  datatype TitleStat = TitleStat(title: string, count: int, maxScore: int, equipmentType: string, equipmentBrand: string)

  /** The entry a title gets when it is first seen, before the passage is counted. */
  function Fresh(p: Passage): TitleStat {
    TitleStat(TitleOf(p), 0, 0, TypeOf(p), BrandOf(p))
  }

  /** Counting one passage into its title's entry. */
  function Bump(s: TitleStat, p: Passage): TitleStat {
    s.(count := s.count + 1, maxScore := Max(s.maxScore, p.score))
  }

  /** Counting one passage into `by_title`: its title's entry, created last when new. */
  function Record(stats: seq<TitleStat>, p: Passage): (r: seq<TitleStat>)
    ensures |stats| <= |r| <= |stats| + 1 && |r| > 0
  {
    if stats == [] then [Bump(Fresh(p), p)]
    else if stats[0].title == TitleOf(p) then [Bump(stats[0], p)] + stats[1..]
    else [stats[0]] + Record(stats[1..], p)
  }

  /** `by_title` after the passages, in order. */
  function ByTitle(ps: seq<Passage>): seq<TitleStat> {
    if ps == [] then [] else Record(ByTitle(ps[..|ps| - 1]), ps[|ps| - 1])
  }

  /** a's (count, max score) is larger than b's. */
  predicate Outranks(a: TitleStat, b: TitleStat) {
    a.count > b.count || (a.count == b.count && a.maxScore > b.maxScore)
  }

  /**
   * The first entry of largest (count, max score): what a stable sort in
   * descending order puts first.
   */
  function BestStat(stats: seq<TitleStat>): (b: nat)
    requires |stats| > 0
    ensures b < |stats|
    ensures forall j :: 0 <= j < |stats| ==> !Outranks(stats[j], stats[b])
    ensures forall j :: 0 <= j < b ==> Outranks(stats[b], stats[j])
  {
    if |stats| == 1 then 0
    else
      var b := BestStat(stats[..|stats| - 1]);
      if Outranks(stats[|stats| - 1], stats[b]) then |stats| - 1 else b
  }

  /** `_pick_primary_manual` (the definition in force). */
  function PickSpec(ps: seq<Passage>): Primary {
    if ps == [] then NoPrimary
    else
      var stats := ByTitle(ps);
      var best := stats[BestStat(stats)];
      Primary(Some(best.title), Some(best.equipmentType), Some(best.equipmentBrand))
  }

  // ---------------------------------------------------------------------
  // The imperative form

  /** Counting a passage at the position of the first entry with its title, or at a new last entry. */
  lemma {:induction false} RecordAt(stats: seq<TitleStat>, p: Passage, k: nat)
    requires k <= |stats|
    requires forall m :: 0 <= m < k ==> stats[m].title != TitleOf(p)
    requires k < |stats| ==> stats[k].title == TitleOf(p)
    ensures k < |stats| ==> Record(stats, p) == stats[k := Bump(stats[k], p)]
    ensures k == |stats| ==> Record(stats, p) == stats + [Bump(Fresh(p), p)]
  {
    if stats != [] && k > 0 {
      RecordAt(stats[1..], p, k - 1);
      if k < |stats| {
        assert [stats[0]] + stats[1..][k - 1 := Bump(stats[k], p)] == stats[k := Bump(stats[k], p)];
      } else {
        assert [stats[0]] + (stats[1..] + [Bump(Fresh(p), p)]) == stats + [Bump(Fresh(p), p)];
      }
    }
  }

  /** The position of the entry for `title`, or the length when there is none. */
  method FindTitle(stats: seq<TitleStat>, title: string) returns (k: nat)
    ensures k <= |stats|
    ensures forall m :: 0 <= m < k ==> stats[m].title != title
    ensures k < |stats| ==> stats[k].title == title
  {
    k := 0;
    while k < |stats| && stats[k].title != title
      invariant 0 <= k <= |stats|
      invariant forall m :: 0 <= m < k ==> stats[m].title != title
    {
      k := k + 1;
    }
  }

  /** The `by_title` loop: each passage counted into its title's entry, found by a linear search. */
  method CountByTitle(ps: seq<Passage>) returns (byTitle: seq<TitleStat>)
    ensures byTitle == ByTitle(ps)
  {
    byTitle := [];
    var i := 0;
    while i < |ps|
      invariant 0 <= i <= |ps|
      invariant byTitle == ByTitle(ps[..i])
    {
      assert ps[..i + 1][..i] == ps[..i];
      var p := ps[i];
      assert ByTitle(ps[..i + 1]) == Record(byTitle, p);
      var title := TitleOf(p);
      var k := FindTitle(byTitle, title);
      RecordAt(byTitle, p, k);
      if k == |byTitle| {
        byTitle := byTitle + [Fresh(p)];
      }
      byTitle := byTitle[k := Bump(byTitle[k], p)];
      i := i + 1;
    }
    assert ps[..i] == ps;
  }

  /** The first entry of largest (count, max score), found by one scan. */
  method FirstBest(stats: seq<TitleStat>) returns (best: nat)
    requires |stats| > 0
    ensures best == BestStat(stats)
  {
    best := 0;
    var j := 1;
    while j < |stats|
      invariant 1 <= j <= |stats|
      invariant best == BestStat(stats[..j])
    {
      assert stats[..j + 1][..j] == stats[..j];
      if Outranks(stats[j], stats[best]) {
        best := j;
      }
      j := j + 1;
    }
    assert stats[..j] == stats;
  }

  /** `_pick_primary_manual`: fill `by_title`, then take the first entry of largest (count, max score). */
  method PickPrimaryManual(ps: seq<Passage>) returns (primary: Primary)
    ensures primary == PickSpec(ps)
  {
    if ps == [] {
      return NoPrimary;
    }
    var byTitle := CountByTitle(ps);
    var best := FirstBest(byTitle);
    primary := Primary(Some(byTitle[best].title), Some(byTitle[best].equipmentType), Some(byTitle[best].equipmentBrand));
  }

  // ---------------------------------------------------------------------
  // What the entries hold, stated directly over the passages

  /** How many passages carry title t. */
  function CountTitle(ps: seq<Passage>, t: string): nat {
    if ps == [] then 0
    else CountTitle(ps[..|ps| - 1], t) + (if TitleOf(ps[|ps| - 1]) == t then 1 else 0)
  }

  /** The best score among the passages with title t, and never below 0. */
  function MaxScoreFor(ps: seq<Passage>, t: string): int {
    if ps == [] then 0
    else
      var prev := MaxScoreFor(ps[..|ps| - 1], t);
      if TitleOf(ps[|ps| - 1]) == t then Max(prev, ps[|ps| - 1].score) else prev
  }

  predicate Seen(ps: seq<Passage>, t: string) {
    exists i :: 0 <= i < |ps| && TitleOf(ps[i]) == t
  }

  predicate Listed(stats: seq<TitleStat>, t: string) {
    exists a :: 0 <= a < |stats| && stats[a].title == t
  }

  predicate DistinctTitles(stats: seq<TitleStat>) {
    forall a, b :: 0 <= a < b < |stats| ==> stats[a].title != stats[b].title
  }

  /** Where counting a passage leaves each entry. */
  lemma {:induction false} RecordShape(stats: seq<TitleStat>, p: Passage)
    requires DistinctTitles(stats)
    ensures DistinctTitles(Record(stats, p))
    ensures Listed(stats, TitleOf(p)) ==> |Record(stats, p)| == |stats|
    ensures !Listed(stats, TitleOf(p)) ==>
      |Record(stats, p)| == |stats| + 1 && Record(stats, p)[|stats|] == Bump(Fresh(p), p)
    ensures forall a :: 0 <= a < |stats| ==>
      Record(stats, p)[a] == if stats[a].title == TitleOf(p) then Bump(stats[a], p) else stats[a]
  {
    var t := TitleOf(p);
    var k := 0;
    while k < |stats| && stats[k].title != t
      invariant 0 <= k <= |stats|
      invariant forall m :: 0 <= m < k ==> stats[m].title != t
    {
      k := k + 1;
    }
    RecordAt(stats, p, k);
    if k < |stats| {
      assert Listed(stats, t);
    } else {
      assert !Listed(stats, t);
    }
  }

  /** A title is seen in a sequence of passages when it is seen before the last one or on the last one. */
  lemma {:induction false} SeenStep(ps: seq<Passage>, t: string)
    requires ps != []
    ensures Seen(ps, t) <==> Seen(ps[..|ps| - 1], t) || TitleOf(ps[|ps| - 1]) == t
  {
    var init := ps[..|ps| - 1];
    if Seen(ps, t) {
      var i :| 0 <= i < |ps| && TitleOf(ps[i]) == t;
      if i < |ps| - 1 {
        assert TitleOf(init[i]) == t;
      }
    }
    if Seen(init, t) {
      var i :| 0 <= i < |init| && TitleOf(init[i]) == t;
      assert TitleOf(ps[i]) == t;
    }
  }

  /** Counting a passage lists its title and keeps every title listed before. */
  lemma {:induction false} ListedStep(stats: seq<TitleStat>, p: Passage, t: string)
    requires DistinctTitles(stats)
    ensures Listed(Record(stats, p), t) <==> Listed(stats, t) || TitleOf(p) == t
  {
    RecordShape(stats, p);
    var r := Record(stats, p);
    if Listed(stats, t) {
      var a :| 0 <= a < |stats| && stats[a].title == t;
      assert r[a].title == t;
    } else if TitleOf(p) == t {
      assert r[|stats|].title == t;
    }
    if Listed(r, t) {
      var a :| 0 <= a < |r| && r[a].title == t;
      if a < |stats| && stats[a].title != TitleOf(p) {
        assert stats[a].title == t;
      }
    }
  }

  /** `by_title` lists each title seen, once. */
  lemma {:induction false} ByTitleTitles(ps: seq<Passage>)
    ensures DistinctTitles(ByTitle(ps))
    ensures forall t :: Listed(ByTitle(ps), t) <==> Seen(ps, t)
  {
    if ps != [] {
      var init := ps[..|ps| - 1];
      var p := ps[|ps| - 1];
      ByTitleTitles(init);
      RecordShape(ByTitle(init), p);
      forall t ensures Listed(ByTitle(ps), t) <==> Seen(ps, t) {
        SeenStep(ps, t);
        ListedStep(ByTitle(init), p, t);
      }
    }
  }

  /** Each `by_title` entry counts the passages with its title and holds their best score (at least 0). */
  lemma {:induction false} ByTitleCounts(ps: seq<Passage>)
    ensures forall a :: 0 <= a < |ByTitle(ps)| ==>
      ByTitle(ps)[a].count == CountTitle(ps, ByTitle(ps)[a].title)
      && ByTitle(ps)[a].maxScore == MaxScoreFor(ps, ByTitle(ps)[a].title)
  {
    if ps != [] {
      var n := |ps|;
      var init := ps[..n - 1];
      var p := ps[n - 1];
      ByTitleCounts(init);
      ByTitleTitles(init);
      var before := ByTitle(init);
      RecordShape(before, p);
      var after := ByTitle(ps);
      forall a | 0 <= a < |after|
        ensures after[a].count == CountTitle(ps, after[a].title)
        ensures after[a].maxScore == MaxScoreFor(ps, after[a].title)
      {
        if a == |before| {
          assert !Listed(before, TitleOf(p));
          assert !Seen(init, TitleOf(p));
          NeverSeen(init, TitleOf(p));
        }
      }
    }
  }

  /** A title no passage carries is counted 0 times with best score 0. */
  lemma {:induction false} NeverSeen(ps: seq<Passage>, t: string)
    requires !Seen(ps, t)
    ensures CountTitle(ps, t) == 0 && MaxScoreFor(ps, t) == 0
  {
    if ps != [] {
      var init := ps[..|ps| - 1];
      forall i | 0 <= i < |init| ensures TitleOf(init[i]) != t {
        assert init[i] == ps[i];
      }
      NeverSeen(init, t);
    }
  }

  /** The first passage carrying title t is ps[i]. */
  predicate FirstWith(ps: seq<Passage>, t: string, i: int) {
    0 <= i < |ps| && TitleOf(ps[i]) == t && forall j :: 0 <= j < i ==> TitleOf(ps[j]) != t
  }

  /**
   * `by_title` lists the titles in the order they are first seen: the title
   * of entry a is seen before any passage carrying the title of a later entry b.
   */
  lemma {:induction false} ByTitleOrder(ps: seq<Passage>, a: nat, b: nat, i: nat)
    requires a < b < |ByTitle(ps)| && i < |ps| && TitleOf(ps[i]) == ByTitle(ps)[b].title
    ensures exists j :: 0 <= j < i && TitleOf(ps[j]) == ByTitle(ps)[a].title
  {
    var n := |ps|;
    var init := ps[..n - 1];
    var p := ps[n - 1];
    var before := ByTitle(init);
    var after := ByTitle(ps);
    assert after == Record(before, p);
    ByTitleTitles(init);
    RecordShape(before, p);
    assert a < |before|;
    assert after[a].title == before[a].title;
    if i < n - 1 {
      assert TitleOf(init[i]) == after[b].title;
      assert b < |before|;
      assert after[b].title == before[b].title;
      ByTitleOrder(init, a, b, i);
      var j :| 0 <= j < i && TitleOf(init[j]) == before[a].title;
      assert TitleOf(ps[j]) == after[a].title;
    } else {
      assert Listed(before, before[a].title);
      var j :| 0 <= j < |init| && TitleOf(init[j]) == before[a].title;
      assert TitleOf(ps[j]) == after[a].title;
    }
  }

  /** Entry s holds the type and brand of the first passage carrying its title. */
  predicate KeepsFirst(ps: seq<Passage>, s: TitleStat) {
    exists i :: 0 <= i < |ps| && FirstWith(ps, s.title, i) && s.equipmentType == TypeOf(ps[i]) && s.equipmentBrand == BrandOf(ps[i])
  }

  /** Each `by_title` entry keeps the type and brand of the first passage with its title. */
  lemma {:induction false} ByTitleFirstPassage(ps: seq<Passage>, a: nat)
    requires a < |ByTitle(ps)|
    ensures KeepsFirst(ps, ByTitle(ps)[a])
  {
    var n := |ps|;
    var init := ps[..n - 1];
    var p := ps[n - 1];
    ByTitleTitles(init);
    var before := ByTitle(init);
    RecordShape(before, p);
    var after := ByTitle(ps);
    assert after == Record(before, p);
    if a < |before| {
      ByTitleFirstPassage(init, a);
      var i :| 0 <= i < |init| && FirstWith(init, before[a].title, i)
        && before[a].equipmentType == TypeOf(init[i]) && before[a].equipmentBrand == BrandOf(init[i]);
      forall j | 0 <= j < i ensures TitleOf(ps[j]) != after[a].title {
        assert ps[j] == init[j];
      }
      assert ps[i] == init[i];
      assert after[a].title == before[a].title && after[a].equipmentType == before[a].equipmentType
        && after[a].equipmentBrand == before[a].equipmentBrand;
      assert FirstWith(ps, after[a].title, i)
        && after[a].equipmentType == TypeOf(ps[i]) && after[a].equipmentBrand == BrandOf(ps[i]);
    } else {
      assert !Listed(before, TitleOf(p));
      assert !Seen(init, TitleOf(p));
      forall j | 0 <= j < n - 1 ensures TitleOf(ps[j]) != TitleOf(p) {
        assert ps[j] == init[j];
      }
      assert after[a] == Bump(Fresh(p), p);
      assert FirstWith(ps, after[a].title, n - 1)
        && after[a].equipmentType == TypeOf(ps[n - 1]) && after[a].equipmentBrand == BrandOf(ps[n - 1]);
    }
  }

  /** Title t's (count, best score) is no larger than title u's. */
  predicate KeyBelow(ps: seq<Passage>, t: string, u: string) {
    CountTitle(ps, t) < CountTitle(ps, u)
    || (CountTitle(ps, t) == CountTitle(ps, u) && MaxScoreFor(ps, t) <= MaxScoreFor(ps, u))
  }

  /**
   * No passages give no primary manual; otherwise the primary title is
   * carried by some passage and has the largest (count, best score) of all
   * the titles.
   */
  lemma {:induction false} PrimaryIsMostFrequent(ps: seq<Passage>)
    ensures ps == [] <==> PickSpec(ps) == NoPrimary
    ensures ps != [] ==> PickSpec(ps).title.Some? && Seen(ps, PickSpec(ps).title.value)
    ensures ps != [] ==> forall i :: 0 <= i < |ps| ==> KeyBelow(ps, TitleOf(ps[i]), PickSpec(ps).title.value)
  {
    if ps != [] {
      var stats := ByTitle(ps);
      ByTitleTitles(ps);
      ByTitleCounts(ps);
      var b := BestStat(stats);
      var t := stats[b].title;
      assert Listed(stats, t);
      forall i | 0 <= i < |ps| ensures KeyBelow(ps, TitleOf(ps[i]), t) {
        assert Seen(ps, TitleOf(ps[i]));
        var c :| 0 <= c < |stats| && stats[c].title == TitleOf(ps[i]);
        assert !Outranks(stats[c], stats[b]);
      }
    }
  }

  /** A title that ties with the primary title was first seen no earlier. */
  lemma {:induction false} PrimaryTiesGoToFirstSeen(ps: seq<Passage>, i: nat)
    requires i < |ps|
    requires KeyBelow(ps, PickSpec(ps).title.value, TitleOf(ps[i]))
    ensures exists j :: 0 <= j <= i && TitleOf(ps[j]) == PickSpec(ps).title.value
  {
    var stats := ByTitle(ps);
    ByTitleTitles(ps);
    ByTitleCounts(ps);
    var b := BestStat(stats);
    var t := stats[b].title;
    assert Seen(ps, TitleOf(ps[i]));
    var c :| 0 <= c < |stats| && stats[c].title == TitleOf(ps[i]);
    assert !Outranks(stats[b], stats[c]);
    assert c >= b;
    if c == b {
      assert TitleOf(ps[i]) == t;
    } else {
      ByTitleOrder(ps, b, c, i);
      var j :| 0 <= j < i && TitleOf(ps[j]) == t;
    }
  }

  /** The primary type and brand are those of the first passage carrying the primary title. */
  lemma {:induction false} PrimaryTypeAndBrand(ps: seq<Passage>)
    requires ps != []
    ensures exists i :: (FirstWith(ps, PickSpec(ps).title.value, i)
      && PickSpec(ps).equipmentType == Some(TypeOf(ps[i])) && PickSpec(ps).equipmentBrand == Some(BrandOf(ps[i])))
  {
    var stats := ByTitle(ps);
    var b := BestStat(stats);
    ByTitleFirstPassage(ps, b);
    assert KeepsFirst(ps, stats[b]);
    var i :| 0 <= i < |ps| && FirstWith(ps, stats[b].title, i)
      && stats[b].equipmentType == TypeOf(ps[i]) && stats[b].equipmentBrand == BrandOf(ps[i]);
  }
}
