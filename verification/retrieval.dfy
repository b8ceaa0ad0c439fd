/**
 * Staged retrieval: the retrieval engine's `retrieve` step.  With a brand or
 * type lock from the previous turn it runs one filtered search.  Otherwise
 * it runs a wide unfiltered search, lets the top 12 passages vote on
 * equipment type and brand with rank weights 12, 11, ..., and either
 * re-searches filtered to the winners (when one type holds 60% of the type
 * votes) or keeps the head of the unfiltered results.
 */
module Retrieval {
  import opened Wrappers
  import opened Text
  import opened Passages
  import opened Tally
  import opened PrimaryManual
  import opened ChromaClient

  /** One call of the search service: query, result count, brand filter, type filter. */
  datatype SearchCall = SearchCall(query: string, topK: int, brand: Option<string>, equipmentType: Option<string>)

  /** The workflow-state fields retrieval reads. */
  datatype RetrieveIn = RetrieveIn(
    question: string,
    rewrittenQuestion: Option<string>,
    lockedBrand: Option<string>,
    lockedType: Option<string>,
    lockedTitle: Option<string>)

  /** The workflow-state fields retrieval writes; the others pass through unchanged. */
  datatype RetrieveOut = RetrieveOut(
    documents: seq<Passage>,
    lockedBrand: Option<string>,
    lockedType: Option<string>,
    lockedTitle: Option<string>,
    primaryTitle: Option<string>,
    primaryType: Option<string>,
    primaryBrand: Option<string>)

  /** What retrieval returns, and the searches it ran, in order. */
  datatype Retrieved = Retrieved(out: RetrieveOut, calls: seq<SearchCall>)

  /** The question searched for: the rewritten question when there is a non-empty one. */
  function QuestionOf(s: RetrieveIn): string {
    if Truthy(s.rewrittenQuestion) then s.rewrittenQuestion.value else s.question
  }

  /** The result count: the configured count, times the number of '?' when there are several. */
  function EffectiveTopK(base: nat, q: string): nat {
    var questions := CountChar(q, '?');
    if questions > 1 then base * questions else base
  }

  /** `max(top_k * 2, 16)`: the stage-one result count. */
  function Stage1TopK(k: nat): nat {
    if 2 * k >= 16 then 2 * k else 16
  }

  /** `items[:k]`. */
  function Head(items: seq<Passage>, k: nat): seq<Passage> {
    items[..if k < |items| then k else |items|]
  }

  /** The passages that vote: the first 12. */
  function VoteWindow(all: seq<Passage>): seq<Passage> {
    Head(all, 12)
  }

  /** The stored type when it is non-empty, else the passage's own. */
  function TypeLabel(p: Passage): string {
    if Truthy(p.metadata.equipmentType) then p.metadata.equipmentType.value else p.equipmentType
  }

  /** The stored brand when it is non-empty, else the passage's own. */
  function BrandLabel(p: Passage): string {
    if Truthy(p.metadata.equipmentBrand) then p.metadata.equipmentBrand.value else p.equipmentBrand
  }

  function Label(p: Passage, byType: bool): string {
    if byType then TypeLabel(p) else BrandLabel(p)
  }

  /** The votes the passages cast in rank order: a non-empty label, weighted 12 - rank. */
  function Votes(ps: seq<Passage>, byType: bool): seq<Vote> {
    if ps == [] then []
    else
      var rank := |ps| - 1;
      var name := Label(ps[rank], byType);
      Votes(ps[..rank], byType) + (if name != "" then [(name, 12 - rank)] else [])
  }

  /** The passage after the others casts its vote last, with the next lower weight. */
  lemma {:induction false} VotesSnoc(ps: seq<Passage>, p: Passage, byType: bool)
    ensures Votes(ps + [p], byType)
      == Votes(ps, byType) + (if Label(p, byType) != "" then [(Label(p, byType), 12 - |ps|)] else [])
  {
    assert (ps + [p])[..|ps|] == ps;
  }

  /** A labelled passage's vote is added to the dictionary. */
  lemma {:induction false} LabelledVote(ps: seq<Passage>, p: Passage, byType: bool)
    requires Label(p, byType) != ""
    ensures Accumulate(Votes(ps + [p], byType)) == Add(Accumulate(Votes(ps, byType)), Label(p, byType), 12 - |ps|)
  {
    var before := Votes(ps, byType);
    var v := (Label(p, byType), 12 - |ps|);
    VotesSnoc(ps, p, byType);
    assert Votes(ps + [p], byType) == before + [v];
    AccumulateSnoc(before, v);
  }

  /** A passage without the label casts no vote. */
  lemma {:induction false} UnlabelledVote(ps: seq<Passage>, p: Passage, byType: bool)
    requires Label(p, byType) == ""
    ensures Votes(ps + [p], byType) == Votes(ps, byType)
  {
    VotesSnoc(ps, p, byType);
    assert Votes(ps, byType) + [] == Votes(ps, byType);
  }

  /** One pass of the vote loop: the passage at `rank` adds its weight to its type and to its brand, when it has them. */
  method CastVotes(counted: seq<Passage>, p: Passage, rank: nat, equipmentVotes: Tally, brandVotes: Tally)
    returns (equipmentVotes': Tally, brandVotes': Tally)
    requires |counted| == rank
    requires equipmentVotes == Accumulate(Votes(counted, true))
    requires brandVotes == Accumulate(Votes(counted, false))
    ensures equipmentVotes' == Accumulate(Votes(counted + [p], true))
    ensures brandVotes' == Accumulate(Votes(counted + [p], false))
  {
    var equipType := TypeLabel(p);
    var brand := BrandLabel(p);
    var weight := 12 - rank;
    assert equipType == Label(p, true) && brand == Label(p, false);
    if equipType != "" {
      LabelledVote(counted, p, true);
      equipmentVotes' := Add(equipmentVotes, equipType, weight);
    } else {
      UnlabelledVote(counted, p, true);
      equipmentVotes' := equipmentVotes;
    }
    if brand != "" {
      LabelledVote(counted, p, false);
      brandVotes' := Add(brandVotes, brand, weight);
    } else {
      UnlabelledVote(counted, p, false);
      brandVotes' := brandVotes;
    }
  }

  /** The vote loop: both dictionaries filled in one pass over the window. */
  method TallyVotes(window: seq<Passage>) returns (equipmentVotes: Tally, brandVotes: Tally)
    ensures equipmentVotes == Accumulate(Votes(window, true))
    ensures brandVotes == Accumulate(Votes(window, false))
  {
    equipmentVotes := [];
    brandVotes := [];
    var rank := 0;
    while rank < |window|
      invariant 0 <= rank <= |window|
      invariant equipmentVotes == Accumulate(Votes(window[..rank], true))
      invariant brandVotes == Accumulate(Votes(window[..rank], false))
    {
      assert window[..rank + 1] == window[..rank] + [window[rank]];
      equipmentVotes, brandVotes := CastVotes(window[..rank], window[rank], rank, equipmentVotes, brandVotes);
      rank := rank + 1;
    }
    assert window[..rank] == window;
  }

  /** `max(votes, key=votes.get)`, or None for no votes. */
  function Winner(t: Tally): Option<string> {
    if t == [] then None else Some(t[BestIndex(t)].key)
  }

  /** The winner holds at least 60% of all the votes (`winner / total >= 0.6`, in integers). */
  predicate Dominant(t: Tally) {
    t != [] && Sum(t) > 0 && 5 * t[BestIndex(t)].total >= 3 * Sum(t)
  }

  /** The outcome once the documents are chosen: the primary manual fills in what the locks leave open. */
  function Finish(documents: seq<Passage>, lockedBrand: Option<string>, lockedType: Option<string>,
                  lockedTitle: Option<string>, keepLocks: bool): RetrieveOut
  {
    var primary := PickSpec(documents);
    var primaryType := Or(lockedType, primary.equipmentType);
    var primaryBrand := Or(lockedBrand, primary.equipmentBrand);
    if keepLocks then
      RetrieveOut(documents, lockedBrand, lockedType, lockedTitle, primary.title, primaryType, primaryBrand)
    else
      RetrieveOut(documents, primaryBrand, primaryType, primary.title, primary.title, primaryType, primaryBrand)
  }

  predicate Locked(s: RetrieveIn) {
    Truthy(s.lockedBrand) || Truthy(s.lockedType)
  }

  /** The result count retrieval asks for. */
  function TopK(s: RetrieveIn, base: nat): nat {
    EffectiveTopK(base, QuestionOf(s))
  }

  /** What the wide, unfiltered stage-one search finds. */
  function Stage1Results(oracle: QueryFn, s: RetrieveIn, base: nat): seq<Passage> {
    SearchSpec(oracle, QuestionOf(s), Stage1TopK(TopK(s, base)), None, None).docs
  }

  /** The type votes of the stage-one results. */
  function TypeVotes(oracle: QueryFn, s: RetrieveIn, base: nat): Tally {
    Accumulate(Votes(VoteWindow(Stage1Results(oracle, s, base)), true))
  }

  /** The brand votes of the stage-one results. */
  function BrandVotes(oracle: QueryFn, s: RetrieveIn, base: nat): Tally {
    Accumulate(Votes(VoteWindow(Stage1Results(oracle, s, base)), false))
  }

  /** `retrieve`, with `search` the search service's fallback chain over the store. */
  function RetrieveSpec(oracle: QueryFn, s: RetrieveIn, base: nat): Retrieved {
    var q := QuestionOf(s);
    var k := TopK(s, base);
    if Locked(s) then
      var documents := SearchSpec(oracle, q, k, s.lockedBrand, s.lockedType).docs;
      Retrieved(Finish(documents, s.lockedBrand, s.lockedType, s.lockedTitle, true),
                [SearchCall(q, k, s.lockedBrand, s.lockedType)])
    else
      var wide := Stage1TopK(k);
      var all := Stage1Results(oracle, s, base);
      var equipmentVotes := TypeVotes(oracle, s, base);
      var brandVotes := BrandVotes(oracle, s, base);
      var detectedType := Winner(equipmentVotes);
      var detectedBrand := Winner(brandVotes);
      var stage1 := [SearchCall(q, wide, None, None)];
      if Dominant(equipmentVotes) then
        var documents := SearchSpec(oracle, q, k, detectedBrand, detectedType).docs;
        Retrieved(Finish(documents, detectedBrand, detectedType, None, false),
                  stage1 + [SearchCall(q, k, detectedBrand, detectedType)])
      else
        Retrieved(Finish(Head(all, k), detectedBrand, detectedType, None, false), stage1)
  }

  /** `retrieve`. */
  method Retrieve(oracle: QueryFn, s: RetrieveIn, base: nat) returns (out: RetrieveOut, calls: seq<SearchCall>)
    ensures Retrieved(out, calls) == RetrieveSpec(oracle, s, base)
  {
    var question := QuestionOf(s);
    var topK := EffectiveTopK(base, question);
    var documents: seq<Passage>;
    var filters: seq<Option<Filter>>;
    if Truthy(s.lockedBrand) || Truthy(s.lockedType) {
      documents, filters := Search(oracle, question, topK, s.lockedBrand, s.lockedType);
      calls := [SearchCall(question, topK, s.lockedBrand, s.lockedType)];
      var primary := PickPrimaryManual(documents);
      out := RetrieveOut(documents, s.lockedBrand, s.lockedType, s.lockedTitle, primary.title,
                         Or(s.lockedType, primary.equipmentType), Or(s.lockedBrand, primary.equipmentBrand));
      return;
    }
    var stage1TopK := Stage1TopK(topK);
    var allResults;
    allResults, filters := Search(oracle, question, stage1TopK, None, None);
    calls := [SearchCall(question, stage1TopK, None, None)];
    var equipmentVotes, brandVotes := TallyVotes(VoteWindow(allResults));
    var detectedType := Winner(equipmentVotes);
    var detectedBrand := Winner(brandVotes);
    if Dominant(equipmentVotes) {
      documents, filters := Search(oracle, question, topK, detectedBrand, detectedType);
      calls := calls + [SearchCall(question, topK, detectedBrand, detectedType)];
    } else {
      documents := Head(allResults, topK);
    }
    var primary := PickPrimaryManual(documents);
    var primaryType := Or(detectedType, primary.equipmentType);
    var primaryBrand := Or(detectedBrand, primary.equipmentBrand);
    out := RetrieveOut(documents, primaryBrand, primaryType, primary.title, primary.title, primaryType, primaryBrand);
  }

  // ---------------------------------------------------------------------
  // Properties

  /**
   * The result count is never below the configured one and grows exactly
   * when the question holds several '?'; the stage-one count is at least 16
   * and at least twice the result count.
   */
  lemma {:induction false} TopKBounds(base: nat, q: string)
    ensures base <= EffectiveTopK(base, q)
    ensures EffectiveTopK(base, q) == base <==> base == 0 || CountChar(q, '?') <= 1
    ensures 16 <= Stage1TopK(EffectiveTopK(base, q)) && 2 * EffectiveTopK(base, q) <= Stage1TopK(EffectiveTopK(base, q))
  {
    var c := CountChar(q, '?');
    if c > 1 && base > 0 {
      assert base * c >= base * 2;
    }
  }

  /**
   * With a lock, exactly one search runs, filtered by the locks; the locks
   * come back unchanged and a non-empty lock is the primary type or brand.
   */
  lemma {:induction false} LockedPath(oracle: QueryFn, s: RetrieveIn, base: nat)
    requires Locked(s)
    ensures var r := RetrieveSpec(oracle, s, base);
      var documents := SearchSpec(oracle, QuestionOf(s), TopK(s, base), s.lockedBrand, s.lockedType).docs;
      && r.calls == [SearchCall(QuestionOf(s), TopK(s, base), s.lockedBrand, s.lockedType)]
      && r.out.documents == documents
      && r.out.lockedBrand == s.lockedBrand && r.out.lockedType == s.lockedType && r.out.lockedTitle == s.lockedTitle
      && r.out.primaryTitle == PickSpec(documents).title
      && (Truthy(s.lockedType) ==> r.out.primaryType == s.lockedType)
      && (!Truthy(s.lockedType) ==> r.out.primaryType == PickSpec(documents).equipmentType)
      && (Truthy(s.lockedBrand) ==> r.out.primaryBrand == s.lockedBrand)
      && (!Truthy(s.lockedBrand) ==> r.out.primaryBrand == PickSpec(documents).equipmentBrand)
  {
  }

  /**
   * Without a lock, the unfiltered stage-one search runs first; a second,
   * filtered search runs exactly when one type dominates the vote;
   * otherwise the documents are the head of the stage-one results.  The
   * locks handed to the next turn are the vote winners, or the primary
   * manual's fields where nothing won, also when no filter was applied.
   */
  lemma {:induction false} UnlockedPath(oracle: QueryFn, s: RetrieveIn, base: nat)
    requires !Locked(s)
    ensures var r := RetrieveSpec(oracle, s, base);
      var k := TopK(s, base);
      var all := Stage1Results(oracle, s, base);
      var detectedType := Winner(TypeVotes(oracle, s, base));
      var detectedBrand := Winner(BrandVotes(oracle, s, base));
      && 1 <= |r.calls| <= 2
      && r.calls[0] == SearchCall(QuestionOf(s), Stage1TopK(k), None, None)
      && (|r.calls| == 2 <==> Dominant(TypeVotes(oracle, s, base)))
      && (|r.calls| == 2 ==>
            (r.calls[1] == SearchCall(QuestionOf(s), k, detectedBrand, detectedType)
             && r.out.documents == SearchSpec(oracle, QuestionOf(s), k, detectedBrand, detectedType).docs))
      && (|r.calls| == 1 ==> r.out.documents == all[..if k < |all| then k else |all|])
      && r.out.lockedType == r.out.primaryType == Or(detectedType, PickSpec(r.out.documents).equipmentType)
      && r.out.lockedBrand == r.out.primaryBrand == Or(detectedBrand, PickSpec(r.out.documents).equipmentBrand)
      && r.out.lockedTitle == r.out.primaryTitle == PickSpec(r.out.documents).title
  {
  }

  /** Some passage among ps carries the non-empty label t. */
  predicate Labelled(ps: seq<Passage>, byType: bool, t: string) {
    t != "" && exists r :: 0 <= r < |ps| && Label(ps[r], byType) == t
  }

  /** At most 12 passages vote: every vote names a non-empty label and weighs between 1 and 12. */
  lemma {:induction false} VoteWeights(ps: seq<Passage>, byType: bool)
    requires |ps| <= 12
    ensures forall i :: 0 <= i < |Votes(ps, byType)| ==>
      Votes(ps, byType)[i].0 != "" && 1 <= Votes(ps, byType)[i].1 <= 12
    ensures TotalWeight(Votes(ps, byType)) >= |Votes(ps, byType)|
  {
    if ps != [] {
      var n := |ps|;
      var init := ps[..n - 1];
      var p := ps[n - 1];
      assert init + [p] == ps;
      VoteWeights(init, byType);
      var before := Votes(init, byType);
      if Label(p, byType) != "" {
        LabelledWeight(init, p, byType);
        var after := before + [(Label(p, byType), 12 - |init|)];
        assert Votes(ps, byType) == after;
        forall i | 0 <= i < |after| ensures after[i].0 != "" && 1 <= after[i].1 <= 12 {
          if i < |before| {
            assert after[i] == before[i];
          }
        }
      } else {
        UnlabelledVote(init, p, byType);
      }
    }
  }

  /** A labelled passage adds one vote for its label, with its rank's weight, to the total. */
  lemma {:induction false} LabelledWeight(ps: seq<Passage>, p: Passage, byType: bool)
    requires Label(p, byType) != ""
    ensures Votes(ps + [p], byType) == Votes(ps, byType) + [(Label(p, byType), 12 - |ps|)]
    ensures TotalWeight(Votes(ps + [p], byType)) == TotalWeight(Votes(ps, byType)) + 12 - |ps|
  {
    var before := Votes(ps, byType);
    var after := before + [(Label(p, byType), 12 - |ps|)];
    VotesSnoc(ps, p, byType);
    assert after[..|after| - 1] == before;
  }

  /** Some vote names label t. */
  predicate Voted(votes: seq<Vote>, t: string) {
    exists i :: 0 <= i < |votes| && votes[i].0 == t
  }

  /** A label gets votes exactly when some passage carries it. */
  lemma {:induction false} VoteLabels(ps: seq<Passage>, byType: bool, t: string)
    ensures Voted(Votes(ps, byType), t) <==> Labelled(ps, byType, t)
  {
    if ps != [] {
      var n := |ps|;
      var init := ps[..n - 1];
      var p := ps[n - 1];
      assert init + [p] == ps;
      VoteLabels(init, byType, t);
      VotedSnoc(init, p, byType, t);
      LabelledSnoc(init, p, byType, t);
    }
  }

  /** One more passage adds a vote for t exactly when it carries t. */
  lemma {:induction false} VotedSnoc(ps: seq<Passage>, p: Passage, byType: bool, t: string)
    ensures Voted(Votes(ps + [p], byType), t) <==> Voted(Votes(ps, byType), t) || Label(p, byType) == t != ""
  {
    var before := Votes(ps, byType);
    var after := Votes(ps + [p], byType);
    VotesSnoc(ps, p, byType);
    if Voted(after, t) {
      var i :| 0 <= i < |after| && after[i].0 == t;
      if i < |before| {
        assert before[i].0 == t;
      }
    }
    if Voted(before, t) {
      var i :| 0 <= i < |before| && before[i].0 == t;
      assert after[i].0 == t;
    }
    if Label(p, byType) == t != "" {
      assert after[|before|].0 == t;
    }
  }

  /** One more passage carries t exactly when it or an earlier one does. */
  lemma {:induction false} LabelledSnoc(ps: seq<Passage>, p: Passage, byType: bool, t: string)
    ensures Labelled(ps + [p], byType, t) <==> Labelled(ps, byType, t) || Label(p, byType) == t != ""
  {
    var qs := ps + [p];
    if Labelled(qs, byType, t) {
      var r :| 0 <= r < |qs| && Label(qs[r], byType) == t;
      if r < |ps| {
        assert Label(ps[r], byType) == t;
      }
    }
    if Labelled(ps, byType, t) {
      var r :| 0 <= r < |ps| && Label(ps[r], byType) == t;
      assert Label(qs[r], byType) == t;
    }
    if Label(p, byType) == t != "" {
      assert Label(qs[|ps|], byType) == t;
    }
  }

  /**
   * The detected label is `max(votes, key=votes.get)`: it was voted for, no
   * label holds more weight, and every label first voted for before it
   * holds strictly less.
   */
  lemma {:induction false} WinnerIsFirstMaximum(votes: seq<Vote>)
    requires votes != []
    ensures Winner(Accumulate(votes)).Some?
    ensures var t := Accumulate(votes);
      var w := Winner(t).value;
      && (exists i :: 0 <= i < |votes| && votes[i].0 == w)
      && (forall u :: HasKey(t, u) ==> WeightFor(votes, u) <= WeightFor(votes, w))
      && (forall j :: 0 <= j < BestIndex(t) ==> WeightFor(votes, t[j].key) < WeightFor(votes, w))
  {
    var t := Accumulate(votes);
    AccumulateKeys(votes);
    AccumulateCounts(votes);
    assert HasKey(t, votes[0].0);
    var b := BestIndex(t);
    var w := t[b].key;
    LookupAt(t, b);
    assert HasKey(t, w) by {
      assert Keys(t)[b] == w;
    }
    forall u | HasKey(t, u) ensures WeightFor(votes, u) <= WeightFor(votes, w) {
      var c :| 0 <= c < |Keys(t)| && Keys(t)[c] == u;
      LookupAt(t, c);
    }
    forall j | 0 <= j < b ensures WeightFor(votes, t[j].key) < WeightFor(votes, w) {
      LookupAt(t, j);
    }
  }

  /** With no type label among the top 12, nothing is filtered: one search, and the head of its results. */
  lemma {:induction false} NoTypeLabels(oracle: QueryFn, s: RetrieveIn, base: nat)
    requires !Locked(s)
    requires forall r :: 0 <= r < |VoteWindow(Stage1Results(oracle, s, base))| ==>
      TypeLabel(VoteWindow(Stage1Results(oracle, s, base))[r]) == ""
    ensures var r := RetrieveSpec(oracle, s, base);
      var all := Stage1Results(oracle, s, base);
      var k := TopK(s, base);
      && |r.calls| == 1
      && r.out.documents == all[..if k < |all| then k else |all|]
      && r.out.primaryType == PickSpec(r.out.documents).equipmentType
  {
    var window := VoteWindow(Stage1Results(oracle, s, base));
    var votes := Votes(window, true);
    if votes != [] {
      VoteLabels(window, true, votes[0].0);
      assert false;
    }
  }

  /** No passage carries a type label other than t. */
  predicate OnlyType(window: seq<Passage>, t: string) {
    forall r :: 0 <= r < |window| ==> TypeLabel(window[r]) == "" || TypeLabel(window[r]) == t
  }

  /** Every type vote of such passages names t. */
  lemma {:induction false} VotesAllFor(window: seq<Passage>, t: string)
    requires |window| <= 12
    requires OnlyType(window, t)
    ensures forall i :: 0 <= i < |Votes(window, true)| ==> Votes(window, true)[i].0 == t
  {
    var votes := Votes(window, true);
    VoteWeights(window, true);
    forall i | 0 <= i < |votes| ensures votes[i].0 == t {
      VoteLabels(window, true, votes[i].0);
      var r :| 0 <= r < |window| && Label(window[r], true) == votes[i].0;
    }
  }

  /** Votes on a single type: that type is the only key, holding all of the (positive) weight. */
  lemma {:induction false} OneTypeVotes(window: seq<Passage>, t: string)
    requires |window| <= 12
    requires Labelled(window, true, t)
    requires OnlyType(window, t)
    ensures Accumulate(Votes(window, true)) == [Entry(t, TotalWeight(Votes(window, true)))]
    ensures TotalWeight(Votes(window, true)) > 0
  {
    var votes := Votes(window, true);
    VoteWeights(window, true);
    VotesAllFor(window, t);
    VoteLabels(window, true, t);
    SingleKey(votes, t);
  }

  /**
   * When every labelled passage among the top 12 has the same type, that
   * type holds all the type votes, so a second search runs, filtered to it
   * and to the detected brand, and it becomes the type lock.
   */
  lemma {:induction false} OneTypeDominates(oracle: QueryFn, s: RetrieveIn, base: nat, t: string)
    requires !Locked(s)
    requires Labelled(VoteWindow(Stage1Results(oracle, s, base)), true, t)
    requires OnlyType(VoteWindow(Stage1Results(oracle, s, base)), t)
    ensures var r := RetrieveSpec(oracle, s, base);
      && |r.calls| == 2
      && r.calls[1] == SearchCall(QuestionOf(s), TopK(s, base), Winner(BrandVotes(oracle, s, base)), Some(t))
      && r.out.lockedType == r.out.primaryType == Some(t)
  {
    var window := VoteWindow(Stage1Results(oracle, s, base));
    OneTypeVotes(window, t);
    var w := TotalWeight(Votes(window, true));
    assert BestIndex([Entry(t, w)]) == 0;
    assert Sum([Entry(t, w)]) == w;
  }
}
