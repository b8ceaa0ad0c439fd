/**
 * The chat front end: the follow-up classifier, the most frequent manual
 * title of an answer's passages, the expansion of a numbered reply into the
 * option it picks, and the session state one chat turn updates (the message
 * log, the short-term context handed to the engine, the numbered options
 * offered by the last answer).  The engine's search service and language
 * model, the follow-up patterns and the option extraction are inputs.
 */
module ChatFrontEnd {
  import opened Wrappers
  import opened Text
  import opened Passages
  import opened Tally
  import opened Keywords
  import opened ChromaClient
  import opened Workflow

  /** The front end's short-term context: five strings, "" when unset. */
  datatype Context = Context(
    lastQuestion: string,
    lastAnswer: string,
    lastManualTitle: string,
    lastEquipmentType: string,
    lastBrand: string)

  const EmptyContext := Context("", "", "", "", "")

  /** The context as the engine reads it: every key present. */
  function EngineContext(ctx: Context): ShortCtx {
    ShortCtx(Some(ctx.lastQuestion), Some(ctx.lastManualTitle), Some(ctx.lastEquipmentType), Some(ctx.lastBrand))
  }

  // ---------------------------------------------------------------------
  // The follow-up classifier

  /** Whether the stripped, lowered message matches one of the follow-up patterns (a regular-expression search). */
  type PatternMatcher = string -> bool

  /** The brand a message names, by the front end's table. */
  function DetectedBrand(text: string): Option<string> {
    FirstBrand(UiBrandKeywords, Lower(text))
  }

  /** The equipment type a message names. */
  function DetectedType(text: string): Option<string> {
    FirstType(EquipmentTypeKeywords, Lower(text))
  }

  /** The message names a brand other than the context's non-empty brand. */
  predicate BrandConflict(text: string, ctx: Context) {
    Truthy(DetectedBrand(text)) && ctx.lastBrand != "" && DetectedBrand(text).value != ctx.lastBrand
  }

  /** The message names an equipment type other than the context's non-empty type. */
  predicate TypeConflict(text: string, ctx: Context) {
    Truthy(DetectedType(text)) && ctx.lastEquipmentType != "" && DetectedType(text).value != ctx.lastEquipmentType
  }

  /** The message names some brand or type. */
  predicate NamesEquipment(text: string) {
    Truthy(DetectedBrand(text)) || Truthy(DetectedType(text))
  }

  /** `is_followup_message`: an ordered rule cascade, the first rule that applies decides. */
  function IsFollowupMessage(text: string, ctx: Context, matchesPattern: PatternMatcher): bool {
    if text == "" then false
    else
      var t := Lower(Strip(text));
      if BrandConflict(text, ctx) then false
      else if TypeConflict(text, ctx) then false
      else if NamesEquipment(text) && ctx.lastBrand == "" && ctx.lastEquipmentType == "" then false
      else if |SplitWords(t)| <= 6 then true
      else matchesPattern(t) && !NamesEquipment(text)
  }

  /**
   * The cascade rule by rule: an empty message, a change of brand or type,
   * or equipment named with no equipment in the context is never a
   * follow-up; past those rules a message of at most six words always is,
   * and a longer one is exactly when it matches a pattern and names no
   * equipment.
   */
  lemma {:induction false} FollowupRules(text: string, ctx: Context, matchesPattern: PatternMatcher)
    ensures text == "" ==> !IsFollowupMessage(text, ctx, matchesPattern)
    ensures BrandConflict(text, ctx) || TypeConflict(text, ctx) ==> !IsFollowupMessage(text, ctx, matchesPattern)
    ensures NamesEquipment(text) && ctx.lastBrand == "" && ctx.lastEquipmentType == "" ==>
      !IsFollowupMessage(text, ctx, matchesPattern)
    ensures (text != "" && !BrandConflict(text, ctx) && !TypeConflict(text, ctx)
      && !(NamesEquipment(text) && ctx.lastBrand == "" && ctx.lastEquipmentType == "")) ==>
      (IsFollowupMessage(text, ctx, matchesPattern) <==>
         |SplitWords(Lower(Strip(text)))| <= 6
         || (matchesPattern(Lower(Strip(text))) && !NamesEquipment(text)))
  {
  }

  /**
   * A follow-up never contradicts the context: a brand or type it names is
   * the context's own wherever the context has one, so the engine's locks
   * on the context agree with the message.
   */
  lemma {:induction false} FollowupAgreesWithContext(text: string, ctx: Context, matchesPattern: PatternMatcher)
    requires IsFollowupMessage(text, ctx, matchesPattern)
    ensures Truthy(DetectedBrand(text)) && ctx.lastBrand != "" ==> DetectedBrand(text).value == ctx.lastBrand
    ensures Truthy(DetectedType(text)) && ctx.lastEquipmentType != "" ==> DetectedType(text).value == ctx.lastEquipmentType
    ensures NamesEquipment(text) ==> ctx.lastBrand != "" || ctx.lastEquipmentType != ""
    ensures NamesEquipment(text) ==> |SplitWords(Lower(Strip(text)))| <= 6
  {
  }

  /** Every brand and type the front end detects is non-empty, so detection and truthiness coincide. */
  lemma {:induction false} DetectionNonEmpty(text: string)
    ensures Truthy(DetectedBrand(text)) <==> DetectedBrand(text).Some?
    ensures Truthy(DetectedType(text)) <==> DetectedType(text).Some?
  {
    BrandTableNonEmpty(UiBrandKeywords, Lower(text));
    TypeTableNonEmpty(EquipmentTypeKeywords, Lower(text));
  }

  lemma {:induction false} TypeTableNonEmpty(table: TypeTable, t: string)
    requires forall i :: 0 <= i < |table| ==> table[i].0 != ""
    ensures FirstType(table, t).Some? ==> FirstType(table, t).value != ""
  {
    if table != [] && !AnyContained(t, table[0].1) {
      TypeTableNonEmpty(table[1..], t);
    }
  }

  // ---------------------------------------------------------------------
  // The most frequent manual title

  /** The title the front end reads: the stored title, or "Unknown Manual". */
  function ShownTitle(p: Passage): string {
    p.metadata.title.GetOr("Unknown Manual")
  }

  /** One vote of weight 1 per passage, for its title. */
  function TitleVotes(docs: seq<Passage>): (r: seq<Vote>)
    ensures |r| == |docs|
    ensures forall i :: 0 <= i < |docs| ==> r[i] == (ShownTitle(docs[i]), 1)
  {
    seq(|docs|, i requires 0 <= i < |docs| => (ShownTitle(docs[i]), 1))
  }

  /** One vote of weight 1 per passage, for its equipment type. */
  function TypeVotes(docs: seq<Passage>): (r: seq<Vote>)
    ensures |r| == |docs|
    ensures forall i :: 0 <= i < |docs| ==> r[i] == (docs[i].equipmentType, 1)
  {
    seq(|docs|, i requires 0 <= i < |docs| => (docs[i].equipmentType, 1))
  }

  /** The first title holding the largest count; none for no passages. */
  function PrimaryTitle(docs: seq<Passage>): (r: Option<string>)
    ensures r.Some? <==> docs != []
  {
    if docs == [] then None
    else
      var votes := TitleVotes(docs);
      AccumulateKeys(votes);
      assert HasKey(Accumulate(votes), votes[0].0);
      var counts := Accumulate(votes);
      Some(counts[BestIndex(counts)].key)
  }

  /** How many passages show title t. */
  function CountShown(docs: seq<Passage>, t: string): nat {
    if docs == [] then 0
    else CountShown(docs[..|docs| - 1], t) + (if ShownTitle(docs[|docs| - 1]) == t then 1 else 0)
  }

  lemma {:induction false} TitleVotesCount(docs: seq<Passage>, t: string)
    ensures WeightFor(TitleVotes(docs), t) == CountShown(docs, t)
  {
    if docs != [] {
      var n := |docs|;
      assert TitleVotes(docs)[..n - 1] == TitleVotes(docs[..n - 1]);
      TitleVotesCount(docs[..n - 1], t);
    }
  }

  /** The tally of the titles has distinct keys and holds, for every title, the number of passages showing it. */
  lemma {:induction false} TitleTally(docs: seq<Passage>)
    ensures DistinctKeys(Accumulate(TitleVotes(docs)))
    ensures forall t :: Lookup(Accumulate(TitleVotes(docs)), t) == CountShown(docs, t)
  {
    AccumulateKeys(TitleVotes(docs));
    AccumulateCounts(TitleVotes(docs));
    forall t ensures Lookup(Accumulate(TitleVotes(docs)), t) == CountShown(docs, t) {
      TitleVotesCount(docs, t);
    }
  }

  /**
   * `extract_primary_manual_title`: no title for no passages; otherwise a
   * title some passage shows, and no title is shown more often.
   */
  lemma {:induction false} PrimaryTitleIsMostFrequent(docs: seq<Passage>)
    ensures docs == [] <==> PrimaryTitle(docs) == None
    ensures docs != [] ==> exists i :: 0 <= i < |docs| && ShownTitle(docs[i]) == PrimaryTitle(docs).value
    ensures docs != [] ==> forall t :: CountShown(docs, t) <= CountShown(docs, PrimaryTitle(docs).value)
  {
    if docs != [] {
      var votes := TitleVotes(docs);
      var counts := Accumulate(votes);
      AccumulateKeys(votes);
      TitleTally(docs);
      assert HasKey(counts, votes[0].0);
      var u := counts[BestIndex(counts)].key;
      assert PrimaryTitle(docs) == Some(u);
      assert HasKey(counts, u) by {
        assert Keys(counts)[BestIndex(counts)] == u;
      }
      var i :| 0 <= i < |docs| && votes[i].0 == u;
      assert ShownTitle(docs[i]) == u;
      forall t ensures CountShown(docs, t) <= CountShown(docs, u) {
        BestHoldsMost(counts, t);
      }
    }
  }

  /** A title shown as often as the primary title was first shown no earlier: ties go to the first seen. */
  lemma {:induction false} PrimaryTitleTiesGoToFirstSeen(docs: seq<Passage>, i: nat, t: string)
    requires i < |docs| && ShownTitle(docs[i]) == t
    requires CountShown(docs, t) >= CountShown(docs, PrimaryTitle(docs).value)
    ensures exists j :: 0 <= j <= i && ShownTitle(docs[j]) == PrimaryTitle(docs).value
  {
    var votes := TitleVotes(docs);
    var counts := Accumulate(votes);
    AccumulateKeys(votes);
    TitleTally(docs);
    assert votes[i].0 == t;
    assert HasKey(counts, t);
    var b := BestIndex(counts);
    var u := counts[b].key;
    LookupAt(counts, b);
    var c :| 0 <= c < |counts| && Keys(counts)[c] == t;
    LookupAt(counts, c);
    assert b <= c;
    AccumulateOrder(votes, b, c, i);
    var j :| 0 <= j <= i && votes[j].0 == u;
    assert ShownTitle(docs[j]) == u;
  }

  /** The tally of a prefix grows by one vote per further passage. */
  lemma {:induction false} VotesPrefix(docs: seq<Passage>, i: nat)
    requires i < |docs|
    ensures TitleVotes(docs[..i + 1]) == TitleVotes(docs[..i]) + [(ShownTitle(docs[i]), 1)]
    ensures TypeVotes(docs[..i + 1]) == TypeVotes(docs[..i]) + [(docs[i].equipmentType, 1)]
  {
  }

  /** `extract_primary_manual_title`: count each title, then take the first with the largest count. */
  method ExtractPrimaryManualTitle(docs: seq<Passage>) returns (title: Option<string>)
    ensures title == PrimaryTitle(docs)
  {
    if docs == [] {
      return None;
    }
    var counts: Tally := [];
    for i := 0 to |docs|
      invariant counts == Accumulate(TitleVotes(docs[..i]))
    {
      VotesPrefix(docs, i);
      AccumulateSnoc(TitleVotes(docs[..i]), (ShownTitle(docs[i]), 1));
      counts := Add(counts, ShownTitle(docs[i]), 1);
    }
    assert docs[..|docs|] == docs;
    AccumulateKeys(TitleVotes(docs));
    assert HasKey(counts, ShownTitle(docs[0]));
    title := Some(counts[BestIndex(counts)].key);
  }

  // ---------------------------------------------------------------------
  // The answer's statistics

  /** The statistics logged with an answer. */
  datatype TurnStats = TurnStats(numDocs: nat, retries: int, equipmentDist: Tally, manualDist: Tally)

  /** The passages per equipment type and per manual title, in order of first appearance. */
  method Distributions(docs: seq<Passage>) returns (equipmentDist: Tally, manualDist: Tally)
    ensures equipmentDist == Accumulate(TypeVotes(docs))
    ensures manualDist == Accumulate(TitleVotes(docs))
  {
    equipmentDist := [];
    manualDist := [];
    for i := 0 to |docs|
      invariant equipmentDist == Accumulate(TypeVotes(docs[..i]))
      invariant manualDist == Accumulate(TitleVotes(docs[..i]))
    {
      VotesPrefix(docs, i);
      AccumulateSnoc(TypeVotes(docs[..i]), (docs[i].equipmentType, 1));
      AccumulateSnoc(TitleVotes(docs[..i]), (ShownTitle(docs[i]), 1));
      equipmentDist := Add(equipmentDist, docs[i].equipmentType, 1);
      manualDist := Add(manualDist, ShownTitle(docs[i]), 1);
    }
    assert docs[..|docs|] == docs;
  }

  lemma {:induction false} TotalWeightOnes(votes: seq<Vote>)
    requires forall i :: 0 <= i < |votes| ==> votes[i].1 == 1
    ensures TotalWeight(votes) == |votes|
  {
    if votes != [] {
      TotalWeightOnes(votes[..|votes| - 1]);
    }
  }

  /** Each distribution counts every passage once: its counts add up to the number of passages. */
  lemma {:induction false} DistributionsCountEveryPassage(docs: seq<Passage>)
    ensures Sum(Accumulate(TypeVotes(docs))) == |docs|
    ensures Sum(Accumulate(TitleVotes(docs))) == |docs|
  {
    AccumulateCounts(TypeVotes(docs));
    AccumulateCounts(TitleVotes(docs));
    TotalWeightOnes(TypeVotes(docs));
    TotalWeightOnes(TitleVotes(docs));
  }

  // ---------------------------------------------------------------------
  // Numbered replies

  const NumberedReplies: seq<string> := ["1", "2", "3", "4", "5"]

  /** A reply "1" to "5" (surrounding white space aside) picks that option when there is one; anything else stands. */
  function ExpandNumberedReply(input: string, options: seq<string>): string {
    var s := Strip(input);
    if s in NumberedReplies then
      var idx := (s[0] as int - '0' as int) - 1;
      if 0 <= idx < |options| then options[idx] else input
    else input
  }

  /** The reply k, for k from 1 to 5, becomes option k when there are at least k options, and stands otherwise. */
  lemma {:induction false} NumberedReplyPicksOption(input: string, options: seq<string>, k: nat)
    requires 1 <= k <= 5 && Strip(input) == NatToString(k)
    ensures ExpandNumberedReply(input, options) == if k <= |options| then options[k - 1] else input
  {
    assert NatToString(k) == [DigitChar(k)];
  }

  /** Any other input is left as it is. */
  lemma {:induction false} OtherInputStands(input: string, options: seq<string>)
    requires forall k :: 1 <= k <= 5 ==> Strip(input) != NatToString(k)
    ensures ExpandNumberedReply(input, options) == input
  {
    var s := Strip(input);
    if s in NumberedReplies {
      var k: nat := s[0] as int - '0' as int;
      assert s == [DigitChar(k)] == NatToString(k);
      assert false;
    }
  }

  // ---------------------------------------------------------------------
  // The session

  /** What the front end needs of the outside world for one turn. */
  datatype Backend = Backend(
    oracle: QueryFn,
    llm: Answerer,
    baseTopK: nat,
    matchesPattern: PatternMatcher,
    findOptions: string -> seq<string>)

  datatype Role = User | Assistant

  /** A logged message; an answer carries its statistics. */
  datatype Message = Message(role: Role, content: string, stats: Option<TurnStats>)

  /** Whether the turn treats the input as a follow-up: only when there was a previous question. */
  predicate TreatAsFollowup(input: string, ctx: Context, matchesPattern: PatternMatcher) {
    ctx.lastQuestion != "" && IsFollowupMessage(input, ctx, matchesPattern)
  }

  /** The engine's outcome for a turn. */
  function TurnOutcome(input: string, ctx: Context, backend: Backend): QueryOutcome {
    Query(backend.oracle, backend.llm, backend.baseTopK, input, EngineContext(ctx),
          TreatAsFollowup(input, ctx, backend.matchesPattern))
  }

  /** The context the next turn sees: this turn's question and answer, and the primary manual retrieval chose. */
  function NextContext(input: string, result: QueryOutcome): Context {
    var extracted := PrimaryTitle(result.documents).GetOr("");
    Context(
      input,
      result.answer,
      if Truthy(result.primaryTitle) then result.primaryTitle.value else extracted,
      if Truthy(result.primaryType) then result.primaryType.value else "",
      if Truthy(result.primaryBrand) then result.primaryBrand.value else "")
  }

  /**
   * The context update after a turn: the question and answer, and the
   * primary manual, type and brand retrieval chose, the title falling back
   * to the most frequent one among the passages.
   */
  method UpdateContext(input: string, result: QueryOutcome) returns (ctx: Context)
    ensures ctx == NextContext(input, result)
  {
    var primary := ExtractPrimaryManualTitle(result.documents);
    var primaryManual := primary.GetOr("");
    ctx := Context(
      input,
      result.answer,
      if Truthy(result.primaryTitle) then result.primaryTitle.value else primaryManual,
      if Truthy(result.primaryType) then result.primaryType.value else "",
      if Truthy(result.primaryBrand) then result.primaryBrand.value else "");
  }

  /** The options an answer offers, each stripped, in order. */
  function StrippedOptions(found: seq<string>): (r: seq<string>)
    ensures |r| == |found|
    ensures forall i :: 0 <= i < |found| ==> r[i] == Strip(found[i])
  {
    seq(|found|, i requires 0 <= i < |found| => Strip(found[i]))
  }

  /** Messages come in turns: a question at even positions, its answer right after it. */
  predicate Alternating(messages: seq<Message>) {
    |messages| % 2 == 0
    && forall i :: 0 <= i < |messages| ==> messages[i].role == (if i % 2 == 0 then User else Assistant)
  }

  /** A question followed by its answer keeps the log in turns. */
  lemma {:induction false} AlternatingTurn(log: seq<Message>, question: Message, answer: Message)
    requires Alternating(log) && question.role == User && answer.role == Assistant
    ensures Alternating(log + [question, answer])
  {
    var after := log + [question, answer];
    forall i | 0 <= i < |after| ensures after[i].role == (if i % 2 == 0 then User else Assistant) {
      if i < |log| {
        assert after[i] == log[i];
      }
    }
  }

  /** The browser session's state. */
  class ChatSession {
    var messages: seq<Message>
    var shortCtx: Context
    var lastFollowupOptions: seq<string>

    predicate Valid()
      reads this
    {
      Alternating(messages)
    }

    /** A new session: no messages, an empty context, no options. */
    constructor()
      ensures Valid()
      ensures messages == [] && shortCtx == EmptyContext && lastFollowupOptions == []
    {
      messages := [];
      shortCtx := EmptyContext;
      lastFollowupOptions := [];
    }

    /** "Clear Chat History": the log and the context are emptied; the offered options stay. */
    method ClearChatHistory()
      modifies this
      ensures Valid()
      ensures messages == [] && shortCtx == EmptyContext
      ensures lastFollowupOptions == old(lastFollowupOptions)
    {
      messages := [];
      shortCtx := EmptyContext;
    }

    /** The input the turn works on: a numbered reply expanded into the option it picks. */
    method ExpandInput(userInput: string) returns (input: string)
      ensures input == ExpandNumberedReply(userInput, lastFollowupOptions)
    {
      input := userInput;
      if Strip(userInput) in NumberedReplies {
        var idx := (Strip(userInput)[0] as int - '0' as int) - 1;
        if 0 <= idx < |lastFollowupOptions| {
          input := lastFollowupOptions[idx];
        }
      }
    }

    /**
     * The engine answers the input, as a follow-up only after a previous
     * question; the answer's options and the next context are stored, and
     * the answer is returned with its statistics.
     */
    method Respond(input: string, backend: Backend) returns (response: string, stats: TurnStats)
      modifies this
      ensures var result := TurnOutcome(input, old(shortCtx), backend);
        && response == result.answer
        && stats == TurnStats(|result.documents|, result.retries,
             Accumulate(TypeVotes(result.documents)), Accumulate(TitleVotes(result.documents)))
        && shortCtx == NextContext(input, result)
        && lastFollowupOptions == StrippedOptions(backend.findOptions(result.answer))
      ensures messages == old(messages)
    {
      var hasPrev := shortCtx.lastQuestion != "";
      var followup := hasPrev && IsFollowupMessage(input, shortCtx, backend.matchesPattern);
      var result := Query(backend.oracle, backend.llm, backend.baseTopK, input, EngineContext(shortCtx), followup);
      response := result.answer;
      lastFollowupOptions := StrippedOptions(backend.findOptions(response));
      shortCtx := UpdateContext(input, result);
      var equipmentDist, manualDist := Distributions(result.documents);
      stats := TurnStats(|result.documents|, result.retries, equipmentDist, manualDist);
    }

    /**
     * One chat turn: a numbered reply is expanded, the original input is
     * logged, the engine answers the expanded input (as a follow-up only
     * after a previous question), the answer's numbered options are kept
     * for the next turn, the answer is logged with its statistics and the
     * context is updated.  An empty input does nothing.
     */
    method Submit(userInput: string, backend: Backend)
      requires Valid()
      modifies this
      ensures Valid()
      ensures userInput == "" ==>
        messages == old(messages) && shortCtx == old(shortCtx) && lastFollowupOptions == old(lastFollowupOptions)
      ensures userInput != "" ==>
        var input := ExpandNumberedReply(userInput, old(lastFollowupOptions));
        var result := TurnOutcome(input, old(shortCtx), backend);
        && shortCtx == NextContext(input, result)
        && lastFollowupOptions == StrippedOptions(backend.findOptions(result.answer))
        && messages == old(messages) + [
             Message(User, userInput, None),
             Message(Assistant, result.answer, Some(TurnStats(
               |result.documents|, result.retries,
               Accumulate(TypeVotes(result.documents)), Accumulate(TitleVotes(result.documents)))))]
    {
      if userInput == "" {
        return;
      }
      ghost var log := messages;
      var input := ExpandInput(userInput);
      var question := Message(User, userInput, None);
      messages := messages + [question];
      var response, stats := Respond(input, backend);
      var answer := Message(Assistant, response, Some(stats));
      messages := messages + [answer];
      assert messages == log + [question, answer];
      AlternatingTurn(log, question, answer);
    }
  }

  // ---------------------------------------------------------------------
  // What a turn leaves behind

  /**
   * After a turn the context holds the (expanded) question and the answer,
   * the type and brand retrieval chose or "", and the title retrieval chose,
   * or else the most frequent title among the answer's passages, or "".
   */
  lemma {:induction false} ContextAfterTurn(input: string, result: QueryOutcome)
    ensures var ctx := NextContext(input, result);
      && ctx.lastQuestion == input && ctx.lastAnswer == result.answer
      && (Truthy(result.primaryType) ==> ctx.lastEquipmentType == result.primaryType.value)
      && (!Truthy(result.primaryType) ==> ctx.lastEquipmentType == "")
      && (Truthy(result.primaryBrand) ==> ctx.lastBrand == result.primaryBrand.value)
      && (!Truthy(result.primaryBrand) ==> ctx.lastBrand == "")
      && (Truthy(result.primaryTitle) ==> ctx.lastManualTitle == result.primaryTitle.value)
      && (!Truthy(result.primaryTitle) && result.documents != [] ==>
            ctx.lastManualTitle == PrimaryTitle(result.documents).value)
      && (!Truthy(result.primaryTitle) && result.documents == [] ==> ctx.lastManualTitle == "")
  {
  }

  /** The first question of a session, or the first after clearing it, is never treated as a follow-up. */
  lemma {:induction false} FirstQuestionIsFresh(input: string, backend: Backend)
    ensures !TreatAsFollowup(input, EmptyContext, backend.matchesPattern)
    ensures TurnOutcome(input, EmptyContext, backend)
      == Query(backend.oracle, backend.llm, backend.baseTopK, input, EngineContext(EmptyContext), false)
  {
  }

  /**
   * The engine's locks on the next turn come from this turn: a follow-up
   * locks the brand and type retrieval reported, where it reported them.
   */
  lemma {:induction false} NextTurnLocks(input: string, result: QueryOutcome, question: string)
    ensures var plan := PlanQuery(question, EngineContext(NextContext(input, result)), true);
      && (Truthy(result.primaryBrand) ==> plan.lockedBrand == result.primaryBrand)
      && (Truthy(result.primaryType) ==> plan.lockedType == result.primaryType)
      && (Truthy(result.primaryTitle) ==> plan.lockedTitle == result.primaryTitle)
  {
    FollowupLocks(question, EngineContext(NextContext(input, result)));
  }
}
