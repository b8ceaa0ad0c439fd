/**
 * The retrieval engine's entry point: the follow-up locks and the
 * retrieval query worked out from the short-term conversation context, the
 * retrieve-then-generate run, and the context the answer is generated from.
 * The language model is an input.
 */
module Workflow {
  import opened Wrappers
  import opened Text
  import opened Passages
  import opened Keywords
  import opened ChromaClient
  import opened PrimaryManual
  import opened Retrieval
  import opened References

  /** The short-term context the chat front end passes in (None: key absent). */
  datatype ShortCtx = ShortCtx(
    lastQuestion: Option<string>,
    lastManualTitle: Option<string>,
    lastEquipmentType: Option<string>,
    lastBrand: Option<string>)

  /** `value or None`: an empty value counts as no lock. */
  function Lock(o: Option<string>): (r: Option<string>)
    ensures r.Some? ==> r.value != ""
    ensures Truthy(o) ==> r == o
  {
    if Truthy(o) then o else None
  }

  /** `(short_ctx.get("last_question") or "").strip()`. */
  function LastQuestion(ctx: ShortCtx): string {
    Strip(if Truthy(ctx.lastQuestion) then ctx.lastQuestion.value else "")
  }

  /** The locks and the query retrieval starts from. */
  datatype Plan = Plan(retrievalQuery: string, lockedBrand: Option<string>, lockedType: Option<string>, lockedTitle: Option<string>)

  /** Steps 1 and 2 of `query`: locks for a follow-up, inferred where the context lacks them, and the augmented query. */
  function PlanQuery(question: string, ctx: ShortCtx, isFollowup: bool): Plan {
    if !isFollowup then Plan(question, None, None, None)
    else
      var lastQ := LastQuestion(ctx);
      var brand := Lock(ctx.lastBrand);
      var brand := if brand.None? && lastQ != "" then FirstBrand(WorkflowBrandKeywords, Lower(lastQ)) else brand;
      var equipmentType := Lock(ctx.lastEquipmentType);
      var equipmentType := if equipmentType.None? && brand.Some? then TypeForBrand(brand.value) else equipmentType;
      var query := if lastQ != "" then lastQ + "\nFollow-up: " + question else question;
      Plan(query, brand, equipmentType, Lock(ctx.lastManualTitle))
  }

  /** The workflow state retrieval starts from: the question, the retrieval query as the rewritten one, the locks. */
  function InitialState(question: string, plan: Plan): RetrieveIn {
    RetrieveIn(question, Some(plan.retrievalQuery), plan.lockedBrand, plan.lockedType, plan.lockedTitle)
  }

  /** The context block of one passage. */
  function SourceBlock(rank: nat, p: Passage): string {
    "[Source " + NatToString(rank + 1) + "]\n" + p.content
  }

  function SourceBlocks(ps: seq<Passage>): (r: seq<string>)
    ensures |r| == |ps|
  {
    if ps == [] then [] else SourceBlocks(ps[..|ps| - 1]) + [SourceBlock(|ps| - 1, ps[|ps| - 1])]
  }

  /** The context the answer is generated from: the first 12 passages, numbered, separated by blank lines. */
  function AnswerContext(documents: seq<Passage>): string {
    Join(SourceBlocks(Head(documents, 12)), "\n\n")
  }

  /** The language model: the answer text for a context and a question. */
  type Answerer = (string, string) -> string

  /** `generate_answer`: the model's stripped answer, followed by the reference section when there is one. */
  function Answer(llm: Answerer, question: string, documents: seq<Passage>): string {
    var answer := Strip(llm(AnswerContext(documents), question));
    var references := ReferencesSpec(documents);
    if references != "" then answer + references else answer
  }

  /** What `query` returns. */
  datatype QueryOutcome = QueryOutcome(
    question: string,
    answer: string,
    documents: seq<Passage>,
    retries: int,
    primaryTitle: Option<string>,
    primaryType: Option<string>,
    primaryBrand: Option<string>)

  /** `query`: plan, retrieve, generate. */
  function Query(oracle: QueryFn, llm: Answerer, base: nat, question: string, ctx: ShortCtx, isFollowup: bool): QueryOutcome {
    var plan := PlanQuery(question, ctx, isFollowup);
    var retrieved := RetrieveSpec(oracle, InitialState(question, plan), base).out;
    QueryOutcome(question, Answer(llm, question, retrieved.documents), retrieved.documents, 0,
                 retrieved.primaryTitle, retrieved.primaryType, retrieved.primaryBrand)
  }

  // ---------------------------------------------------------------------
  // Properties

  /** A question that is not a follow-up gets no locks and is searched for as it stands. */
  lemma {:induction false} FreshQuestion(question: string, ctx: ShortCtx)
    ensures PlanQuery(question, ctx, false) == Plan(question, None, None, None)
    ensures !Locked(InitialState(question, PlanQuery(question, ctx, false)))
    ensures question != "" ==> QuestionOf(InitialState(question, PlanQuery(question, ctx, false))) == question
  {
  }

  /** Every brand in the engine's tables is non-empty. */
  lemma {:induction false} TableBrandsNonEmpty(t: string)
    ensures FirstBrand(WorkflowBrandKeywords, t).Some? ==> FirstBrand(WorkflowBrandKeywords, t).value != ""
    ensures forall b :: TypeForBrand(b).Some? ==> TypeForBrand(b).value != ""
  {
    BrandTableNonEmpty(WorkflowBrandKeywords, t);
  }

  /**
   * A follow-up locks onto the context's brand, type and title where they
   * are non-empty; a missing brand is the first brand named in the previous
   * question, and a missing type is the brand's type.  Every lock is absent
   * or non-empty.
   */
  lemma {:induction false} FollowupLocks(question: string, ctx: ShortCtx)
    ensures var plan := PlanQuery(question, ctx, true);
      var lastQ := LastQuestion(ctx);
      && (Truthy(ctx.lastBrand) ==> plan.lockedBrand == ctx.lastBrand)
      && (!Truthy(ctx.lastBrand) && lastQ != "" ==>
            plan.lockedBrand == FirstBrand(WorkflowBrandKeywords, Lower(lastQ)))
      && (!Truthy(ctx.lastBrand) && lastQ == "" ==> plan.lockedBrand == None)
      && (Truthy(ctx.lastEquipmentType) ==> plan.lockedType == ctx.lastEquipmentType)
      && (!Truthy(ctx.lastEquipmentType) && plan.lockedBrand.Some? ==>
            plan.lockedType == TypeForBrand(plan.lockedBrand.value))
      && (!Truthy(ctx.lastEquipmentType) && plan.lockedBrand.None? ==> plan.lockedType == None)
      && plan.lockedTitle == Lock(ctx.lastManualTitle)
      && (plan.lockedBrand.Some? ==> plan.lockedBrand.value != "")
      && (plan.lockedType.Some? ==> plan.lockedType.value != "")
  {
    TableBrandsNonEmpty(Lower(LastQuestion(ctx)));
  }

  /** A follow-up with a brand or type lock takes the locked retrieval path; one without takes the voting path. */
  lemma {:induction false} FollowupLockPath(question: string, ctx: ShortCtx)
    ensures var plan := PlanQuery(question, ctx, true);
      Locked(InitialState(question, plan)) <==> plan.lockedBrand.Some? || plan.lockedType.Some?
  {
    FollowupLocks(question, ctx);
  }

  lemma {:induction false} CountCharAppend(a: string, b: string, c: char)
    ensures CountChar(a + b, c) == CountChar(a, c) + CountChar(b, c)
  {
    if a != [] {
      CountCharAppend(a[1..], b, c);
      assert (a + b)[0] == a[0] && (a + b)[1..] == a[1..] + b;
    } else {
      assert a + b == b;
    }
  }

  lemma {:induction false} CountCharAbsent(s: string, c: char)
    requires c !in s
    ensures CountChar(s, c) == 0
  {
    if s != [] {
      CountCharAbsent(s[1..], c);
    }
  }

  lemma {:induction false} FollowupLineHasNoQuestionMark()
    ensures CountChar("\nFollow-up: ", '?') == 0
  {
    CountCharAbsent("\nFollow-up: ", '?');
  }

  /**
   * A follow-up after a previous question searches for the previous
   * question, a "Follow-up:" line and the new question, so the question
   * marks of both count towards the result count.
   */
  lemma {:induction false} FollowupQuery(question: string, ctx: ShortCtx)
    requires LastQuestion(ctx) != ""
    ensures var state := InitialState(question, PlanQuery(question, ctx, true));
      && QuestionOf(state) == LastQuestion(ctx) + "\nFollow-up: " + question
      && CountChar(QuestionOf(state), '?') == CountChar(LastQuestion(ctx), '?') + CountChar(question, '?')
  {
    var lastQ := LastQuestion(ctx);
    assert PlanQuery(question, ctx, true).retrievalQuery == lastQ + "\nFollow-up: " + question;
    assert CountChar(lastQ + "\nFollow-up: " + question, '?') == CountChar(lastQ, '?') + CountChar(question, '?') by {
      CountCharAppend(lastQ, "\nFollow-up: ", '?');
      CountCharAppend(lastQ + "\nFollow-up: ", question, '?');
      FollowupLineHasNoQuestionMark();
    }
  }

  /** Block i of the context is labelled "[Source i+1]" and holds passage i's text. */
  lemma {:induction false} SourceBlocksAt(ps: seq<Passage>, i: nat)
    requires i < |ps|
    ensures SourceBlocks(ps)[i] == "[Source " + NatToString(i + 1) + "]\n" + ps[i].content
  {
    if i < |ps| - 1 {
      SourceBlocksAt(ps[..|ps| - 1], i);
    }
  }

  /** The context holds one numbered block for each of the first 12 passages, and only those are read. */
  lemma {:induction false} AnswerContextBlocks(documents: seq<Passage>)
    ensures var blocks := SourceBlocks(Head(documents, 12));
      && |blocks| == (if |documents| < 12 then |documents| else 12)
      && (forall i :: 0 <= i < |blocks| ==> blocks[i] == "[Source " + NatToString(i + 1) + "]\n" + documents[i].content)
      && AnswerContext(documents) == Join(blocks, "\n\n")
    ensures AnswerContext(documents) == AnswerContext(Head(documents, 12))
  {
    var head := Head(documents, 12);
    forall i | 0 <= i < |head| ensures SourceBlocks(head)[i] == "[Source " + NatToString(i + 1) + "]\n" + documents[i].content {
      SourceBlocksAt(head, i);
    }
    assert Head(head, 12) == head;
  }

  /** The answer ends with the reference section, after the model's stripped text. */
  lemma {:induction false} AnswerEndsWithReferences(llm: Answerer, question: string, documents: seq<Passage>)
    ensures var answer := Answer(llm, question, documents);
      var references := ReferencesSpec(documents);
      && |references| <= |answer|
      && answer[|answer| - |references|..] == references
      && answer[..|answer| - |references|] == Strip(llm(AnswerContext(documents), question))
  {
  }

  /**
   * A question that is not a follow-up gets the same outcome whatever the
   * conversation context holds.
   */
  lemma {:induction false} FreshQueryIgnoresContext(oracle: QueryFn, llm: Answerer, base: nat, question: string,
                                                    ctx: ShortCtx, other: ShortCtx)
    ensures Query(oracle, llm, base, question, ctx, false) == Query(oracle, llm, base, question, other, false)
  {
    FreshQuestion(question, ctx);
    FreshQuestion(question, other);
  }

  /**
   * A follow-up whose context names a brand or a type runs exactly one
   * search, filtered by the locks, reports that search's passages, and
   * reports the context's brand and type as the primary ones.
   */
  lemma {:induction false} FollowupQueryStaysLocked(oracle: QueryFn, llm: Answerer, base: nat, question: string, ctx: ShortCtx)
    requires Truthy(ctx.lastBrand) || Truthy(ctx.lastEquipmentType)
    ensures var plan := PlanQuery(question, ctx, true);
      var s := InitialState(question, plan);
      var r := Query(oracle, llm, base, question, ctx, true);
      && RetrieveSpec(oracle, s, base).calls == [SearchCall(plan.retrievalQuery, TopK(s, base), plan.lockedBrand, plan.lockedType)]
      && r.documents == SearchSpec(oracle, plan.retrievalQuery, TopK(s, base), plan.lockedBrand, plan.lockedType).docs
      && (Truthy(ctx.lastBrand) ==> r.primaryBrand == ctx.lastBrand)
      && (Truthy(ctx.lastEquipmentType) ==> r.primaryType == ctx.lastEquipmentType)
      && (!Truthy(ctx.lastEquipmentType) && Truthy(plan.lockedType) ==> r.primaryType == plan.lockedType)
  {
    var plan := PlanQuery(question, ctx, true);
    var s := InitialState(question, plan);
    FollowupLocks(question, ctx);
    FollowupLockPath(question, ctx);
    assert QuestionOf(s) == plan.retrievalQuery;
    LockedPath(oracle, s, base);
  }

  /** The answer `query` returns ends with the reference section of the passages it reports. */
  lemma {:induction false} QueryAnswerCitesItsDocuments(oracle: QueryFn, llm: Answerer, base: nat, question: string,
                                                        ctx: ShortCtx, isFollowup: bool)
    ensures var r := Query(oracle, llm, base, question, ctx, isFollowup);
      var references := ReferencesSpec(r.documents);
      && |references| <= |r.answer|
      && r.answer[|r.answer| - |references|..] == references
      && r.question == question && r.retries == 0
  {
    var r := Query(oracle, llm, base, question, ctx, isFollowup);
    AnswerEndsWithReferences(llm, question, r.documents);
  }
}
