# Multi-manual equipment assistant: a Dafny model of its decision core

The system answers staff questions about restaurant equipment (POS terminals,
coffee makers, ovens, fryers, ...) from a collection of PDF manuals. Manuals
from a fixed registry are read page by page and cut into chunks that carry a
page number and the manual's metadata. The chunks are stored in a vector store.
A question is answered in three steps:

1. A staged retrieval lets the top stage-one hits vote, rank-weighted, on the
   equipment type and brand.
2. The documents are filtered to the winner when one type dominates.
3. A language model writes the answer, and a reference section citing manual
   titles and pages is appended to it.

A chat front end keeps a short context (last question, answer, manual, type and
brand). A rule cascade decides whether a new message is a follow-up. A
follow-up locks retrieval onto the previous turn's equipment. A command-line
tool offers chunk inspection and keyword search.

This project models that decision layer in Dafny and proves what it promises.

- **Loops become methods.** Each loop of the source (vote counting, page
  grouping, `by_title` counting, batching, metadata sanitising, keyword search,
  chunk numbering) is a `method` with a `while`/`for` loop. Each method is
  proved equal to a specification function, and the properties are proved
  about that function.
- **The chat session is a class.** It is a `class` whose methods update the
  message log, the short context and the offered options.
- **External services are parameters.** These are the vector store query, the
  language model, the PDF reader, the text splitter, the follow-up regular
  expressions and the option extractor. Each is passed in as a function value
  or as data.

Modules:

- **Retrieval engine**
  - `Retrieval`: `retrieve`, with its voting and dominance test.
  - `PrimaryManual`: `_pick_primary_manual`.
  - `References`: `_generate_references`.
  - `Workflow`: `query`, and the context assembly of `generate_answer`.
  - `Keywords`: the keyword tables and first-match detection.
  - `Tally`: insertion-ordered counting dictionaries and `max(d, key=d.get)`.
- **Chat front end**
  - `ChatFrontEnd`: the follow-up classifier, `extract_primary_manual_title`,
    numbered-reply expansion, the session state and one chat turn.
- **Ingestion and store**
  - `DocumentProcessor`: page map, page lookup, chunk records.
  - `ChromaClient`: metadata sanitising, `_where`, the search fallback chain,
    result records, batching.
  - `Registry`: the manual registry.
  - `ManualManager`: per-manual processing and the multi-manual tally.
- **Command-line tool**
  - `DebugCli`: the chunk-id specification parser and keyword search.
- **Shared helpers**
  - `Wrappers`, `Text`, `Sorting`, `Lists`, `Values`, `Passages`: options,
    string functions, insertion sort, list combinators, dynamic values
    and the passage record.

`src/langgraph_workflow.py` defines `_pick_primary_manual` twice. The class
body keeps the later definition (lines 781-819), which ranks titles by
(count, best score). The earlier one (lines 269-302) ranks by count alone and
is never called. The model follows the later definition.

## Model

| member | source | states |
|---|---|---|
| Retrieval.TallyVotes | src/langgraph_workflow.py:167-181 | The vote loop fills the type and the brand dictionaries with exactly the accumulated rank-weighted votes of the window (weight 12 - rank, empty labels skipped). |
| Retrieval.CastVotes | src/langgraph_workflow.py:170-181 | One pass of the vote loop extends both dictionaries to the votes of the passages counted so far plus this one. |
| Retrieval.LabelledVote | src/langgraph_workflow.py:178-181 | A passage with a non-empty label adds weight 12 minus its rank to that label. |
| Retrieval.UnlabelledVote | src/langgraph_workflow.py:178-181 | A passage without the label casts no vote. |
| Retrieval.VotesSnoc | src/langgraph_workflow.py:170-181 | The passage after the others votes last, with weight 12 minus its rank, and only when its label is non-empty. |
| Retrieval.RetrieveSpec | src/langgraph_workflow.py:73-262 | Defines `retrieve` as a value: locked questions get one filtered search and keep their locks; otherwise a wide stage-one search votes, a dominant type triggers a filtered re-search, and the result and search calls are those `Retrieve` is proved to produce (the paths are characterised in `LockedPath` and `UnlockedPath`). |
| Retrieval.Retrieve | src/langgraph_workflow.py:73-262 | The retrieval step returns exactly the output and search-call sequence of the specification of `retrieve`. |
| Retrieval.EffectiveTopK | src/langgraph_workflow.py:93-100 | The result count scaled by the number of '?' when there are several; `TopKBounds` proves it never drops below the configured count and grows exactly for several '?'. |
| Retrieval.Stage1TopK | src/langgraph_workflow.py:142 | `max(top_k * 2, 16)`; `TopKBounds` proves it is at least 16 and at least twice the result count. |
| Retrieval.TopKBounds | src/langgraph_workflow.py:93-100 | The result count is at least the configured one. It differs from it exactly when the question holds several '?'. The stage-one count is at least 16 and at least twice the result count (line 142). |
| Retrieval.LockedPath | src/langgraph_workflow.py:110-133 | With a brand or type lock, exactly one search runs, filtered by the locks. The locks come back unchanged. A non-empty lock is the primary type or brand; otherwise the primary manual's value is. |
| Retrieval.UnlockedPath | src/langgraph_workflow.py:138-262 | Without a lock, an unfiltered search for max(2k, 16) results runs first. A second search, filtered to the vote winners, runs exactly when the winner holds at least 60% of the type votes. Otherwise the documents are the first min(k, n) stage-one results. Either way the locks returned are the winners, or the primary manual's fields where nothing won. |
| Retrieval.VoteWeights | src/langgraph_workflow.py:170-181 | At most 12 passages vote. Every vote names a non-empty label and weighs between 1 and 12. |
| Retrieval.LabelledWeight | src/langgraph_workflow.py:176-181 | A labelled passage appends one vote and adds its weight to the total. |
| Retrieval.VoteLabels | src/langgraph_workflow.py:170-181 | A label receives votes if and only if some passage in the window carries it. |
| Retrieval.VotedSnoc | src/langgraph_workflow.py:178-181 | One more passage adds a vote for a label exactly when it carries that label. |
| Retrieval.LabelledSnoc | src/langgraph_workflow.py:170-173 | One more passage carries a label exactly when it or an earlier passage does. |
| Retrieval.Winner | src/langgraph_workflow.py:190-198 | Defines `max(votes, key=votes.get)`: no winner for no votes, else the key at the first maximum; `WinnerIsFirstMaximum` proves it holds the most votes and ties go to the earliest key. |
| Retrieval.WinnerIsFirstMaximum | src/langgraph_workflow.py:190-198 | The detected label was voted for, and no label holds more weight. Every label inserted before it holds strictly less, as `max(votes, key=votes.get)` returns. |
| Retrieval.NoTypeLabels | src/langgraph_workflow.py:225-228 | When no passage among the top 12 has a type, only one search runs and the documents are the head of the stage-one results. |
| Retrieval.VotesAllFor | src/langgraph_workflow.py:178-179 | When the window holds a single type, every type vote names it. |
| Retrieval.OneTypeVotes | src/langgraph_workflow.py:178-192 | Votes on a single type produce a dictionary with that type alone, holding all the positive weight. |
| Retrieval.Dominant | src/langgraph_workflow.py:204-219 | Defines the clear-winner test: some votes, and the winner holds at least 60% of the total (stated in integers); `OneTypeDominates` proves that when every labelled stage-one vote is for one type, retrieval re-searches filtered to that type. |
| Retrieval.OneTypeDominates | src/langgraph_workflow.py:204-219 | When every labelled passage among the top 12 has the same type, that type dominates. A second search runs, filtered to it and to the detected brand, and it becomes the type lock. |
| Tally.AccumulateSnoc | src/langgraph_workflow.py:179 | One more vote updates the dictionary built by the earlier votes. |
| Tally.AddKeys | src/langgraph_workflow.py:179 | `d[k] = d.get(k, 0) + w` keeps existing keys in place and appends a new key last. |
| Tally.AddCounts | src/langgraph_workflow.py:179 | Adding a vote adds its weight to its own key and to the sum, and no other key changes. |
| Tally.AddDistinct | src/langgraph_workflow.py:179 | The dictionary's keys stay distinct. |
| Tally.AccumulateCounts | src/langgraph_workflow.py:178-192 | For every key, the accumulated dictionary holds exactly the weight the votes gave it, and its values sum to the total weight. |
| Tally.AccumulateKeys | src/langgraph_workflow.py:178-181 | The dictionary has distinct keys, and holds a key exactly when some vote named it. |
| Tally.AccumulateOrder | src/langgraph_workflow.py:178-181 | Keys are stored in the order in which votes first name them. |
| Tally.StoredKeyVoted | src/langgraph_workflow.py:178-181 | Every key in the dictionary was named by some vote. |
| Tally.VotedKeyStored | src/langgraph_workflow.py:178-181 | Every key a vote names is in the dictionary. |
| Tally.LookupAt | src/langgraph_workflow.py:207 | Looking up a stored key returns the count stored with it. |
| Tally.LookupIsStored | src/langgraph_workflow.py:207 | A key's count is 0 when it is absent, and otherwise the count stored with it. |
| Tally.BestIndex | src/langgraph_workflow.py:191 | `max` picks an entry holding the largest count, and every earlier entry holds strictly less. |
| Tally.BestHoldsMost | src/langgraph_workflow.py:191 | No key counts more than the key `max` picks. |
| Tally.SingleKey | src/langgraph_workflow.py:178-179 | Votes that all name one key accumulate into that key alone, with the whole weight. |
| PrimaryManual.Record | src/langgraph_workflow.py:798-806 | Counting a passage adds at most one entry to `by_title`. |
| PrimaryManual.BestStat | src/langgraph_workflow.py:808-813 | The chosen entry has the largest (count, best score). Every entry before it is strictly smaller, which is what a stable descending sort puts first. |
| PrimaryManual.RecordAt | src/langgraph_workflow.py:798-806 | A passage is counted into the first entry with its title, or into a new last entry created with its type and brand. |
| PrimaryManual.FindTitle | src/langgraph_workflow.py:798 | The search finds the first entry with the title, or reports that there is none. |
| PrimaryManual.CountByTitle | src/langgraph_workflow.py:790-806 | The `by_title` loop builds exactly the specification's `by_title`. |
| PrimaryManual.FirstBest | src/langgraph_workflow.py:808-813 | The scan finds the first entry of largest (count, best score). |
| PrimaryManual.PickSpec | src/langgraph_workflow.py:781-819 | Defines the primary manual of the later `_pick_primary_manual`: none for no passages, else the title with the most passages (ties to the better best score, then first seen) with its type and brand; proved in `PrimaryIsMostFrequent`, `PrimaryTiesGoToFirstSeen` and `PrimaryTypeAndBrand`. |
| PrimaryManual.PickPrimaryManual | src/langgraph_workflow.py:781-819 | `_pick_primary_manual` returns exactly the specification's title, type and brand. |
| PrimaryManual.RecordShape | src/langgraph_workflow.py:798-806 | Counting keeps titles distinct. It bumps only the entry with the passage's title and appends a fresh entry when the title is new. |
| PrimaryManual.SeenStep | src/langgraph_workflow.py:791-793 | A title is seen in a list of passages exactly when it is seen before the last passage or on it. |
| PrimaryManual.ListedStep | src/langgraph_workflow.py:798-804 | Counting a passage lists its title and keeps every title listed before. |
| PrimaryManual.ByTitleTitles | src/langgraph_workflow.py:790-806 | `by_title` lists each title that is seen, exactly once. |
| PrimaryManual.ByTitleCounts | src/langgraph_workflow.py:805-806 | Each entry counts the passages with its title and holds their best score, floored at 0. |
| PrimaryManual.NeverSeen | src/langgraph_workflow.py:798-806 | A title that no passage carries has count 0 and best score 0. |
| PrimaryManual.ByTitleOrder | src/langgraph_workflow.py:798-804 | Titles are listed in the order they are first seen. |
| PrimaryManual.ByTitleFirstPassage | src/langgraph_workflow.py:798-804 | Each entry keeps the type and brand of the first passage carrying its title. |
| PrimaryManual.PrimaryIsMostFrequent | src/langgraph_workflow.py:787-819 | The result is all-absent exactly for no passages. Otherwise the primary title is carried by some passage, and no title has a larger (count, best score). |
| PrimaryManual.PrimaryTiesGoToFirstSeen | src/langgraph_workflow.py:808-813 | A title tying with the primary title was first seen no earlier than it. |
| PrimaryManual.PrimaryTypeAndBrand | src/langgraph_workflow.py:815-819 | The primary type and brand are those of the first passage carrying the primary title. |
| References.AddPage | src/langgraph_workflow.py:367-370 | Adding a page grows the grouping by at most one entry. |
| References.CollectPages | src/langgraph_workflow.py:350-370 | The grouping loop over the first five passages builds exactly the specification's `manual_pages`. |
| References.WriteParts | src/langgraph_workflow.py:377-404 | The loop writes one part per manual, in the order given. |
| References.LayOut | src/langgraph_workflow.py:406-413 | The loop lays out the single-reference line or the header and bullets. |
| References.ReferencesSpec | src/langgraph_workflow.py:334-415 | Defines `_generate_references`: empty without passages or without cited pages among the first five, else one header and one part per manual ordered by title; `GenerateReferences` is proved to compute it and `ReferencesEmpty`/`ReferenceLayout` characterise it. |
| References.GenerateReferences | src/langgraph_workflow.py:334-415 | `_generate_references` returns exactly the specification's reference section. |
| References.AddPageAt | src/langgraph_workflow.py:367-370 | A page goes into the first group with its title, or into a new last group. |
| References.AddPageShape | src/langgraph_workflow.py:367-370 | Adding a page keeps titles distinct and touches only the entry for its title. |
| References.AddToSetDistinct | src/langgraph_workflow.py:370 | The page set stays duplicate-free and gains exactly the added page. |
| References.GroupsShape | src/langgraph_workflow.py:350-370 | There is one entry per title. Each title is non-empty and holds between 1 and (number of passages) distinct pages. |
| References.AddPageHolds | src/langgraph_workflow.py:367-370 | After adding, the groups hold a (title, page) exactly when they held it before or it is the added one. |
| References.AddPageKeeps | src/langgraph_workflow.py:367-370 | Adding a page keeps every (title, page) the groups held. |
| References.AddPageAdds | src/langgraph_workflow.py:367-370 | After adding, the groups hold the added (title, page). |
| References.AddPageOnlyAdds | src/langgraph_workflow.py:367-370 | Adding a page adds no other (title, page). |
| References.GroupsCover | src/langgraph_workflow.py:354-370 | A title holds a page exactly when some passage read is cited under that title and page. |
| References.GroupsEmpty | src/langgraph_workflow.py:367-375 | Nothing is grouped exactly when no passage has a title and a page. |
| References.ReferencesEmpty | src/langgraph_workflow.py:345-375 | The section is empty exactly when no passage among the first five has both a non-empty title and a page. |
| References.TitleLeIsTotalPreorder | src/langgraph_workflow.py:379 | Ordering manuals by title is a total preorder. |
| References.SortedGroupsShape | src/langgraph_workflow.py:354-380 | The manuals come out in strictly ascending title order, as a permutation of the groups, each with 1 to 5 distinct pages. |
| References.FormatPages | src/langgraph_workflow.py:382-402 | Defines the page reference: one page, two pages, up to five listed, a consecutive run as a range, else the first three and how many more; `FormatShortLists` and `OnlyShortPageLists` state the cases reachable from the five passages read. |
| References.FormatShortLists | src/langgraph_workflow.py:384-390 | One page is written "Page N". Two to five pages are written "Pages a, b, ...". |
| References.OnlyShortPageLists | src/langgraph_workflow.py:380-402 | Every page list written is a strictly ascending permutation of at most five pages. The consecutive-range and "and K more" formats are never reached. |
| References.BulletsHaveLines | src/langgraph_workflow.py:411-413 | Every part gets its bullet line. |
| References.LayoutLines | src/langgraph_workflow.py:406-413 | One part gives the "Reference:" line. Several give the "References:" header and a bullet line for each. |
| References.ReferenceLayout | src/langgraph_workflow.py:377-415 | A non-empty section is laid out from the title-sorted manuals. A single manual gets one line; several get the header and one bullet per manual. |
| Sorting.InsertLowerBound | src/langgraph_workflow.py:378-379 | Inserting keeps every lower bound of the element and the list. |
| Sorting.InsertPermutes | src/langgraph_workflow.py:378-379 | Inserting adds exactly the one element. |
| Sorting.InsertCorrect | src/langgraph_workflow.py:378-379 | Inserting into a sorted list gives a sorted list with exactly one more element. |
| Sorting.SortCorrect | src/langgraph_workflow.py:378-379 | `sorted` returns an ordered permutation of its input. |
| Sorting.LexLeTotal | src/langgraph_workflow.py:378 | Any two titles are comparable. |
| Sorting.LexLeTransitive | src/langgraph_workflow.py:378 | Title comparison is transitive. |
| Sorting.LexLeAntisymmetric | src/langgraph_workflow.py:378 | Two titles each no greater than the other are equal. |
| Sorting.SortedDistinctInts | src/langgraph_workflow.py:379 | Sorting a set of pages gives strictly ascending pages. |
| Sorting.DistinctMultiset | src/langgraph_workflow.py:379 | A permutation of a duplicate-free list is duplicate-free. |
| Workflow.PlanQuery | src/langgraph_workflow.py:723-747 | Defines steps 1 and 2 of `query`: no locks and the bare question for a fresh question; for a follow-up the context's locks, the brand inferred from the last question and the type from the brand when missing, and the question appended to the last one; proved in `FreshQuestion`, `FollowupLocks`, `FollowupLockPath` and `FollowupQuery`. |
| Workflow.Lock | src/langgraph_workflow.py:728-730 | `value or None` keeps a non-empty value and never yields an empty lock. |
| Workflow.SourceBlocks | src/langgraph_workflow.py:427-430 | There is one context block per passage. |
| Workflow.InitialState | src/langgraph_workflow.py:749-764 | The workflow state retrieval starts from; `FreshQuestion`, `FollowupLockPath` and `FollowupQuery` prove which path and query it leads to. |
| Workflow.FreshQuestion | src/langgraph_workflow.py:723-764 | A question that is not a follow-up gets no locks and is searched for as it stands. |
| Workflow.TableBrandsNonEmpty | src/langgraph_workflow.py:687-718 | Every brand the engine's tables produce is non-empty. |
| Workflow.FollowupLocks | src/langgraph_workflow.py:727-738 | A follow-up takes the context's non-empty brand, type and title as locks. A missing brand is inferred from the previous question by the first matching keyword. A missing type comes from the brand's type. No lock is empty. |
| Workflow.FollowupLockPath | src/langgraph_workflow.py:727-738 | A follow-up takes the locked retrieval path exactly when it has a brand or type lock. |
| Workflow.CountCharAppend | src/langgraph_workflow.py:94 | Counting a character distributes over concatenation. |
| Workflow.CountCharAbsent | src/langgraph_workflow.py:94 | A character that does not occur counts 0. |
| Workflow.FollowupQuery | src/langgraph_workflow.py:743-751 | A follow-up after a previous question searches for "<previous>\nFollow-up: <question>", so both questions' '?' count towards the result count. |
| Workflow.SourceBlocksAt | src/langgraph_workflow.py:427-430 | Block i is labelled "[Source i+1]" and holds passage i's content. |
| Workflow.AnswerContext | src/langgraph_workflow.py:425-430 | Defines the generation context: the first twelve passages as numbered source blocks separated by blank lines; `AnswerContextBlocks` proves the numbering and the limit. |
| Workflow.AnswerContextBlocks | src/langgraph_workflow.py:425-430 | The context holds one numbered block for each of the first 12 passages, joined by blank lines, and depends only on them. |
| Workflow.Answer | src/langgraph_workflow.py:622-632 | Defines `generate_answer`: the model's stripped answer followed by the reference section when it is not empty; `AnswerEndsWithReferences` proves that shape. |
| Workflow.AnswerEndsWithReferences | src/langgraph_workflow.py:622-632 | The answer is the model's stripped text followed by the reference section. |
| Workflow.Query | src/langgraph_workflow.py:749-776 | Defines `query`: plan, retrieve, answer, with zero retries; `FreshQueryIgnoresContext`, `FollowupQueryStaysLocked` and `QueryAnswerCitesItsDocuments` state what its result promises. |
| Workflow.FreshQueryIgnoresContext | src/langgraph_workflow.py:723-776 | A question that is not a follow-up gets the same outcome whatever the conversation context holds: locks and query augmentation apply only to follow-ups. |
| Workflow.FollowupQueryStaysLocked | src/langgraph_workflow.py:727-776 | A follow-up whose context has a brand or a type runs exactly one search, filtered by the locks, reports that search's passages, and reports the context's brand and type (or the brand's type) as the primary ones. |
| Workflow.QueryAnswerCitesItsDocuments | src/langgraph_workflow.py:622-632 | The answer `query` returns ends with the reference section of the very passages it reports, and the retry count is 0. |
| Keywords.FirstBrand | src/langgraph_workflow.py:702-705 | The brand of the first table entry whose keyword occurs; `FirstBrandIsFirstMatch` proves it is the first match and none when nothing matches. |
| Keywords.FirstBrandIsFirstMatch | src/langgraph_workflow.py:702-705 | The inferred brand is that of the first table entry whose keyword occurs in the text, and it is absent exactly when no keyword occurs. |
| Keywords.InferBrandFromText | src/langgraph_workflow.py:685-705 | `infer_brand_from_text` returns the first-match brand of the lower-cased text, by the engine's table. |
| Keywords.ScanBrands | streamlit_app.py:62-65 | The brand loop returns the brand of the first entry whose keyword the text contains, or none. |
| Keywords.FirstType | streamlit_app.py:68-74 | The type of the first table entry with a keyword that occurs; `FirstTypeIsFirstMatch` proves it is the first match and none when nothing matches. |
| Keywords.FirstTypeIsFirstMatch | streamlit_app.py:68-74 | No type exactly when no keyword of any entry occurs; otherwise the type of an entry with a keyword that occurs, every earlier entry having none. |
| Keywords.ScanTypes | streamlit_app.py:68-74 | The type loop returns the first type one of whose keywords the text contains, or none. |
| Keywords.BrandTableNonEmpty | src/langgraph_workflow.py:702-705 | A table whose brands are non-empty never yields an empty brand. |
| Keywords.DetectEquipmentInQuery | streamlit_app.py:49-76 | The detector returns the first-match brand and the first type with a contained keyword, case-insensitively, by the front end's tables. |
| Keywords.BrandTablesDisagree | streamlit_app.py:21-35 | A text naming both "vulcan" and "la marzocco", and no brand listed before them, gives "La Marzocco" in the engine and "Vulcan" in the front end, because the two tables order those keywords differently. |
| Keywords.SkipUnmatched | streamlit_app.py:62-65 | Entries whose keywords do not occur can be skipped without changing the first match. |
| ChatFrontEnd.IsFollowupMessage | streamlit_app.py:79-142 | Defines the follow-up classifier as its ordered cascade of rules; `FollowupRules` proves each rule's verdict and `FollowupAgreesWithContext` that a follow-up never contradicts the context. |
| ChatFrontEnd.FollowupRules | streamlit_app.py:79-142 | Each rule of the cascade, in order. Empty text, a brand or type change, or equipment named without any context is never a follow-up. Past those rules, a message is a follow-up exactly when it has at most 6 words, or it matches a pattern and names no equipment. |
| ChatFrontEnd.FollowupAgreesWithContext | streamlit_app.py:97-122 | A follow-up never names a brand or type other than the context's, names equipment only when the context has some, and then has at most 6 words. |
| ChatFrontEnd.DetectionNonEmpty | streamlit_app.py:21-46 | Detected brands and types are never empty, so detection and truthiness coincide. |
| ChatFrontEnd.TypeTableNonEmpty | streamlit_app.py:68-74 | A type table with non-empty names yields non-empty types. |
| ChatFrontEnd.ShownTitle | streamlit_app.py:155 | The title a passage counts under: its stored title, or "Unknown Manual"; `TitleVotes` and `PrimaryTitleIsMostFrequent` count passages under it. |
| ChatFrontEnd.TitleVotes | streamlit_app.py:153-156 | Each passage casts one vote, for the title it shows. |
| ChatFrontEnd.TypeVotes | streamlit_app.py:341-343 | Each passage casts one vote, for its equipment type. |
| ChatFrontEnd.PrimaryTitle | streamlit_app.py:145-158 | A title exists exactly when there are passages. |
| ChatFrontEnd.TitleVotesCount | streamlit_app.py:153-156 | The title votes give each title the number of passages showing it. |
| ChatFrontEnd.TitleTally | streamlit_app.py:152-156 | `counts` has distinct titles and holds, for each title, the number of passages showing it. |
| ChatFrontEnd.PrimaryTitleIsMostFrequent | streamlit_app.py:145-158 | The result is None exactly for no passages. Otherwise it is a title some passage shows, and no title is shown more often. |
| ChatFrontEnd.PrimaryTitleTiesGoToFirstSeen | streamlit_app.py:158 | A title shown as often as the chosen one was first shown no earlier. |
| ChatFrontEnd.VotesPrefix | streamlit_app.py:153-156 | Each further passage adds one vote at the end. |
| ChatFrontEnd.ExtractPrimaryManualTitle | streamlit_app.py:145-158 | The counting loop and `max` return exactly the most-frequent first-seen title. |
| ChatFrontEnd.Distributions | streamlit_app.py:338-347 | The distribution loop builds the per-type and per-title counts of the passages. |
| ChatFrontEnd.TotalWeightOnes | streamlit_app.py:343 | Unit votes add up to their number. |
| ChatFrontEnd.DistributionsCountEveryPassage | streamlit_app.py:338-347 | Each distribution's counts add up to the number of passages. |
| ChatFrontEnd.ExpandNumberedReply | streamlit_app.py:264-269 | Defines the numbered-reply expansion: a stripped reply "1" to "5" becomes that option when there is one; `NumberedReplyPicksOption` and `OtherInputStands` prove both directions. |
| ChatFrontEnd.NumberedReplyPicksOption | streamlit_app.py:264-269 | A reply "k" (1 to 5) becomes option k when there are at least k options, and stays as it is otherwise. |
| ChatFrontEnd.OtherInputStands | streamlit_app.py:264 | Any other input is left unchanged. |
| ChatFrontEnd.StrippedOptions | streamlit_app.py:304-305 | The stored options are the found options, stripped, in order. |
| ChatFrontEnd.AlternatingTurn | streamlit_app.py:272-359 | Logging a question and then its answer keeps the log in question/answer turns. |
| ChatFrontEnd.ChatSession.constructor | streamlit_app.py:193-207 | A new session has no messages, an empty five-field context and no options. |
| ChatFrontEnd.ChatSession.ClearChatHistory | streamlit_app.py:225-233 | Clearing empties the log and resets all five context fields to "", and keeps the offered options. |
| ChatFrontEnd.ChatSession.ExpandInput | streamlit_app.py:261-270 | The turn's input is the numbered reply expanded with the stored options. |
| ChatFrontEnd.ChatSession.Respond | streamlit_app.py:286-359 | The engine answers, as a follow-up only after a previous question. The new options, the new context and the turn statistics are stored, and the log is unchanged. |
| ChatFrontEnd.TreatAsFollowup | streamlit_app.py:286-287 | A turn is a follow-up only when there was a previous question and the classifier says so; `FirstQuestionIsFresh` proves the first question of a session never is. |
| ChatFrontEnd.TurnOutcome | streamlit_app.py:294-298 | The engine's `query` on the input with the session's context and follow-up flag; `ChatSession.Respond` stores its answer and context, and `FirstQuestionIsFresh` shows the first turn runs unlocked. |
| ChatFrontEnd.UpdateContext | streamlit_app.py:309-319 | The next context holds the question, the answer, and the reported title (or the most frequent one), type and brand. |
| ChatFrontEnd.ChatSession.Submit | streamlit_app.py:255-359 | An empty input changes nothing. Otherwise the original input and the answer, with its statistics, are appended to the log, and the context and options become those of this turn. The log stays in turns. |
| ChatFrontEnd.NextContext | streamlit_app.py:309-319 | Defines the context the next turn sees: the question, the answer and the primary manual, type and brand, the title falling back to the most frequent among the passages; `ContextAfterTurn` and `NextTurnLocks` state its consequences. |
| ChatFrontEnd.ContextAfterTurn | streamlit_app.py:309-319 | The next context holds the expanded question, the answer, and the type and brand (or ""). The title is the reported title, or else the most frequent title (or ""). |
| ChatFrontEnd.FirstQuestionIsFresh | streamlit_app.py:286-298 | The first question of a session, or the first after clearing, is never a follow-up. |
| ChatFrontEnd.NextTurnLocks | streamlit_app.py:313-319 | A follow-up on the next turn locks the brand, type and title this turn reported, wherever they were reported. |
| DocumentProcessor.PagedText | src/document_processor.py:54-60 | Defines the extracted text: each page's marker then its text, pages in order; `PagedTextPrefix` and `PageMapTilesText` relate it to the page map. |
| DocumentProcessor.PageMapOf | src/document_processor.py:54-66 | Defines the page map: page k spans the text added for it; `PageMapEntries`, `PageRange` and `PageMapTilesText` prove the pages are numbered from 1 and tile the text. |
| DocumentProcessor.ExtractText | src/document_processor.py:46-66 | The text is each page's marker and text, in page order, and the page map is the one recorded alongside it. |
| DocumentProcessor.PageMapEntries | src/document_processor.py:54-66 | Entry k is page k+1 and spans from the end of page k's text to the end of page k+1's. |
| DocumentProcessor.PagedTextPrefix | src/document_processor.py:60 | The text of the first k pages is a prefix of the whole text. |
| DocumentProcessor.PageRange | src/document_processor.py:56-66 | Range k is non-empty and holds exactly page k+1's marker and text. |
| DocumentProcessor.PageMapTilesText | src/document_processor.py:54-66 | The page map covers the whole text. It starts at 0, each page starts where the previous one ends, and the last ends at the text's end. Every range is non-empty and holds its page. |
| DocumentProcessor.FindPage | src/document_processor.py:80-100 | Defines `_find_page_for_position`: the first page whose range holds the position, else page 1; `FindPageFirstMatch`, `FindPageNoMatch`, `FindPageInText` and `FindPageOutsideText` prove both cases. |
| DocumentProcessor.FindPageForPosition | src/document_processor.py:80-100 | The loop returns the first page whose range holds the position, or else 1. |
| DocumentProcessor.FindPageNoMatch | src/document_processor.py:99-100 | When no range holds the position, the answer is page 1. |
| DocumentProcessor.FindPageFirstMatch | src/document_processor.py:95-97 | The answer is the page of the first range holding the position. |
| DocumentProcessor.FindPageInText | src/document_processor.py:95-97 | For a position inside the text, exactly one page's range holds it, and the lookup returns that page. |
| DocumentProcessor.FindPageOutsideText | src/document_processor.py:99-100 | A position outside the text falls back to page 1. |
| DocumentProcessor.Ascending | src/document_processor.py:56-66 | In a tiled map, earlier ranges end before later ones start. |
| DocumentProcessor.Locate | src/document_processor.py:95-97 | In a tiled map, every position within it lies in some range. |
| DocumentProcessor.ChunkDocument | src/document_processor.py:102-159 | There is one record per chunk, and record i is chunk i's record. |
| DocumentProcessor.ChunkRecord | src/document_processor.py:126-151 | Defines one chunk's record: id, content, number, total, the page when a page map is given, then the caller's metadata on top; `ChunkRecordFields` proves what each key holds. |
| DocumentProcessor.ChunkRecordFields | src/document_processor.py:126-151 | Caller metadata wins. Otherwise record i has id "chunk_i", chunk_id i, the chunk count and the content. A page number is present exactly when a page map is given, and it is the page of the chunks' prefix length. |
| DocumentProcessor.OverrunChunksFallBackToPageOne | src/document_processor.py:146-147 | A chunk whose running position is past the text's end is put on page 1. |
| DocumentProcessor.PdfDocuments | src/document_processor.py:161-186 | What `process_pdf` yields: one record per chunk of the paged text; `ProcessPdf` is proved to compute it and `ChunkRecordFields` states each record's fields. |
| DocumentProcessor.ProcessPdf | src/document_processor.py:161-186 | `process_pdf` yields the chunk records of the extracted text, one per chunk from the splitter. |
| ChromaClient.Clean | src/chroma_client.py:79-83 | A kept value is simple. A simple value is kept unchanged. |
| ChromaClient.Sanitized | src/chroma_client.py:76-84 | Exactly the keys whose value is not None are kept. Simple values are unchanged and others become their string form. |
| ChromaClient.SanitizeMetadata | src/chroma_client.py:70-84 | The loop computes exactly the sanitised metadata. |
| ChromaClient.SanitizeIdempotent | src/chroma_client.py:70-84 | Sanitising never adds keys and is idempotent. |
| ChromaClient.StoredMetadataFields | src/chroma_client.py:107-120 | Stored metadata holds only indexing keys. A missing key gets its default, except page number and URL, which stay missing. A present non-None value is kept, cleaned. |
| ChromaClient.NoPageNoUrl | src/chroma_client.py:112-120 | A missing page number or URL is not stored. |
| ChromaClient.Chain | src/chroma_client.py:129-130 | Chained batches run forwards. |
| ChromaClient.ChainSnoc | src/chroma_client.py:129-130 | A batch starting where the chain ends extends it. |
| ChromaClient.SlicesCover | src/chroma_client.py:129-137 | Batches chained from 0 to n add every item exactly once, in order. |
| ChromaClient.BatchBounds | src/chroma_client.py:128-130 | Batch b is [100b, min(100b+100, n)), and the batches chain from 0 to n. |
| ChromaClient.MapSnoc | src/chroma_client.py:99-120 | Mapping over one more document appends its image. |
| ChromaClient.IndexDocuments | src/chroma_client.py:86-137 | The contents and sanitised metadata of every document, in order, are added in 100-item batches covering all of them. |
| ChromaClient.Where | src/chroma_client.py:189-199 | There is no filter exactly when neither brand nor type is non-empty. |
| ChromaClient.WhereSelects | src/chroma_client.py:189-199 | The filter passes exactly the records matching the given non-empty brand and type. |
| ChromaClient.MetaOf | src/chroma_client.py:179-184 | The metadata fields the result mapping reads: title, type, brand and source as strings, page and chunk id as integers, each absent when the key is missing; `HitPassageDefaults` proves every passage field takes the stored value or the source's default. |
| ChromaClient.HitPassage | src/chroma_client.py:171-185 | Defines the passage built from one hit: score 1 - distance when distances are returned, and each field from the metadata or its default; `HitPassageDefaults` proves the defaults. |
| ChromaClient.HitPassageDefaults | src/chroma_client.py:171-185 | A result record repeats its metadata, with the defaults chunk 0, source "unknown", page "N/A", type and brand "unknown" and title "Unknown Manual". Missing metadata gives all the defaults. |
| ChromaClient.HitPassages | src/chroma_client.py:172-186 | There is one passage per hit, in order. |
| ChromaClient.RunQuery | src/chroma_client.py:155-186 | `_run_query` maps every hit to its passage record. |
| ChromaClient.SearchSpec | src/chroma_client.py:144-214 | Defines `search`'s fallback chain: brand and type, then type alone when a type was given, then no filter; `Search` is proved to compute it and `SearchFallback`/`BrandOnlySkipsTypeOnly` characterise it. |
| ChromaClient.Search | src/chroma_client.py:144-214 | `search` runs exactly the specification's chain of queries and returns its result. |
| ChromaClient.SearchFallback | src/chroma_client.py:201-214 | The strict query runs first, and at most three queries run. The result is the first non-empty stage, or the unfiltered result. |
| ChromaClient.BrandOnlySkipsTypeOnly | src/chroma_client.py:205-212 | A brand-only search whose strict query is empty goes straight to the unfiltered query. |
| Registry.ToMetadata | config/manual_registry.py:22-33 | The metadata has exactly the eight keys, with the source being the path's basename. |
| Registry.ValidateManuals | config/manual_registry.py:117-126 | available + missing = total registered, and the lists summarise the two partitions in order. |
| Registry.AvailableManuals | config/manual_registry.py:105-106 | Defines `get_available_manuals`: the manuals whose PDF exists, in order; `AvailableMissingPartition` proves it and `MissingManuals` split the registry. |
| Registry.MissingManuals | config/manual_registry.py:108-109 | Defines `get_missing_manuals`: the manuals whose PDF does not exist, in order; `AvailableMissingPartition` proves the split. |
| Registry.AvailableMissingPartition | config/manual_registry.py:105-109 | Available and missing manuals partition the registry by file existence. |
| Registry.ByEquipmentType | config/manual_registry.py:111-112 | Defines `get_by_equipment_type`: the manuals of one type, in order; `SelectionsAreExact` proves it keeps exactly those. |
| Registry.ByTier | config/manual_registry.py:114-115 | Defines `get_by_tier`: the manuals of one tier, in order; `SelectionsAreExact` proves it keeps exactly those. |
| Registry.SelectionsAreExact | config/manual_registry.py:111-115 | The type and tier queries return exactly the manuals with that field, with multiplicity. |
| Registry.RegisteredBrandsHaveTheirType | config/manual_registry.py:51-98 | Every registered manual's brand maps to its own type in the engine's brand-to-type table. |
| Registry.BasenameIsFileName | config/manual_registry.py:25 | The basename holds no '/', and the path is a directory prefix followed by it. |
| ManualManager.ManualOutcome | src/manual_manager.py:25-77 | Defines the outcome of `process_manual`: "PDF not found" for a missing file, the reader's error, or success with the chunks; `ProcessManual` is proved to compute it and `OutcomeCases` characterises it. |
| ManualManager.ProcessManual | src/manual_manager.py:25-77 | `process_manual` returns exactly the outcome record. |
| ManualManager.OutcomeCases | src/manual_manager.py:40-77 | Success holds exactly when the file exists and reads. A success carries its documents and their count and no error. A failure carries an error, "PDF not found: <path>" for a missing file. |
| ManualManager.ChunksCarryManualMetadata | src/manual_manager.py:60-63 | Every chunk of a processed manual carries the manual's source, title, type and brand. |
| ManualManager.SuccessTitles | src/manual_manager.py:110-120 | The titles of the manuals that succeed, in order; `ProcessMultipleManuals` reports exactly these and `TallyAddsUp` proves they and the failures add up to the manuals processed. |
| ManualManager.AllDocuments | src/manual_manager.py:109-121 | The chunks of the successful manuals, concatenated in order; `ProcessMultipleManuals` indexes exactly these and `TallyAddsUp` proves their number is the chunks created. |
| ManualManager.TallyAddsUp | src/manual_manager.py:114-126 | Each manual lands in exactly one list, and the documents number as many as the chunks created. |
| ManualManager.ManualsSnoc | src/manual_manager.py:114-126 | Processing one more manual extends the lists and the documents by its own outcome. |
| ManualManager.ProcessMultipleManuals | src/manual_manager.py:79-154 | The summary counts and lists successes and failures in order, and they add up to the total. The collection is created once, and indexing runs once exactly when there are documents. |
| DebugCli.CleanInt | main.py:316-317 | Defines `clean_int`: trim, drop quotes, then `int()`, None where that raises; `CleanIntReadsNumeral` proves it reads back any rendered natural number, quoted or not. |
| DebugCli.ParseChunkSpec | main.py:321-330 | Defines the chunk-id specification parser: "all", a dash range with the end included, a comma list, or one number, None for invalid input; `AllSelectsEveryChunk`, `DashSpec`, `ListSpec`, `SingleSpec` and `RangeRoundTrip` prove each form. |
| DebugCli.Range | main.py:323 | `range(lo, hi)` has hi - lo elements (or 0), counting up from lo. |
| DebugCli.AllSelectsEveryChunk | main.py:322-323 | "all", in any case, selects the ids 0 to count - 1. |
| DebugCli.CleanAllMeaning | main.py:327-328 | A list parses exactly when every piece does, and then holds each piece's id in order. |
| DebugCli.CleanAll | main.py:327-328 | The comma-list branch: every piece cleaned, in order, None when one fails; `CleanAllMeaning` proves both directions. |
| DebugCli.DashRange | main.py:324-326 | The dash branch: exactly two pieces around the dash, the end included; `DashSpec` and `NumeralRange` prove its cases. |
| DebugCli.DashSpec | main.py:324-326 | A spec with a dash parses exactly when it splits into two parsable parts, and then holds the ids from start to end inclusive (none if start > end). |
| DebugCli.ListSpec | main.py:327-328 | A comma spec without a dash parses exactly when every piece does, and then holds the ids in order. |
| DebugCli.SingleSpec | main.py:329-330 | Any other spec is a single id. |
| DebugCli.CleanIntReadsNumeral | main.py:316-317 | `clean_int` reads back any id's numeral, also when it is wrapped in quotes. |
| DebugCli.RangeRoundTrip | main.py:321-326 | Writing "a-b" selects exactly the ids a to b. |
| DebugCli.MatchingLines | main.py:407-408 | The relevant lines are exactly the lines containing the keyword. |
| DebugCli.ReplaceChar | main.py:418 | The replacement keeps the length and removes every newline. |
| DebugCli.SearchForKeyword | main.py:370-424 | An empty store gives nothing, and an empty keyword is rejected. Otherwise there is one report per chunk containing the keyword, and the count of such chunks. |
| DebugCli.HitsStep | main.py:400-402 | Each further chunk adds one to the count exactly when it contains the keyword. |
| DebugCli.ReportsCountHits | main.py:398-419 | There are as many reports as found chunks, and each shows 1 to 3 lines. |
| DebugCli.Excerpt | main.py:407-418 | Defines a chunk's excerpt: up to three matching lines, stripped, else the first 150 characters on one line; `ExcerptShowsMatchingLines` proves the matching case. |
| DebugCli.ExcerptShowsMatchingLines | main.py:407-416 | When some line contains the keyword, the excerpt is the first three such lines, stripped. |

## Left out

- Language-model calls (`rewrite_query`, the prompt text of `generate_answer`, `simple_query`): their output is external text. The model's answer is a parameter `(context, question) -> text`.
- LangGraph wiring (`_build_workflow`, `decide_to_generate`): only retrieve then generate is reachable, so `query` composes those two directly, and the retry count stays 0.
- The vector store, embeddings, uuid ids, persistence, `get_collection_stats`, `delete_collection` and `debug_metadata`: a store query is a function parameter from (query, filter, n) to hits.
- The PDF reader and the text splitter are parameters. A reader failure is an error value, since exceptions are not modelled beyond that.
- Streamlit rendering, timing (the `time` statistic), the typing pause, `st.rerun`, and the exception handler of a chat turn are not modelled.
- Retrieval.Retrieve: scores are integers. `1 - distance` and the best score use integer arithmetic rather than floats, and the 60% test is `5 * winner >= 3 * total`.
- ChatFrontEnd.IsFollowupMessage: the follow-up regular expressions and the numbered-option `re.findall` are function parameters rather than a regular-expression engine.
- Text.Lower: lower-casing is ASCII only (Unicode case folding is not modelled); white space follows `str.isspace`.
- ChromaClient.MetaOf: a stored metadata value of another type than the field expects is treated as absent, where `meta.get(k, default)` in src/chroma_client.py:179-184 would return it as stored; the indexing modelled here stores pages and chunk ids as integers and the other fields as strings.
- DebugCli.CleanInt: `int()` accepts decimal digits with an optional sign. Underscores and non-ASCII digits are not accepted.
- The CLI loops around the parser and the search (`input`, fetching each chunk from the store, printing), `setup_index`, `show_manual_inventory`, `setup_manual_directories`, `test_queries`, `interactive_mode`, `test_retrieval`, `show_help` and `pack_project.py` are not modelled.
- The earlier `_pick_primary_manual` definition (src/langgraph_workflow.py:269-302) is not modelled, since the later definition replaces it.
- Settings loading: the configured `retrieval_top_k` is a natural-number parameter.
