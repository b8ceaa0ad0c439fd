/**
 * The multi-manual coordinator: processing one manual into chunk records or
 * an error message, and processing a list of manuals into a success/failure
 * tally, the concatenation of all their chunks and the calls made on the
 * vector store.  The PDF reader, the text splitter and the file system are
 * inputs.
 */
module ManualManager {
  import opened Wrappers
  import opened Values
  import opened Registry
  import opened DocumentProcessor

  /** Reading a PDF: its page texts, or the message of the error raised. */
  type PdfReader = string -> Result<seq<string>, string>

  /** What the coordinator sees of the outside world. */
  datatype Env = Env(onDisk: set<string>, reader: PdfReader, split: Splitter)

  /** The result record of `process_manual`; `documents` is present only on success. */
  datatype ProcessResult = ProcessResult(
    manual: string,
    success: bool,
    chunksCreated: int,
    error: Option<string>,
    documents: Option<seq<Dict>>)

  /** The outcome of processing one manual. */
  function ManualOutcome(m: ManualDefinition, env: Env): ProcessResult {
    if !Exists(m, env.onDisk) then
      ProcessResult(m.title, false, 0, Some("PDF not found: " + m.pdfPath), None)
    else
      match env.reader(m.pdfPath)
      case Err(message) => ProcessResult(m.title, false, 0, Some(message), None)
      case Ok(pages) =>
        var docs := PdfDocuments(pages, env.split, ToMetadata(m));
        ProcessResult(m.title, true, |docs|, None, Some(docs))
  }

  /** `process_manual`: the record starts as a failure and is filled in as processing proceeds. */
  method ProcessManual(m: ManualDefinition, env: Env) returns (result: ProcessResult)
    ensures result == ManualOutcome(m, env)
  {
    result := ProcessResult(m.title, false, 0, None, None);
    if !Exists(m, env.onDisk) {
      result := result.(error := Some("PDF not found: " + m.pdfPath));
      return;
    }
    var read := env.reader(m.pdfPath);
    if read.Err? {
      result := result.(error := Some(read.error));
      return;
    }
    var documents := ProcessPdf(read.value, env.split, ToMetadata(m));
    result := result.(chunksCreated := |documents|);
    result := result.(documents := Some(documents));
    result := result.(success := true);
  }

  /**
   * A manual succeeds exactly when its PDF is on disk and can be read; a
   * success carries its chunks, their count and no error; a failure carries
   * no chunks, a count of 0 and an error message, "PDF not found: <path>"
   * when the file is missing.
   */
  lemma {:induction false} OutcomeCases(m: ManualDefinition, env: Env)
    ensures var r := ManualOutcome(m, env);
      && r.manual == m.title
      && (r.success <==> Exists(m, env.onDisk) && env.reader(m.pdfPath).Ok?)
      && (r.success ==> r.error.None? && r.documents.Some? && r.chunksCreated == |r.documents.value|)
      && (!r.success ==> r.error.Some? && r.documents.None? && r.chunksCreated == 0)
      && (!Exists(m, env.onDisk) ==> r.error == Some("PDF not found: " + m.pdfPath))
  {
  }

  /** Every chunk of a processed manual carries the manual's metadata, its file name as source. */
  lemma {:induction false} ChunksCarryManualMetadata(m: ManualDefinition, env: Env, i: nat)
    requires ManualOutcome(m, env).success
    requires i < |ManualOutcome(m, env).documents.value|
    ensures var d := ManualOutcome(m, env).documents.value[i];
      && "source" in d && d["source"] == VStr(Basename(m.pdfPath))
      && "title" in d && d["title"] == VStr(m.title)
      && "equipment_type" in d && d["equipment_type"] == VStr(m.equipmentType)
      && "equipment_brand" in d && d["equipment_brand"] == VStr(m.equipmentBrand)
  {
    var pages := env.reader(m.pdfPath).value;
    var chunks := env.split(PagedText(pages));
    var md := ToMetadata(m);
    assert ManualOutcome(m, env).documents.value == PdfDocuments(pages, env.split, md);
    var d := ChunkRecord(chunks, i, PageMapOf(pages), md);
    assert ManualOutcome(m, env).documents.value[i] == d;
    ChunkRecordFields(chunks, i, PageMapOf(pages), md);
    assert forall k :: k in md ==> k in d && d[k] == md[k];
  }

  /** One entry of `failed_manuals`. */
  datatype Failure = Failure(title: string, error: Option<string>)

  /** The calls the coordinator makes on the vector store. */
  datatype StoreCall = CreateCollection(reset: bool) | IndexAll(documents: seq<Dict>)

  /** The summary record (the collection statistics are read from the store and are not part of it). */
  datatype Summary = Summary(
    totalManuals: int,
    successful: int,
    failed: int,
    totalChunks: int,
    successfulManuals: seq<string>,
    failedManuals: seq<Failure>)

  function SuccessTitles(ms: seq<ManualDefinition>, env: Env): seq<string> {
    if ms == [] then []
    else
      var last := ManualOutcome(ms[|ms| - 1], env);
      SuccessTitles(ms[..|ms| - 1], env) + (if last.success then [last.manual] else [])
  }

  function Failures(ms: seq<ManualDefinition>, env: Env): seq<Failure> {
    if ms == [] then []
    else
      var last := ManualOutcome(ms[|ms| - 1], env);
      Failures(ms[..|ms| - 1], env) + (if last.success then [] else [Failure(last.manual, last.error)])
  }

  function AllDocuments(ms: seq<ManualDefinition>, env: Env): seq<Dict> {
    if ms == [] then []
    else
      var last := ManualOutcome(ms[|ms| - 1], env);
      AllDocuments(ms[..|ms| - 1], env) + (if last.success then last.documents.value else [])
  }

  /** The chunks processing the manuals creates, all told. */
  function ChunksCreated(ms: seq<ManualDefinition>, env: Env): int {
    if ms == [] then 0
    else ChunksCreated(ms[..|ms| - 1], env) + ManualOutcome(ms[|ms| - 1], env).chunksCreated
  }

  /**
   * Every manual lands in exactly one of the two lists, and the concatenated
   * documents number as many as the chunks created.
   */
  lemma {:induction false} TallyAddsUp(ms: seq<ManualDefinition>, env: Env)
    ensures |SuccessTitles(ms, env)| + |Failures(ms, env)| == |ms|
    ensures |AllDocuments(ms, env)| == ChunksCreated(ms, env)
  {
    if ms != [] {
      TallyAddsUp(ms[..|ms| - 1], env);
      OutcomeCases(ms[|ms| - 1], env);
    }
  }

  /** Processing one more manual extends the lists and the documents with its own outcome. */
  lemma {:induction false} ManualsSnoc(ms: seq<ManualDefinition>, m: ManualDefinition, env: Env)
    ensures var r := ManualOutcome(m, env);
      && SuccessTitles(ms + [m], env) == SuccessTitles(ms, env) + (if r.success then [m.title] else [])
      && Failures(ms + [m], env) == Failures(ms, env) + (if r.success then [] else [Failure(m.title, r.error)])
      && AllDocuments(ms + [m], env) == AllDocuments(ms, env) + (if r.success then r.documents.value else [])
  {
    assert (ms + [m])[..|ms|] == ms;
  }

  /** `process_multiple_manuals`. */
  method ProcessMultipleManuals(ms: seq<ManualDefinition>, env: Env, resetCollection: bool)
    returns (summary: Summary, calls: seq<StoreCall>)
    ensures summary.totalManuals == |ms|
    ensures summary.successfulManuals == SuccessTitles(ms, env)
    ensures summary.failedManuals == Failures(ms, env)
    ensures summary.successful == |SuccessTitles(ms, env)| && summary.failed == |Failures(ms, env)|
    ensures summary.successful + summary.failed == summary.totalManuals
    ensures summary.totalChunks == |AllDocuments(ms, env)|
    ensures calls == [CreateCollection(resetCollection)]
      + (if AllDocuments(ms, env) != [] then [IndexAll(AllDocuments(ms, env))] else [])
  {
    calls := [CreateCollection(resetCollection)];
    var allDocuments: seq<Dict> := [];
    var successful: seq<string> := [];
    var failed: seq<Failure> := [];
    var i := 0;
    while i < |ms|
      invariant 0 <= i <= |ms|
      invariant successful == SuccessTitles(ms[..i], env)
      invariant failed == Failures(ms[..i], env)
      invariant allDocuments == AllDocuments(ms[..i], env)
    {
      ManualsSnoc(ms[..i], ms[i], env);
      assert ms[..i] + [ms[i]] == ms[..i + 1];
      var result := ProcessManual(ms[i], env);
      if result.success {
        successful := successful + [ms[i].title];
        allDocuments := allDocuments + result.documents.value;
      } else {
        failed := failed + [Failure(ms[i].title, result.error)];
      }
      i := i + 1;
    }
    assert ms[..i] == ms;
    if allDocuments != [] {
      calls := calls + [IndexAll(allDocuments)];
    }
    TallyAddsUp(ms, env);
    summary := Summary(|ms|, |successful|, |failed|, |allDocuments|, successful, failed);
  }
}
