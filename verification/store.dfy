/**
 * The vector store wrapper: metadata sanitising, the record built for each
 * indexed chunk and the batches it is added in, the metadata filter built
 * from a brand and a type, the mapping of raw query hits to passages, and
 * the three-step search fallback.  The vector database and the embedding
 * service are inputs: a query is a function from (query text, filter,
 * result count) to the raw hits it returns.
 */
module ChromaClient {
  import opened Wrappers
  import opened Values
  import opened Lists
  import opened Passages

  // ---------------------------------------------------------------------
  // Metadata sanitising

  /** The value kinds the vector store accepts as metadata. */
  predicate Simple(v: Value) {
    v.VStr? || v.VInt? || v.VFloat? || v.VBool?
  }

  /** A kept value: simple values unchanged, anything else as its string form. */
  function Clean(v: Value): (r: Value)
    requires v != VNone
    ensures Simple(r)
    ensures Simple(v) ==> r == v
  {
    if v.VOther? then VStr(v.repr) else v
  }

  /** The sanitised metadata: None-valued keys dropped, every other value cleaned. */
  function Sanitized(metadata: Dict): (r: Dict)
    ensures forall k :: k in r <==> k in metadata && metadata[k] != VNone
    ensures forall k :: k in r ==> Simple(r[k])
    ensures forall k :: k in r && Simple(metadata[k]) ==> r[k] == metadata[k]
    ensures forall k :: k in r && metadata[k].VOther? ==> r[k] == VStr(metadata[k].repr)
  {
    map k | k in metadata && metadata[k] != VNone :: Clean(metadata[k])
  }

  /** `_sanitize_metadata`: one pass over the entries. */
  method SanitizeMetadata(metadata: Dict) returns (clean: Dict)
    ensures clean == Sanitized(metadata)
  {
    clean := map[];
    var pending := metadata.Keys;
    while pending != {}
      invariant pending <= metadata.Keys
      invariant clean == map k | k in metadata && k !in pending && metadata[k] != VNone :: Clean(metadata[k])
      decreases |pending|
    {
      var key :| key in pending;
      if metadata[key] != VNone {
        clean := clean[key := Clean(metadata[key])];
      }
      pending := pending - {key};
    }
  }

  /** Sanitising never adds keys, and sanitising twice changes nothing more. */
  lemma {:induction false} SanitizeIdempotent(metadata: Dict)
    ensures Sanitized(metadata).Keys <= metadata.Keys
    ensures Sanitized(Sanitized(metadata)) == Sanitized(metadata)
  {
    var once := Sanitized(metadata);
    assert forall k :: k in once ==> once[k] != VNone && Clean(once[k]) == once[k];
  }

  // ---------------------------------------------------------------------
  // Indexing

  /**
   * The indexing keys and their defaults: chunk 0, source "unknown", title
   * "", no page number, no manual URL, type, brand and model "unknown".
   */
  const IndexDefaults: Dict := map[
    "chunk_id" := VInt(0),
    "source" := VStr("unknown"),
    "title" := VStr(""),
    "page_number" := VNone,
    "manual_url" := VNone,
    "equipment_type" := VStr("unknown"),
    "equipment_brand" := VStr("unknown"),
    "equipment_model" := VStr("unknown")]

  /** The metadata stored for one document, before sanitising: each indexing key, looked up with its default. */
  function RawMetadata(doc: Dict): Dict {
    map k | k in IndexDefaults :: Get(doc, k, IndexDefaults[k])
  }

  /** The stored metadata of one document. */
  function StoredMetadata(doc: Dict): Dict {
    Sanitized(RawMetadata(doc))
  }

  /** The stored content of one document. */
  function StoredContent(doc: Dict): Value {
    Get(doc, "content", VStr(""))
  }

  /**
   * What the stored metadata holds: only indexing keys; a key the document
   * lacks gets its default, except that a missing page number or URL stays
   * missing; a key the document has is kept, cleaned, unless its value is None.
   */
  lemma {:induction false} StoredMetadataFields(doc: Dict, k: string)
    ensures k in StoredMetadata(doc) ==> k in IndexDefaults
    ensures k in IndexDefaults && k !in doc ==>
      (k in StoredMetadata(doc) <==> IndexDefaults[k] != VNone)
      && (IndexDefaults[k] != VNone ==> StoredMetadata(doc)[k] == IndexDefaults[k])
    ensures k in IndexDefaults && k in doc ==>
      (k in StoredMetadata(doc) <==> doc[k] != VNone)
      && (doc[k] != VNone ==> StoredMetadata(doc)[k] == Clean(doc[k]))
  {
  }

  /** A missing page number or manual URL is not stored. */
  lemma {:induction false} NoPageNoUrl(doc: Dict)
    ensures "page_number" !in doc ==> "page_number" !in StoredMetadata(doc)
    ensures "manual_url" !in doc ==> "manual_url" !in StoredMetadata(doc)
  {
    StoredMetadataFields(doc, "page_number");
    StoredMetadataFields(doc, "manual_url");
  }

  const BatchSize := 100

  /** One `collection.add` call: the documents lo..hi-1. */
  datatype Batch = Batch(lo: nat, hi: nat)

  /** The batches run from `from` to `to`, each starting where the previous ended. */
  predicate Chain(batches: seq<Batch>, from: nat, to: nat)
    ensures Chain(batches, from, to) ==> from <= to
    decreases |batches|
  {
    if batches == [] then from == to
    else batches[0].lo == from && batches[0].lo <= batches[0].hi && Chain(batches[1..], batches[0].hi, to)
  }

  lemma {:induction false} ChainSnoc(batches: seq<Batch>, from: nat, mid: nat, to: nat)
    requires Chain(batches, from, mid) && mid <= to
    ensures Chain(batches + [Batch(mid, to)], from, to)
  {
    if batches != [] {
      assert (batches + [Batch(mid, to)])[1..] == batches[1..] + [Batch(mid, to)];
      ChainSnoc(batches[1..], batches[0].hi, mid, to);
    }
  }

  /** The slices of a list the batches select. */
  function Slices<T>(items: seq<T>, batches: seq<Batch>, from: nat, to: nat): seq<seq<T>>
    requires Chain(batches, from, to) && to <= |items|
    decreases |batches|
  {
    if batches == [] then [] else [items[batches[0].lo..batches[0].hi]] + Slices(items, batches[1..], batches[0].hi, to)
  }

  /** Batches that chain from 0 to the end add every item exactly once, in order. */
  lemma {:induction false} SlicesCover<T>(items: seq<T>, batches: seq<Batch>, from: nat, to: nat)
    requires Chain(batches, from, to) && to <= |items|
    ensures from <= to
    ensures Flatten(Slices(items, batches, from, to)) == items[from..to]
    decreases |batches|
  {
    if batches != [] {
      SlicesCover(items, batches[1..], batches[0].hi, to);
      assert items[from..batches[0].hi] + items[batches[0].hi..to] == items[from..to];
    }
  }

  /** The `range(0, n, 100)` loop: the bounds of each `collection.add` call. */
  method BatchBounds(n: nat) returns (batches: seq<Batch>)
    ensures Chain(batches, 0, n)
    ensures forall b :: 0 <= b < |batches| ==>
      batches[b].lo == BatchSize * b && batches[b].lo < batches[b].hi <= batches[b].lo + BatchSize
  {
    batches := [];
    var i := 0;
    while i < n
      invariant i == BatchSize * |batches|
      invariant Chain(batches, 0, if i < n then i else n)
      invariant forall b :: 0 <= b < |batches| ==>
        batches[b].lo == BatchSize * b && batches[b].lo < batches[b].hi <= batches[b].lo + BatchSize
    {
      var end := if i + BatchSize < n then i + BatchSize else n;
      ChainSnoc(batches, 0, i, end);
      batches := batches + [Batch(i, end)];
      i := i + BatchSize;
    }
  }

  lemma {:induction false} MapSnoc<T, U>(s: seq<T>, x: T, f: T -> U)
    ensures Map(s + [x], f) == Map(s, f) + [f(x)]
  {
    if s != [] {
      assert (s + [x])[1..] == s[1..] + [x];
      MapSnoc(s[1..], x, f);
    }
  }

  /**
   * `index_documents` once the embeddings are computed: the content and
   * sanitised metadata of every document, and the batches they are added in.
   */
  method IndexDocuments(documents: seq<Dict>)
    returns (contents: seq<Value>, metadatas: seq<Dict>, batches: seq<Batch>)
    ensures contents == Map(documents, StoredContent)
    ensures metadatas == Map(documents, StoredMetadata)
    ensures Chain(batches, 0, |documents|)
    ensures forall b :: 0 <= b < |batches| ==>
      batches[b].lo == BatchSize * b && batches[b].lo < batches[b].hi <= batches[b].lo + BatchSize
  {
    contents := [];
    metadatas := [];
    var j := 0;
    while j < |documents|
      invariant 0 <= j <= |documents|
      invariant contents == Map(documents[..j], StoredContent)
      invariant metadatas == Map(documents[..j], StoredMetadata)
    {
      assert documents[..j + 1] == documents[..j] + [documents[j]];
      MapSnoc(documents[..j], documents[j], StoredContent);
      MapSnoc(documents[..j], documents[j], StoredMetadata);
      contents := contents + [StoredContent(documents[j])];
      var clean := SanitizeMetadata(RawMetadata(documents[j]));
      metadatas := metadatas + [clean];
      j := j + 1;
    }
    assert documents[..j] == documents;
    batches := BatchBounds(|documents|);
  }

  // ---------------------------------------------------------------------
  // Filters

  /** A metadata filter: one field equality, or all of several. */
  datatype Filter = Match(field: string, value: string) | All(conditions: seq<Filter>)

  /** A stored metadata record satisfies a filter. */
  predicate Satisfies(f: Filter, metadata: Dict)
    decreases f
  {
    match f
    case Match(field, value) => field in metadata && metadata[field] == VStr(value)
    case All(conditions) => forall i :: 0 <= i < |conditions| ==> Satisfies(conditions[i], metadata)
  }

  /**
   * `_where`: the conditions are a brand equality and then a type equality,
   * each only when its value is present and non-empty; one condition is the
   * filter itself, two are joined by `$and`, none is no filter.
   */
  function Where(brand: Option<string>, equipmentType: Option<string>): (r: Option<Filter>)
    ensures r.None? <==> !Truthy(brand) && !Truthy(equipmentType)
  {
    if Truthy(brand) && Truthy(equipmentType) then
      Some(All([Match("equipment_brand", brand.value), Match("equipment_type", equipmentType.value)]))
    else if Truthy(brand) then Some(Match("equipment_brand", brand.value))
    else if Truthy(equipmentType) then Some(Match("equipment_type", equipmentType.value))
    else None
  }

  /** Whether a record passes an optional filter (no filter passes everything). */
  predicate Passes(f: Option<Filter>, metadata: Dict) {
    f.None? || Satisfies(f.value, metadata)
  }

  /**
   * The filter keeps exactly the records whose brand equals the given brand
   * (when one is given) and whose type equals the given type (when one is
   * given); an empty string counts as no value.
   */
  lemma {:induction false} WhereSelects(brand: Option<string>, equipmentType: Option<string>, metadata: Dict)
    ensures Passes(Where(brand, equipmentType), metadata) <==>
      && (Truthy(brand) ==> "equipment_brand" in metadata && metadata["equipment_brand"] == VStr(brand.value))
      && (Truthy(equipmentType) ==> "equipment_type" in metadata && metadata["equipment_type"] == VStr(equipmentType.value))
  {
    if Truthy(brand) && Truthy(equipmentType) {
      var cs := [Match("equipment_brand", brand.value), Match("equipment_type", equipmentType.value)];
      assert Satisfies(All(cs), metadata) <==> Satisfies(cs[0], metadata) && Satisfies(cs[1], metadata);
    }
  }

  // ---------------------------------------------------------------------
  // Query result mapping

  /** One raw hit: the stored content, its metadata (possibly missing) and its distance. */
  datatype Hit = Hit(document: string, metadata: Option<Dict>, distance: int)

  /** What a query returns: its hits, and whether distances were included. */
  datatype QueryResult = QueryResult(hits: seq<Hit>, hasDistances: bool)

  /** The vector database query: query text, optional filter and result count to hits. */
  type QueryFn = (string, Option<Filter>, int) -> QueryResult

  function StrAt(d: Dict, key: string): Option<string> {
    if key in d && d[key].VStr? then Some(d[key].s) else None
  }

  function IntAt(d: Dict, key: string): Option<int> {
    if key in d && d[key].VInt? then Some(d[key].i) else None
  }

  /** The metadata keys the retrieval engine reads. */
  function MetaOf(d: Dict): Meta {
    Meta(StrAt(d, "title"), StrAt(d, "equipment_type"), StrAt(d, "equipment_brand"),
         IntAt(d, "page_number"), IntAt(d, "chunk_id"), StrAt(d, "source"))
  }

  /** The passage record built from one hit. */
  function HitPassage(hit: Hit, hasDistances: bool): Passage {
    var meta := MetaOf(hit.metadata.GetOr(map[]));
    Passage(
      hit.document,
      meta,
      if hasDistances then 1 - hit.distance else 0,
      meta.chunkId.GetOr(0),
      meta.source.GetOr("unknown"),
      if meta.pageNumber.Some? then PageAt(meta.pageNumber.value) else NotAvailable,
      meta.equipmentType.GetOr("unknown"),
      meta.equipmentBrand.GetOr("unknown"),
      meta.title.GetOr("Unknown Manual"))
  }

  /**
   * A passage's top-level fields repeat its metadata, with chunk 0, source
   * "unknown", page "N/A", type and brand "unknown" and title "Unknown
   * Manual" where the metadata has no such key; a hit without metadata gets
   * all the defaults.
   */
  lemma {:induction false} HitPassageDefaults(hit: Hit, hasDistances: bool)
    ensures var p := HitPassage(hit, hasDistances);
      && (p.metadata.title.Some? ==> p.title == p.metadata.title.value)
      && (p.metadata.title.None? ==> p.title == "Unknown Manual")
      && (p.metadata.equipmentType.None? ==> p.equipmentType == "unknown")
      && (p.metadata.equipmentBrand.None? ==> p.equipmentBrand == "unknown")
      && (p.metadata.source.None? ==> p.source == "unknown")
      && (p.metadata.chunkId.None? ==> p.chunkId == 0)
      && (p.pageNumber.NotAvailable? <==> p.metadata.pageNumber.None?)
      && p.content == hit.document
    ensures hit.metadata.None? ==> HitPassage(hit, hasDistances).metadata == EmptyMeta
  {
  }

  /** The passages of a list of hits: one per hit, in order. */
  function HitPassages(hits: seq<Hit>, hasDistances: bool): (r: seq<Passage>)
    ensures |r| == |hits|
    ensures forall i :: 0 <= i < |hits| ==> r[i] == HitPassage(hits[i], hasDistances)
  {
    if hits == [] then [] else [HitPassage(hits[0], hasDistances)] + HitPassages(hits[1..], hasDistances)
  }

  /** The passages of one query. */
  function QueryPassages(oracle: QueryFn, query: string, filter: Option<Filter>, n: int): seq<Passage> {
    var results := oracle(query, filter, n);
    HitPassages(results.hits, results.hasDistances)
  }

  /** `_run_query`: one passage per hit, in order. */
  method RunQuery(oracle: QueryFn, query: string, filter: Option<Filter>, n: int) returns (docs: seq<Passage>)
    ensures docs == QueryPassages(oracle, query, filter, n)
  {
    var results := oracle(query, filter, n);
    docs := [];
    var i := 0;
    while i < |results.hits|
      invariant 0 <= i <= |results.hits|
      invariant |docs| == i
      invariant forall j :: 0 <= j < i ==> docs[j] == HitPassage(results.hits[j], results.hasDistances)
    {
      docs := docs + [HitPassage(results.hits[i], results.hasDistances)];
      i := i + 1;
    }
  }

  // ---------------------------------------------------------------------
  // Search with fallbacks

  /** The passages found and the filters of the queries issued, in order. */
  datatype SearchOutcome = SearchOutcome(docs: seq<Passage>, filters: seq<Option<Filter>>)

  /**
   * `search`: brand and type first; when that finds nothing and a type was
   * given, the type alone; when still nothing, no filter.
   */
  function SearchSpec(oracle: QueryFn, query: string, topK: int,
                      brand: Option<string>, equipmentType: Option<string>): SearchOutcome
  {
    var strict := Where(brand, equipmentType);
    var first := QueryPassages(oracle, query, strict, topK);
    if first != [] then SearchOutcome(first, [strict])
    else
      var tried := if Truthy(equipmentType) then [strict, Where(None, equipmentType)] else [strict];
      var second := if Truthy(equipmentType) then QueryPassages(oracle, query, Where(None, equipmentType), topK) else [];
      if second != [] then SearchOutcome(second, tried)
      else SearchOutcome(QueryPassages(oracle, query, None, topK), tried + [None])
  }

  method Search(oracle: QueryFn, query: string, topK: int,
                brand: Option<string>, equipmentType: Option<string>)
    returns (docs: seq<Passage>, filters: seq<Option<Filter>>)
    ensures SearchOutcome(docs, filters) == SearchSpec(oracle, query, topK, brand, equipmentType)
  {
    var strict := Where(brand, equipmentType);
    docs := RunQuery(oracle, query, strict, topK);
    filters := [strict];
    if docs == [] && Truthy(equipmentType) {
      docs := RunQuery(oracle, query, Where(None, equipmentType), topK);
      filters := filters + [Where(None, equipmentType)];
    }
    if docs == [] {
      docs := RunQuery(oracle, query, None, topK);
      filters := filters + [None];
    }
  }

  /**
   * The fallback chain: the strict query runs first; at most three queries
   * run; the result is the first non-empty stage, or whatever the
   * unfiltered query found; only the last query may be unfiltered or be
   * followed by nothing.
   */
  lemma {:induction false} SearchFallback(oracle: QueryFn, query: string, topK: int,
                       brand: Option<string>, equipmentType: Option<string>)
    ensures var out := SearchSpec(oracle, query, topK, brand, equipmentType);
      && 1 <= |out.filters| <= 3
      && out.filters[0] == Where(brand, equipmentType)
      && out.docs == QueryPassages(oracle, query, out.filters[|out.filters| - 1], topK)
      && (forall i :: 0 <= i < |out.filters| - 1 ==> QueryPassages(oracle, query, out.filters[i], topK) == [])
      && (out.docs == [] ==> out.filters[|out.filters| - 1] == None)
  {
  }

  /**
   * A brand without a type whose strict query finds nothing falls straight
   * back to the unfiltered query: the type-only query never runs.
   */
  lemma {:induction false} BrandOnlySkipsTypeOnly(oracle: QueryFn, query: string, topK: int, brand: string)
    requires brand != ""
    requires QueryPassages(oracle, query, Some(Match("equipment_brand", brand)), topK) == []
    ensures SearchSpec(oracle, query, topK, Some(brand), None).filters
      == [Some(Match("equipment_brand", brand)), None]
  {
  }
}
