/**
 * Document processing: the full text of a PDF with a marker before each page,
 * the map from page number to the character range that page occupies, the
 * lookup of the page holding a character position, and the chunk records
 * built from the text splitter's output.  Page texts come from the PDF
 * reader and chunks from the text splitter; both are inputs here.
 */
module DocumentProcessor {
  import opened Text
  import opened Values

  /** One entry `page: (start, end)` of the page map. */
  datatype PageSpan = PageSpan(page: int, start: int, end: int)

  /** The page map, in insertion order (page 1 first). */
  type PageMap = seq<PageSpan>

  /** The text splitter: full text to chunks. */
  type Splitter = string -> seq<string>

  function Marker(page: nat): string {
    "\n\n--- Page " + NatToString(page) + " ---\n\n"
  }

  /** The extracted text: each page's marker and text, pages in order. */
  function PagedText(pages: seq<string>): string {
    if pages == [] then ""
    else PagedText(pages[..|pages| - 1]) + Marker(|pages|) + pages[|pages| - 1]
  }

  /** The page map recorded while the text grows. */
  function PageMapOf(pages: seq<string>): PageMap {
    if pages == [] then []
    else
      PageMapOf(pages[..|pages| - 1])
        + [PageSpan(|pages|, |PagedText(pages[..|pages| - 1])|, |PagedText(pages)|)]
  }

  /** `extract_text_from_pdf` after the PDF reader has produced the page texts. */
  method ExtractText(pages: seq<string>) returns (text: string, pageMap: PageMap)
    ensures text == PagedText(pages)
    ensures pageMap == PageMapOf(pages)
  {
    text := "";
    pageMap := [];
    var i := 0;
    while i < |pages|
      invariant 0 <= i <= |pages|
      invariant text == PagedText(pages[..i])
      invariant pageMap == PageMapOf(pages[..i])
    {
      assert pages[..i + 1][..i] == pages[..i];
      var start := |text|;
      text := text + Marker(i + 1) + pages[i];
      var end := |text|;
      pageMap := pageMap + [PageSpan(i + 1, start, end)];
      i := i + 1;
    }
    assert pages[..i] == pages;
  }

  /** Entry k of the page map is page k+1 and spans the text of the first k pages up to that of the first k+1. */
  lemma {:induction false} PageMapEntries(pages: seq<string>)
    ensures |PageMapOf(pages)| == |pages|
    ensures forall k :: 0 <= k < |pages| ==> PageMapOf(pages)[k] == EntryFor(pages, k)
  {
    if pages != [] {
      var n := |pages|;
      var init := pages[..n - 1];
      PageMapEntries(init);
      forall k | 0 <= k < n - 1 ensures PageMapOf(pages)[k] == EntryFor(pages, k) {
        assert init[..k] == pages[..k] && init[..k + 1] == pages[..k + 1];
        assert PageMapOf(pages)[k] == PageMapOf(init)[k];
      }
      assert pages[..n] == pages;
    }
  }

  /** The entry the page map holds for page k+1. */
  function EntryFor(pages: seq<string>, k: nat): PageSpan
    requires k < |pages|
  {
    PageSpan(k + 1, |PagedText(pages[..k])|, |PagedText(pages[..k + 1])|)
  }

  /** The text of the first k pages is a prefix of the text of all of them. */
  lemma {:induction false} PagedTextPrefix(pages: seq<string>, k: nat)
    requires k <= |pages|
    ensures PagedText(pages[..k]) <= PagedText(pages)
  {
    if k < |pages| {
      var n := |pages|;
      PagedTextPrefix(pages[..n - 1], k);
      assert pages[..n - 1][..k] == pages[..k];
    } else {
      assert pages[..k] == pages;
    }
  }

  /** Range k of the page map holds exactly page k+1's marker and text, and is not empty. */
  lemma {:induction false} PageRange(pages: seq<string>, k: nat)
    requires k < |pages|
    ensures 0 <= EntryFor(pages, k).start < EntryFor(pages, k).end <= |PagedText(pages)|
    ensures PagedText(pages)[EntryFor(pages, k).start..EntryFor(pages, k).end] == Marker(k + 1) + pages[k]
  {
    var upTo := pages[..k + 1];
    assert upTo[..k] == pages[..k];
    var before := PagedText(pages[..k]);
    var piece := Marker(k + 1) + pages[k];
    var through := PagedText(upTo);
    assert through == before + piece;
    PagedTextPrefix(pages, k + 1);
    var text := PagedText(pages);
    assert through == text[..|through|];
    assert text[|before|..|through|] == through[|before|..] == piece;
  }

  /**
   * The page map tiles the text: page 1 starts at 0, each page starts where
   * the previous one ends, the last ends at the end of the text, every range
   * is non-empty, and range k holds exactly page k+1's marker and text.
   */
  lemma {:induction false} PageMapTilesText(pages: seq<string>)
    ensures |PageMapOf(pages)| == |pages|
    ensures forall k :: 0 <= k < |pages| ==> PageMapOf(pages)[k].page == k + 1
    ensures |pages| > 0 ==> PageMapOf(pages)[0].start == 0
    ensures |pages| > 0 ==> PageMapOf(pages)[|pages| - 1].end == |PagedText(pages)|
    ensures forall k :: 0 <= k < |pages| - 1 ==> PageMapOf(pages)[k].end == PageMapOf(pages)[k + 1].start
    ensures forall k :: 0 <= k < |pages| ==>
      0 <= PageMapOf(pages)[k].start < PageMapOf(pages)[k].end <= |PagedText(pages)|
    ensures forall k :: 0 <= k < |pages| ==>
      PagedText(pages)[PageMapOf(pages)[k].start..PageMapOf(pages)[k].end] == Marker(k + 1) + pages[k]
  {
    PageMapEntries(pages);
    if |pages| > 0 {
      assert pages[..0] == [];
      assert pages[..|pages|] == pages;
    }
    forall k | 0 <= k < |pages|
      ensures 0 <= PageMapOf(pages)[k].start < PageMapOf(pages)[k].end <= |PagedText(pages)|
      ensures PagedText(pages)[PageMapOf(pages)[k].start..PageMapOf(pages)[k].end] == Marker(k + 1) + pages[k]
    {
      PageRange(pages, k);
    }
  }

  predicate Covers(span: PageSpan, pos: int) {
    span.start <= pos < span.end
  }

  /** `_find_page_for_position`: the first page whose range holds the position, else page 1. */
  function FindPage(pos: int, pageMap: PageMap): int {
    if pageMap == [] then 1
    else if Covers(pageMap[0], pos) then pageMap[0].page
    else FindPage(pos, pageMap[1..])
  }

  method FindPageForPosition(pos: int, pageMap: PageMap) returns (page: int)
    ensures page == FindPage(pos, pageMap)
  {
    var i := 0;
    while i < |pageMap|
      invariant 0 <= i <= |pageMap|
      invariant FindPage(pos, pageMap) == FindPage(pos, pageMap[i..])
    {
      assert pageMap[i..][1..] == pageMap[i + 1..];
      if pageMap[i].start <= pos < pageMap[i].end {
        return pageMap[i].page;
      }
      i := i + 1;
    }
    return 1;
  }

  /** When no range holds the position the lookup answers page 1. */
  lemma {:induction false} FindPageNoMatch(pos: int, pageMap: PageMap)
    requires forall k :: 0 <= k < |pageMap| ==> !Covers(pageMap[k], pos)
    ensures FindPage(pos, pageMap) == 1
  {
    if pageMap != [] {
      FindPageNoMatch(pos, pageMap[1..]);
    }
  }

  /** The lookup answers with the page of the first range that holds the position. */
  lemma {:induction false} FindPageFirstMatch(pos: int, pageMap: PageMap, k: nat)
    requires k < |pageMap| && Covers(pageMap[k], pos)
    requires forall j :: 0 <= j < k ==> !Covers(pageMap[j], pos)
    ensures FindPage(pos, pageMap) == pageMap[k].page
  {
    if k > 0 {
      FindPageFirstMatch(pos, pageMap[1..], k - 1);
    }
  }

  /**
   * Over the page map of an extracted text, a position inside the text lies
   * in exactly one page's range, and the lookup returns that page; a
   * position outside the text falls back to page 1.
   */
  lemma {:induction false} FindPageInText(pages: seq<string>, pos: int)
    requires 0 <= pos < |PagedText(pages)|
    ensures |PageMapOf(pages)| == |pages|
    ensures 1 <= FindPage(pos, PageMapOf(pages)) <= |pages|
    ensures Covers(PageMapOf(pages)[FindPage(pos, PageMapOf(pages)) - 1], pos)
    ensures forall k :: 0 <= k < |pages| && Covers(PageMapOf(pages)[k], pos) ==>
      k == FindPage(pos, PageMapOf(pages)) - 1
  {
    var pm := PageMapOf(pages);
    PageMapTilesText(pages);
    Ascending(pm);
    var k := Locate(pm, pos);
    forall j | 0 <= j < |pm| && j != k ensures !Covers(pm[j], pos) {
      if j < k {
        assert pm[j].end <= pm[k].start;
      } else {
        assert pm[k].end <= pm[j].start;
      }
    }
    FindPageFirstMatch(pos, pm, k);
  }

  lemma {:induction false} FindPageOutsideText(pages: seq<string>, pos: int)
    requires pos < 0 || pos >= |PagedText(pages)|
    ensures FindPage(pos, PageMapOf(pages)) == 1
  {
    PageMapTilesText(pages);
    FindPageNoMatch(pos, PageMapOf(pages));
  }

  /** In a tiled map, an earlier range ends no later than a later one starts. */
  lemma {:induction false} Ascending(pm: PageMap)
    requires forall k :: 0 <= k < |pm| - 1 ==> pm[k].end == pm[k + 1].start
    requires forall k :: 0 <= k < |pm| ==> pm[k].start < pm[k].end
    ensures forall j, k :: 0 <= j < k < |pm| ==> pm[j].end <= pm[k].start
  {
    if |pm| > 1 {
      var n := |pm|;
      Ascending(pm[..n - 1]);
      forall j, k | 0 <= j < k < n ensures pm[j].end <= pm[k].start {
        if k < n - 1 {
          assert pm[..n - 1][j].end <= pm[..n - 1][k].start;
        } else if j < n - 2 {
          assert pm[..n - 1][j].end <= pm[..n - 1][n - 2].start;
        }
      }
    }
  }

  /** In a tiled map, a position between the first start and the last end has a range holding it. */
  lemma {:induction false} Locate(pm: PageMap, pos: int) returns (k: nat)
    requires |pm| > 0
    requires forall j :: 0 <= j < |pm| - 1 ==> pm[j].end == pm[j + 1].start
    requires pm[0].start <= pos < pm[|pm| - 1].end
    ensures k < |pm| && Covers(pm[k], pos)
  {
    if pos < pm[0].end {
      k := 0;
    } else {
      var k' := Locate(pm[1..], pos);
      k := k' + 1;
    }
  }

  /** The total length of the chunks before chunk i. */
  function PrefixLength(chunks: seq<string>, i: nat): nat
    requires i <= |chunks|
  {
    if i == 0 then 0 else PrefixLength(chunks, i - 1) + |chunks[i - 1]|
  }

  /**
   * The record for chunk i: id, content, number, total, the page of the
   * position where the chunk would start if chunks did not overlap (only
   * when a page map is given), then the caller's metadata on top.
   */
  function ChunkRecord(chunks: seq<string>, i: nat, pageMap: PageMap, metadata: Dict): Dict
    requires i < |chunks|
  {
    var base := map[
      "id" := VStr("chunk_" + NatToString(i)),
      "content" := VStr(chunks[i]),
      "chunk_id" := VInt(i),
      "total_chunks" := VInt(|chunks|)];
    var withPage :=
      if |pageMap| > 0 then base["page_number" := VInt(FindPage(PrefixLength(chunks, i), pageMap))]
      else base;
    if |metadata| > 0 then withPage + metadata else withPage
  }

  /** `chunk_document` after the splitter has produced the chunks. */
  method ChunkDocument(chunks: seq<string>, pageMap: PageMap, metadata: Dict) returns (docs: seq<Dict>)
    ensures |docs| == |chunks|
    ensures forall i :: 0 <= i < |chunks| ==> docs[i] == ChunkRecord(chunks, i, pageMap, metadata)
  {
    docs := [];
    var currentPosition := 0;
    var i := 0;
    while i < |chunks|
      invariant 0 <= i <= |chunks|
      invariant currentPosition == PrefixLength(chunks, i)
      invariant |docs| == i
      invariant forall j :: 0 <= j < i ==> docs[j] == ChunkRecord(chunks, j, pageMap, metadata)
    {
      var doc := map[
        "id" := VStr("chunk_" + NatToString(i)),
        "content" := VStr(chunks[i]),
        "chunk_id" := VInt(i),
        "total_chunks" := VInt(|chunks|)];
      if |pageMap| > 0 {
        var page := FindPageForPosition(currentPosition, pageMap);
        doc := doc["page_number" := VInt(page)];
      }
      currentPosition := currentPosition + |chunks[i]|;
      if |metadata| > 0 {
        doc := doc + metadata;
      }
      docs := docs + [doc];
      i := i + 1;
    }
  }

  /**
   * What a chunk record holds: the caller's keys win; otherwise id
   * "chunk_i", number i, the chunk count, and a page number exactly when a
   * page map was given.
   */
  lemma {:induction false} ChunkRecordFields(chunks: seq<string>, i: nat, pageMap: PageMap, metadata: Dict)
    requires i < |chunks|
    ensures var r := ChunkRecord(chunks, i, pageMap, metadata);
      && (forall k :: k in metadata ==> k in r && r[k] == metadata[k])
      && ("id" !in metadata ==> r["id"] == VStr("chunk_" + NatToString(i)))
      && ("chunk_id" !in metadata ==> r["chunk_id"] == VInt(i))
      && ("total_chunks" !in metadata ==> r["total_chunks"] == VInt(|chunks|))
      && ("content" !in metadata ==> r["content"] == VStr(chunks[i]))
      && ("page_number" !in metadata ==>
            ("page_number" in r <==> |pageMap| > 0)
            && (|pageMap| > 0 ==> r["page_number"] == VInt(FindPage(PrefixLength(chunks, i), pageMap))))
  {
  }

  /**
   * Chunks overlap, so the running position can run past the end of the
   * text; from there on every chunk is put on page 1.
   */
  lemma {:induction false} OverrunChunksFallBackToPageOne(pages: seq<string>, chunks: seq<string>, i: nat, metadata: Dict)
    requires i < |chunks| && |pages| > 0
    requires PrefixLength(chunks, i) >= |PagedText(pages)|
    requires "page_number" !in metadata
    ensures ChunkRecord(chunks, i, PageMapOf(pages), metadata)["page_number"] == VInt(1)
  {
    FindPageOutsideText(pages, PrefixLength(chunks, i));
  }

  /** What `process_pdf` yields for given page texts, splitter and metadata. */
  function PdfDocuments(pages: seq<string>, split: Splitter, metadata: Dict): seq<Dict> {
    var chunks := split(PagedText(pages));
    seq(|chunks|, i requires 0 <= i < |chunks| => ChunkRecord(chunks, i, PageMapOf(pages), metadata))
  }

  /** `process_pdf`: extract the text and page map, split, and build the chunk records. */
  method ProcessPdf(pages: seq<string>, split: Splitter, metadata: Dict) returns (docs: seq<Dict>)
    ensures docs == PdfDocuments(pages, split, metadata)
    ensures |docs| == |split(PagedText(pages))|
  {
    var text, pageMap := ExtractText(pages);
    var chunks := split(text);
    docs := ChunkDocument(chunks, pageMap, metadata);
  }
}
