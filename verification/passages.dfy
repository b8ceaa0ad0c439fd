/**
 * The passage records the search service hands to the retrieval engine.
 * `Meta` holds the stored metadata keys the engine reads (None: key absent
 * or not of the expected type); the top-level fields are the defaults the
 * result mapping fills in.
 */
module Passages {
  import opened Wrappers

  datatype Meta = Meta(
    title: Option<string>,
    equipmentType: Option<string>,
    equipmentBrand: Option<string>,
    pageNumber: Option<int>,
    chunkId: Option<int>,
    source: Option<string>)

  /** A top-level page number: the stored page, or the string "N/A". */
  datatype PageRef = PageAt(n: int) | NotAvailable

  datatype Passage = Passage(
    content: string,
    metadata: Meta,
    score: int,
    chunkId: int,
    source: string,
    pageNumber: PageRef,
    equipmentType: string,
    equipmentBrand: string,
    title: string)

  const EmptyMeta := Meta(None, None, None, None, None, None)
}
