/**
 * The two inspection commands of the command-line tool: the chunk-id
 * specification read by `debug_chunks` ("all", a range "a-b", a list
 * "a,b,c" or a single id) and the keyword scan of `search_for_keyword`.
 * Reading the terminal, fetching from the store and printing are left out;
 * the store's chunks are an input.
 */
module DebugCli {
  import opened Wrappers
  import opened Text
  import opened Values

  // ---------------------------------------------------------------------
  // Chunk-id specifications

  /** `clean_int`: trim, drop single and double quotes, then `int()`; None where `int()` raises ValueError. */
  function CleanInt(s: string): Option<int> {
    ParseInt(RemoveChar(RemoveChar(Strip(s), '\''), '"'))
  }

  /** `list(range(lo, hi))`. */
  function Range(lo: int, hi: int): (r: seq<int>)
    ensures |r| == if lo < hi then hi - lo else 0
    ensures forall k :: 0 <= k < |r| ==> r[k] == lo + k
    decreases hi - lo
  {
    if lo >= hi then [] else [lo] + Range(lo + 1, hi)
  }

  /** Every piece cleaned, in order; None as soon as one piece does not parse. */
  function CleanAll(pieces: seq<string>): Option<seq<int>> {
    if pieces == [] then Some([])
    else
      var head, rest := CleanInt(pieces[0]), CleanAll(pieces[1..]);
      if head.Some? && rest.Some? then Some([head.value] + rest.value) else None
  }

  /** The range form "start-end": exactly two pieces around the dash, the end included. */
  function DashRange(spec: string): Option<seq<int>> {
    var parts := SplitOn(spec, '-');
    if |parts| != 2 then None
    else
      match (CleanInt(parts[0]), CleanInt(parts[1]))
      case (Some(start), Some(end)) => Some(Range(start, end + 1))
      case _ => None
  }

  /** The chunk ids a stripped specification asks for; None where the tool reports "Invalid Input". */
  function ParseChunkSpec(raw: string, count: nat): Option<seq<int>> {
    var spec := Strip(raw);
    if Lower(spec) == "all" then Some(Range(0, count))
    else if '-' in spec then DashRange(spec)
    else if ',' in spec then CleanAll(SplitOn(spec, ','))
    else
      match CleanInt(spec)
      case Some(v) => Some([v])
      case None => None
  }

  /** "all", in any case, asks for every stored chunk: the ids 0 to count - 1. */
  lemma {:induction false} AllSelectsEveryChunk(raw: string, count: nat)
    requires Lower(Strip(raw)) == "all"
    ensures ParseChunkSpec(raw, count).Some?
    ensures var ids := ParseChunkSpec(raw, count).value;
      |ids| == count && forall k :: 0 <= k < count ==> ids[k] == k
  {
  }

  lemma {:induction false} CleanAllMeaning(pieces: seq<string>)
    ensures CleanAll(pieces).Some? <==> forall k :: 0 <= k < |pieces| ==> CleanInt(pieces[k]).Some?
    ensures CleanAll(pieces).Some? ==>
      |CleanAll(pieces).value| == |pieces|
      && forall k :: 0 <= k < |pieces| ==> CleanAll(pieces).value[k] == CleanInt(pieces[k]).value
  {
    if pieces != [] {
      var tail := pieces[1..];
      var head := CleanInt(pieces[0]);
      var rest := CleanAll(tail);
      assert CleanAll(pieces) == if head.Some? && rest.Some? then Some([head.value] + rest.value) else None;
      CleanAllMeaning(tail);
      if head.Some? && rest.Some? {
        var r := [head.value] + rest.value;
        forall k | 0 <= k < |pieces| ensures CleanInt(pieces[k]).Some? && r[k] == CleanInt(pieces[k]).value {
          if k > 0 {
            assert pieces[k] == tail[k - 1];
          }
        }
      } else if head.Some? {
        var k :| 0 <= k < |tail| && CleanInt(tail[k]).None?;
        assert pieces[k + 1] == tail[k];
      }
    }
  }

  /**
   * A specification with a dash is a range, whatever else it holds: it is
   * accepted exactly when it has one dash with an id on each side, and then
   * asks for every id from the first to the last, none when the first is
   * larger.
   */
  lemma {:induction false} DashSpec(raw: string, count: nat)
    requires Lower(Strip(raw)) != "all" && '-' in Strip(raw)
    ensures var parts := SplitOn(Strip(raw), '-');
      var r := ParseChunkSpec(raw, count);
      && (r.Some? <==> |parts| == 2 && CleanInt(parts[0]).Some? && CleanInt(parts[1]).Some?)
      && (r.Some? ==>
            var start, end := CleanInt(parts[0]).value, CleanInt(parts[1]).value;
            && |r.value| == (if start <= end then end - start + 1 else 0)
            && (forall x :: x in r.value <==> start <= x <= end)
            && (forall k :: 0 <= k < |r.value| ==> r.value[k] == start + k))
  {
    var parts := SplitOn(Strip(raw), '-');
    var r := ParseChunkSpec(raw, count);
    if r.Some? {
      var start, end := CleanInt(parts[0]).value, CleanInt(parts[1]).value;
      forall x ensures x in r.value <==> start <= x <= end {
        if start <= x <= end {
          assert r.value[x - start] == x;
        }
      }
    }
  }

  /** A specification with commas and no dash is a list: accepted exactly when every piece is an id, which it then asks for in order. */
  lemma {:induction false} ListSpec(raw: string, count: nat)
    requires Lower(Strip(raw)) != "all" && '-' !in Strip(raw) && ',' in Strip(raw)
    ensures var pieces := SplitOn(Strip(raw), ',');
      var r := ParseChunkSpec(raw, count);
      && (r.Some? <==> forall k :: 0 <= k < |pieces| ==> CleanInt(pieces[k]).Some?)
      && (r.Some? ==> |r.value| == |pieces| && forall k :: 0 <= k < |pieces| ==> r.value[k] == CleanInt(pieces[k]).value)
  {
    assert ParseChunkSpec(raw, count) == CleanAll(SplitOn(Strip(raw), ','));
    CleanAllMeaning(SplitOn(Strip(raw), ','));
  }

  /** Anything else is a single id. */
  lemma {:induction false} SingleSpec(raw: string, count: nat)
    requires Lower(Strip(raw)) != "all" && '-' !in Strip(raw) && ',' !in Strip(raw)
    ensures ParseChunkSpec(raw, count).Some? <==> CleanInt(Strip(raw)).Some?
    ensures ParseChunkSpec(raw, count).Some? ==> ParseChunkSpec(raw, count).value == [CleanInt(Strip(raw)).value]
  {
  }

  // ---------------------------------------------------------------------
  // Reading numerals back

  lemma {:induction false} RemoveCharAppend(a: string, b: string, c: char)
    ensures RemoveChar(a + b, c) == RemoveChar(a, c) + RemoveChar(b, c)
  {
    if a != [] {
      RemoveCharAppend(a[1..], b, c);
      assert (a + b)[0] == a[0] && (a + b)[1..] == a[1..] + b;
    } else {
      assert a + b == b;
    }
  }

  lemma {:induction false} RemoveAbsentChar(s: string, c: char)
    requires c !in s
    ensures RemoveChar(s, c) == s
  {
    if s != [] {
      RemoveAbsentChar(s[1..], c);
    }
  }

  predicate Quotes(s: string) {
    forall k :: 0 <= k < |s| ==> s[k] == '\'' || s[k] == '"'
  }

  lemma {:induction false} RemoveQuotes(s: string)
    requires Quotes(s)
    ensures RemoveChar(RemoveChar(s, '\''), '"') == ""
  {
    if s != [] {
      RemoveQuotes(s[1..]);
      if s[0] == '\'' {
        assert RemoveChar(s, '\'') == RemoveChar(s[1..], '\'');
      } else {
        assert RemoveChar(s, '\'') == [s[0]] + RemoveChar(s[1..], '\'');
      }
    }
  }

  lemma {:induction false} NumeralDigits(n: nat)
    ensures NatToString(n) != []
    ensures forall k :: 0 <= k < |NatToString(n)| ==> IsDigit(NatToString(n)[k])
    ensures DigitsValue(NatToString(n)) == n
  {
    if n >= 10 {
      NumeralDigits(n / 10);
      var s := NatToString(n / 10) + [DigitChar(n % 10)];
      assert s[..|s| - 1] == NatToString(n / 10);
    }
  }

  /** A string that starts and ends with a character that is not white space is its own `strip()`. */
  lemma {:induction false} StripUnchanged(s: string)
    requires s != [] && !IsSpace(s[0]) && !IsSpace(s[|s| - 1])
    ensures Strip(s) == s
  {
  }

  /**
   * `clean_int` reads back the numeral of any id, also when it is wrapped
   * in single or double quotes.
   */
  lemma {:induction false} CleanIntReadsNumeral(n: nat, pre: string, post: string)
    requires Quotes(pre) && Quotes(post)
    ensures CleanInt(pre + NatToString(n) + post) == Some(n)
  {
    var d := NatToString(n);
    NumeralDigits(n);
    var s := pre + d + post;
    assert s[0] == (if pre == [] then d[0] else pre[0]);
    assert s[|s| - 1] == (if post == [] then d[|d| - 1] else post[|post| - 1]);
    StripUnchanged(s);
    UnquoteAround(pre, d, post);
    ParseNumeral(n);
  }

  lemma {:induction false} UnquoteAround(pre: string, d: string, post: string)
    requires Quotes(pre) && Quotes(post) && '\'' !in d && '"' !in d
    ensures RemoveChar(RemoveChar(pre + d + post, '\''), '"') == d
  {
    RemoveCharAppend(pre + d, post, '\'');
    RemoveCharAppend(pre, d, '\'');
    RemoveAbsentChar(d, '\'');
    RemoveCharAppend(RemoveChar(pre, '\'') + d, RemoveChar(post, '\''), '"');
    RemoveCharAppend(RemoveChar(pre, '\''), d, '"');
    RemoveAbsentChar(d, '"');
    RemoveQuotes(pre);
    RemoveQuotes(post);
  }

  /** `int()` reads back the numeral of a natural number. */
  lemma {:induction false} ParseNumeral(n: nat)
    ensures ParseInt(NatToString(n)) == Some(n)
  {
    var d := NatToString(n);
    NumeralDigits(n);
    StripUnchanged(d);
    assert AllDigits(d);
  }

  /** Writing a range as "a-b" asks for the ids a to b. */
  lemma {:induction false} RangeRoundTrip(a: nat, b: nat, count: nat)
    ensures ParseChunkSpec(NatToString(a) + "-" + NatToString(b), count) == Some(Range(a, b + 1))
  {
    var da, db := NatToString(a), NatToString(b);
    var spec := da + "-" + db;
    NumeralDigits(a);
    NumeralDigits(b);
    assert spec[0] == da[0] && spec[|spec| - 1] == db[|db| - 1];
    StripUnchanged(spec);
    assert Lower(spec)[|da|] == '-';
    assert Lower(spec) != "all";
    assert '-' in spec;
    NumeralRange(a, b);
  }

  lemma {:induction false} NumeralRange(a: nat, b: nat)
    ensures DashRange(NatToString(a) + "-" + NatToString(b)) == Some(Range(a, b + 1))
  {
    var da, db := NatToString(a), NatToString(b);
    assert SplitOn(da + "-" + db, '-') == [da, db] by {
      NumeralDigits(a);
      NumeralDigits(b);
      SplitAround(da, db, '-');
    }
    assert CleanInt(da) == Some(a) by {
      CleanIntReadsNumeral(a, "", "");
      assert "" + da + "" == da;
    }
    assert CleanInt(db) == Some(b) by {
      CleanIntReadsNumeral(b, "", "");
      assert "" + db + "" == db;
    }
  }

  lemma {:induction false} SplitOnFree(s: string, sep: char)
    requires sep !in s
    ensures SplitOn(s, sep) == [s]
  {
    if s != [] {
      SplitOnFree(s[1..], sep);
      assert [s[0]] + s[1..] == s;
    }
  }

  /** Splitting "a<sep>b" on sep, where neither side holds sep, gives the two sides. */
  lemma {:induction false} SplitAround(a: string, b: string, sep: char)
    requires sep !in a && sep !in b
    ensures SplitOn(a + [sep] + b, sep) == [a, b]
  {
    if a == [] {
      assert a + [sep] + b == [sep] + b;
      assert ([sep] + b)[1..] == b;
      SplitOnFree(b, sep);
    } else {
      SplitAround(a[1..], b, sep);
      assert (a + [sep] + b)[1..] == a[1..] + [sep] + b;
      assert [a[0]] + a[1..] == a;
    }
  }

  // ---------------------------------------------------------------------
  // Keyword search

  /** A stored chunk: its text and its metadata. */
  datatype Chunk = Chunk(document: string, metadata: Dict)

  /** What the tool prints for a matching chunk: its id and type (or the defaults) and an excerpt. */
  datatype Report = Report(chunkId: Value, equipmentType: Value, excerpt: seq<string>)

  datatype KeywordSearch =
    | NoDocuments
    | NoKeyword
    | Searched(reports: seq<Report>, foundCount: nat)

  /** `keyword.lower() in text.lower()`. */
  predicate Hit(keyword: string, text: string) {
    Contains(Lower(text), Lower(keyword))
  }

  /** The lines of a document that contain the keyword, in order. */
  function MatchingLines(keyword: string, lines: seq<string>): (r: seq<string>)
    ensures forall k :: 0 <= k < |r| ==> Hit(keyword, r[k]) && r[k] in lines
    ensures forall k :: 0 <= k < |lines| && Hit(keyword, lines[k]) ==> lines[k] in r
  {
    if lines == [] then []
    else (if Hit(keyword, lines[0]) then [lines[0]] else []) + MatchingLines(keyword, lines[1..])
  }

  /** `s.replace(old, new)` for single characters. */
  function ReplaceChar(s: string, from: char, to: char): (r: string)
    ensures |r| == |s|
    ensures from != to ==> from !in r
  {
    seq(|s|, k requires 0 <= k < |s| => if s[k] == from then to else s[k])
  }

  /** At most three matching lines, stripped; without one, the first 150 characters on one line. */
  function Excerpt(keyword: string, document: string): seq<string> {
    var relevant := MatchingLines(keyword, SplitOn(document, '\n'));
    if relevant != [] then
      var shown := if |relevant| <= 3 then relevant else relevant[..3];
      seq(|shown|, k requires 0 <= k < |shown| => Strip(shown[k]))
    else
      [ReplaceChar(if |document| <= 150 then document else document[..150], '\n', ' ')]
  }

  function ReportFor(keyword: string, c: Chunk): Report {
    Report(Get(c.metadata, "chunk_id", VStr("?")), Get(c.metadata, "equipment_type", VStr("unknown")),
           Excerpt(keyword, c.document))
  }

  /** One report per matching chunk, in store order. */
  function Reports(keyword: string, chunks: seq<Chunk>): seq<Report> {
    if chunks == [] then []
    else
      var last := chunks[|chunks| - 1];
      Reports(keyword, chunks[..|chunks| - 1]) + (if Hit(keyword, last.document) then [ReportFor(keyword, last)] else [])
  }

  /** How many chunks contain the keyword. */
  function CountHits(keyword: string, chunks: seq<Chunk>): nat {
    |set k | 0 <= k < |chunks| && Hit(keyword, chunks[k].document)|
  }

  /**
   * `search_for_keyword`: nothing to search in an empty store, no search
   * for an empty keyword; otherwise one report per chunk that contains
   * the keyword, and the number of such chunks.
   */
  method SearchForKeyword(rawKeyword: string, chunks: seq<Chunk>) returns (result: KeywordSearch)
    ensures chunks == [] ==> result == NoDocuments
    ensures chunks != [] && Strip(rawKeyword) == "" ==> result == NoKeyword
    ensures chunks != [] && Strip(rawKeyword) != "" ==>
      result == Searched(Reports(Strip(rawKeyword), chunks), CountHits(Strip(rawKeyword), chunks))
  {
    if chunks == [] {
      return NoDocuments;
    }
    var keyword := Strip(rawKeyword);
    if keyword == "" {
      return NoKeyword;
    }
    var foundCount := 0;
    var reports := [];
    for i := 0 to |chunks|
      invariant reports == Reports(keyword, chunks[..i])
      invariant foundCount == CountHits(keyword, chunks[..i])
    {
      assert chunks[..i + 1][..i] == chunks[..i];
      HitsStep(keyword, chunks[..i + 1]);
      if Hit(keyword, chunks[i].document) {
        foundCount := foundCount + 1;
        reports := reports + [ReportFor(keyword, chunks[i])];
      }
    }
    assert chunks[..|chunks|] == chunks;
    result := Searched(reports, foundCount);
  }

  lemma {:induction false} HitsStep(keyword: string, chunks: seq<Chunk>)
    requires chunks != []
    ensures var n := |chunks|;
      CountHits(keyword, chunks) == CountHits(keyword, chunks[..n - 1]) + (if Hit(keyword, chunks[n - 1].document) then 1 else 0)
  {
    var n := |chunks|;
    var prefix := chunks[..n - 1];
    var before := set k | 0 <= k < |prefix| && Hit(keyword, prefix[k].document);
    var after := set k | 0 <= k < n && Hit(keyword, chunks[k].document);
    assert forall k :: 0 <= k < n - 1 ==> prefix[k] == chunks[k];
    assert before == set k | 0 <= k < n - 1 && Hit(keyword, chunks[k].document);
    if Hit(keyword, chunks[n - 1].document) {
      assert after == before + {n - 1};
    } else {
      assert after == before;
    }
  }

  /** There is one report for each chunk found, and each shows at most three lines. */
  lemma {:induction false} ReportsCountHits(keyword: string, chunks: seq<Chunk>)
    ensures |Reports(keyword, chunks)| == CountHits(keyword, chunks)
    ensures forall k :: 0 <= k < |Reports(keyword, chunks)| ==> 1 <= |Reports(keyword, chunks)[k].excerpt| <= 3
  {
    if chunks != [] {
      ReportsCountHits(keyword, chunks[..|chunks| - 1]);
      HitsStep(keyword, chunks);
    }
  }

  /** The excerpt is the stripped matching lines, the first three of them, when some line contains the keyword. */
  lemma {:induction false} ExcerptShowsMatchingLines(keyword: string, document: string)
    requires exists k :: 0 <= k < |SplitOn(document, '\n')| && Hit(keyword, SplitOn(document, '\n')[k])
    ensures var relevant := MatchingLines(keyword, SplitOn(document, '\n'));
      var excerpt := Excerpt(keyword, document);
      && |excerpt| == (if |relevant| < 3 then |relevant| else 3)
      && forall k :: 0 <= k < |excerpt| ==> excerpt[k] == Strip(relevant[k]) && Hit(keyword, relevant[k])
  {
    var lines := SplitOn(document, '\n');
    var relevant := MatchingLines(keyword, lines);
    var k :| 0 <= k < |lines| && Hit(keyword, lines[k]);
    assert lines[k] in relevant;
    var shown := if |relevant| <= 3 then relevant else relevant[..3];
    var excerpt := Excerpt(keyword, document);
    assert excerpt == seq(|shown|, k requires 0 <= k < |shown| => Strip(shown[k]));
    forall j | 0 <= j < |excerpt| ensures excerpt[j] == Strip(relevant[j]) && Hit(keyword, relevant[j]) {
      assert shown[j] == relevant[j];
    }
  }
}
