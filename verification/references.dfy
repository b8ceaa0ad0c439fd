/**
 * The reference section appended to an answer: the first five passages
 * grouped by manual title, each title's distinct pages sorted and written
 * as a page list, one "Reference:" line for a single manual or one bullet
 * per manual for several.
 */
module References {
  import opened Wrappers
  import opened Text
  import opened Sorting
  import opened Passages

  /** One `manual_pages` entry: a title and its distinct pages (a set; their order is immaterial). */
  datatype Group = Group(title: string, pages: seq<int>)

  /** Only the first five passages are read. */
  function FirstFive(ps: seq<Passage>): seq<Passage> {
    ps[..if |ps| < 5 then |ps| else 5]
  }

  /** The title and page a passage is cited under: a non-empty stored title (default "Unknown Manual") and a stored page. */
  function Cited(p: Passage): Option<(string, int)> {
    var title := p.metadata.title.GetOr("Unknown Manual");
    if title != "" && p.metadata.pageNumber.Some? then Some((title, p.metadata.pageNumber.value)) else None
  }

  /** `pages.add(page)`. */
  function AddToSet(pages: seq<int>, page: int): seq<int> {
    if page in pages then pages else pages + [page]
  }

  /** `manual_pages.setdefault(title, set()).add(page)`: a new title goes last. */
  function AddPage(groups: seq<Group>, title: string, page: int): (r: seq<Group>)
    ensures |groups| <= |r| <= |groups| + 1 && |r| > 0
  {
    if groups == [] then [Group(title, [page])]
    else if groups[0].title == title then [groups[0].(pages := AddToSet(groups[0].pages, page))] + groups[1..]
    else [groups[0]] + AddPage(groups[1..], title, page)
  }

  /** `manual_pages` after the passages, in order. */
  function Groups(ps: seq<Passage>): seq<Group> {
    if ps == [] then []
    else
      var before := Groups(ps[..|ps| - 1]);
      match Cited(ps[|ps| - 1])
      case None => before
      case Some(c) => AddPage(before, c.0, c.1)
  }

  /** Manuals ordered by title. */
  predicate TitleLe(a: Group, b: Group) {
    LexLe(a.title, b.title)
  }

  function IntStrings(pages: seq<int>): (r: seq<string>)
    ensures |r| == |pages|
  {
    if pages == [] then [] else [IntToString(pages[0])] + IntStrings(pages[1..])
  }

  predicate Consecutive(pages: seq<int>) {
    forall i :: 0 <= i < |pages| - 1 ==> pages[i] + 1 == pages[i + 1]
  }

  /** The page reference of one manual, from its sorted pages. */
  function FormatPages(pages: seq<int>): string {
    if |pages| == 1 then "Page " + IntToString(pages[0])
    else if |pages| == 2 then "Pages " + IntToString(pages[0]) + ", " + IntToString(pages[1])
    else if |pages| <= 5 then "Pages " + Join(IntStrings(pages), ", ")
    else if Consecutive(pages) then "Pages " + IntToString(pages[0]) + "-" + IntToString(pages[|pages| - 1])
    else "Pages " + Join(IntStrings(pages[..3]), ", ") + ", and " + IntToString(|pages| - 3) + " more"
  }

  /** One reference part: "<title>, <page reference>". */
  function Part(g: Group): string {
    g.title + ", " + FormatPages(Sort(g.pages, IntLe))
  }

  /** One part per manual, in the order given. */
  function Parts(groups: seq<Group>): seq<string> {
    seq(|groups|, i requires 0 <= i < |groups| => Part(groups[i]))
  }

  function BulletLine(part: string): string {
    "   • " + part + "\n"
  }

  function Bullets(parts: seq<string>): string {
    if parts == [] then "" else Bullets(parts[..|parts| - 1]) + BulletLine(parts[|parts| - 1])
  }

  const SingleHeader := "\n\n📖 **Reference:** "
  const ListHeader := "\n\n📖 **References:**\n"

  /** The reference section for the parts, in order. */
  function Layout(parts: seq<string>): string {
    if |parts| == 1 then SingleHeader + parts[0] else ListHeader + Bullets(parts)
  }

  /** The manuals cited by the passages, ordered by title. */
  function SortedGroups(ps: seq<Passage>): seq<Group> {
    Sort(Groups(FirstFive(ps)), TitleLe)
  }

  /** `_generate_references`. */
  function ReferencesSpec(ps: seq<Passage>): string {
    if ps == [] then ""
    else if Groups(FirstFive(ps)) == [] then ""
    else Layout(Parts(SortedGroups(ps)))
  }

  /** The grouping loop over the passages read. */
  method CollectPages(top: seq<Passage>) returns (manualPages: seq<Group>)
    ensures manualPages == Groups(top)
  {
    manualPages := [];
    var i := 0;
    while i < |top|
      invariant 0 <= i <= |top|
      invariant manualPages == Groups(top[..i])
    {
      assert top[..i + 1][..i] == top[..i];
      var cited := Cited(top[i]);
      if cited.Some? {
        manualPages := AddPage(manualPages, cited.value.0, cited.value.1);
      }
      i := i + 1;
    }
    assert top[..i] == top;
  }

  /** The loop writing one part per manual. */
  method WriteParts(sorted: seq<Group>) returns (referenceParts: seq<string>)
    ensures referenceParts == Parts(sorted)
  {
    referenceParts := [];
    var j := 0;
    while j < |sorted|
      invariant 0 <= j <= |sorted|
      invariant referenceParts == Parts(sorted)[..j]
    {
      assert Parts(sorted)[..j + 1] == Parts(sorted)[..j] + [Part(sorted[j])];
      referenceParts := referenceParts + [Part(sorted[j])];
      j := j + 1;
    }
    assert Parts(sorted)[..j] == Parts(sorted);
  }

  /** The single line, or the header followed by one bullet per part. */
  method LayOut(referenceParts: seq<string>) returns (reference: string)
    ensures reference == Layout(referenceParts)
  {
    if |referenceParts| == 1 {
      return SingleHeader + referenceParts[0];
    }
    reference := ListHeader;
    var m := 0;
    while m < |referenceParts|
      invariant 0 <= m <= |referenceParts|
      invariant reference == ListHeader + Bullets(referenceParts[..m])
    {
      assert referenceParts[..m + 1][..m] == referenceParts[..m];
      reference := reference + BulletLine(referenceParts[m]);
      m := m + 1;
    }
    assert referenceParts[..m] == referenceParts;
  }

  /** `_generate_references`: group the pages, sort the manuals, write one part each, then lay them out. */
  method GenerateReferences(documents: seq<Passage>) returns (reference: string)
    ensures reference == ReferencesSpec(documents)
  {
    if documents == [] {
      return "";
    }
    var manualPages := CollectPages(FirstFive(documents));
    if manualPages == [] {
      return "";
    }
    var referenceParts := WriteParts(Sort(manualPages, TitleLe));
    reference := LayOut(referenceParts);
  }

  // ---------------------------------------------------------------------
  // Properties

  predicate DistinctGroupTitles(groups: seq<Group>) {
    forall a, b :: 0 <= a < b < |groups| ==> groups[a].title != groups[b].title
  }

  predicate GroupListed(groups: seq<Group>, title: string) {
    exists a :: 0 <= a < |groups| && groups[a].title == title
  }

  predicate DistinctPages(pages: seq<int>) {
    forall i, j :: 0 <= i < j < |pages| ==> pages[i] != pages[j]
  }

  /** Adding a page to the entry at position k, the first with the title, or to a new last entry. */
  lemma {:induction false} AddPageAt(groups: seq<Group>, title: string, page: int, k: nat)
    requires k <= |groups|
    requires forall m :: 0 <= m < k ==> groups[m].title != title
    requires k < |groups| ==> groups[k].title == title
    ensures k < |groups| ==>
      AddPage(groups, title, page) == groups[k := groups[k].(pages := AddToSet(groups[k].pages, page))]
    ensures k == |groups| ==> AddPage(groups, title, page) == groups + [Group(title, [page])]
  {
    if groups != [] && k > 0 {
      AddPageAt(groups[1..], title, page, k - 1);
      if k < |groups| {
        var g := groups[k].(pages := AddToSet(groups[k].pages, page));
        assert [groups[0]] + groups[1..][k - 1 := g] == groups[k := g];
      } else {
        assert [groups[0]] + (groups[1..] + [Group(title, [page])]) == groups + [Group(title, [page])];
      }
    }
  }

  /** Where adding a page leaves each entry. */
  lemma {:induction false} AddPageShape(groups: seq<Group>, title: string, page: int)
    requires DistinctGroupTitles(groups)
    ensures DistinctGroupTitles(AddPage(groups, title, page))
    ensures GroupListed(groups, title) ==> |AddPage(groups, title, page)| == |groups|
    ensures !GroupListed(groups, title) ==>
      |AddPage(groups, title, page)| == |groups| + 1 && AddPage(groups, title, page)[|groups|] == Group(title, [page])
    ensures forall a :: 0 <= a < |groups| ==>
      AddPage(groups, title, page)[a]
        == if groups[a].title == title then groups[a].(pages := AddToSet(groups[a].pages, page)) else groups[a]
  {
    var k := 0;
    while k < |groups| && groups[k].title != title
      invariant 0 <= k <= |groups|
      invariant forall m :: 0 <= m < k ==> groups[m].title != title
    {
      k := k + 1;
    }
    AddPageAt(groups, title, page, k);
    if k < |groups| {
      assert GroupListed(groups, title);
    } else {
      assert !GroupListed(groups, title);
    }
  }

  /** Adding a page keeps the pages distinct and adds at most one. */
  lemma {:induction false} AddToSetDistinct(pages: seq<int>, page: int)
    requires DistinctPages(pages)
    ensures DistinctPages(AddToSet(pages, page))
    ensures |pages| <= |AddToSet(pages, page)| <= |pages| + 1
    ensures forall q :: q in AddToSet(pages, page) <==> q in pages || q == page
  {
  }

  /**
   * `manual_pages` has one entry per title, each non-empty title holding
   * between 1 and (number of passages) distinct pages.
   */
  lemma {:induction false} GroupsShape(ps: seq<Passage>)
    ensures DistinctGroupTitles(Groups(ps))
    ensures forall a :: 0 <= a < |Groups(ps)| ==>
      Groups(ps)[a].title != "" && DistinctPages(Groups(ps)[a].pages) && 1 <= |Groups(ps)[a].pages| <= |ps|
  {
    if ps != [] {
      var init := ps[..|ps| - 1];
      GroupsShape(init);
      var before := Groups(init);
      var c := Cited(ps[|ps| - 1]);
      if c.Some? {
        AddPageShape(before, c.value.0, c.value.1);
        var after := Groups(ps);
        forall a | 0 <= a < |after|
          ensures after[a].title != "" && DistinctPages(after[a].pages) && 1 <= |after[a].pages| <= |ps|
        {
          if a < |before| {
            AddToSetDistinct(before[a].pages, c.value.1);
          }
        }
      }
    }
  }

  /** Passage ps[r] is cited under title t and page p. */
  predicate CitedAs(ps: seq<Passage>, t: string, p: int) {
    exists r :: 0 <= r < |ps| && Cited(ps[r]) == Some((t, p))
  }

  /** Title t holds page p in the groups. */
  predicate Holds(groups: seq<Group>, t: string, p: int) {
    exists a :: 0 <= a < |groups| && groups[a].title == t && p in groups[a].pages
  }

  /** Adding a page makes the groups hold it and keeps everything they held. */
  lemma {:induction false} AddPageHolds(groups: seq<Group>, title: string, page: int, t: string, p: int)
    requires DistinctGroupTitles(groups)
    ensures Holds(AddPage(groups, title, page), t, p) <==> Holds(groups, t, p) || (t == title && p == page)
  {
    AddPageShape(groups, title, page);
    if Holds(groups, t, p) {
      AddPageKeeps(groups, title, page, t, p);
    }
    if t == title && p == page {
      AddPageAdds(groups, title, page);
    }
    if Holds(AddPage(groups, title, page), t, p) {
      AddPageOnlyAdds(groups, title, page, t, p);
    }
  }

  lemma {:induction false} AddPageKeeps(groups: seq<Group>, title: string, page: int, t: string, p: int)
    requires DistinctGroupTitles(groups) && Holds(groups, t, p)
    ensures Holds(AddPage(groups, title, page), t, p)
  {
    AddPageShape(groups, title, page);
    var r := AddPage(groups, title, page);
    var a :| 0 <= a < |groups| && groups[a].title == t && p in groups[a].pages;
    assert r[a].title == t && p in r[a].pages;
  }

  lemma {:induction false} AddPageAdds(groups: seq<Group>, title: string, page: int)
    requires DistinctGroupTitles(groups)
    ensures Holds(AddPage(groups, title, page), title, page)
  {
    AddPageShape(groups, title, page);
    var r := AddPage(groups, title, page);
    if GroupListed(groups, title) {
      var a :| 0 <= a < |groups| && groups[a].title == title;
      assert r[a].title == title && page in r[a].pages;
    } else {
      assert r[|groups|].title == title && page in r[|groups|].pages;
    }
  }

  lemma {:induction false} AddPageOnlyAdds(groups: seq<Group>, title: string, page: int, t: string, p: int)
    requires DistinctGroupTitles(groups) && Holds(AddPage(groups, title, page), t, p)
    ensures Holds(groups, t, p) || (t == title && p == page)
  {
    AddPageShape(groups, title, page);
    var r := AddPage(groups, title, page);
    var a :| 0 <= a < |r| && r[a].title == t && p in r[a].pages;
    if a < |groups| {
      if groups[a].title != title {
        assert groups[a].title == t && p in groups[a].pages;
      } else {
        assert p in groups[a].pages || p == page;
      }
    }
  }

  /** A title holds a page exactly when some passage is cited under that title and page. */
  lemma {:induction false} GroupsCover(ps: seq<Passage>, t: string, p: int)
    ensures Holds(Groups(ps), t, p) <==> CitedAs(ps, t, p)
  {
    if ps != [] {
      var n := |ps|;
      var init := ps[..n - 1];
      GroupsCover(init, t, p);
      GroupsShape(init);
      var c := Cited(ps[n - 1]);
      if c.Some? {
        AddPageHolds(Groups(init), c.value.0, c.value.1, t, p);
      }
      if CitedAs(ps, t, p) {
        var r :| 0 <= r < n && Cited(ps[r]) == Some((t, p));
        if r < n - 1 {
          assert Cited(init[r]) == Some((t, p));
        }
      }
      if CitedAs(init, t, p) {
        var r :| 0 <= r < n - 1 && Cited(init[r]) == Some((t, p));
        assert Cited(ps[r]) == Some((t, p));
      }
    }
  }

  /** Nothing is cited exactly when nothing is grouped. */
  lemma {:induction false} GroupsEmpty(ps: seq<Passage>)
    ensures Groups(ps) == [] <==> forall r :: 0 <= r < |ps| ==> Cited(ps[r]).None?
  {
    GroupsShape(ps);
    if Groups(ps) != [] {
      var g := Groups(ps)[0];
      GroupsCover(ps, g.title, g.pages[0]);
      assert Holds(Groups(ps), g.title, g.pages[0]);
    }
    if exists r :: 0 <= r < |ps| && Cited(ps[r]).Some? {
      var r :| 0 <= r < |ps| && Cited(ps[r]).Some?;
      var c := Cited(ps[r]).value;
      GroupsCover(ps, c.0, c.1);
      assert CitedAs(ps, c.0, c.1);
    }
  }

  /**
   * The section is empty exactly when there are no passages or none of the
   * first five has both a non-empty title and a page.
   */
  lemma {:induction false} ReferencesEmpty(ps: seq<Passage>)
    ensures ReferencesSpec(ps) == "" <==> forall r :: 0 <= r < |FirstFive(ps)| ==> Cited(FirstFive(ps)[r]).None?
  {
    GroupsEmpty(FirstFive(ps));
    if ps != [] && Groups(FirstFive(ps)) != [] {
      var parts := Parts(SortedGroups(ps));
      TitleLeIsTotalPreorder();
      SortCorrect(Groups(FirstFive(ps)), TitleLe);
      assert |Layout(parts)| > 0;
    }
  }

  lemma {:induction false} TitleLeIsTotalPreorder()
    ensures TotalPreorder(TitleLe)
  {
    forall a, b ensures TitleLe(a, b) || TitleLe(b, a) {
      LexLeTotal(a.title, b.title);
    }
    forall a, b, c | TitleLe(a, b) && TitleLe(b, c) ensures TitleLe(a, c) {
      LexLeTransitive(a.title, b.title, c.title);
    }
  }

  /**
   * The manuals come out in ascending title order, each once, holding the
   * same entries as `manual_pages`, and every one of them has between 1 and
   * 5 pages.
   */
  lemma {:induction false} SortedGroupsShape(ps: seq<Passage>)
    ensures var groups := Groups(FirstFive(ps));
      var sorted := SortedGroups(ps);
      && multiset(sorted) == multiset(groups)
      && (forall i, j :: 0 <= i < j < |sorted| ==> LexLe(sorted[i].title, sorted[j].title) && sorted[i].title != sorted[j].title)
      && (forall i :: 0 <= i < |sorted| ==> 1 <= |sorted[i].pages| <= 5 && DistinctPages(sorted[i].pages))
  {
    var groups := Groups(FirstFive(ps));
    var sorted := SortedGroups(ps);
    GroupsShape(FirstFive(ps));
    TitleLeIsTotalPreorder();
    SortCorrect(groups, TitleLe);
    forall i | 0 <= i < |sorted| ensures exists a :: 0 <= a < |groups| && groups[a] == sorted[i] {
      assert sorted[i] in multiset(groups);
    }
    DistinctMultiset(groups, sorted);
    forall i, j | 0 <= i < j < |sorted| ensures sorted[i].title != sorted[j].title {
      var a :| 0 <= a < |groups| && groups[a] == sorted[i];
      var b :| 0 <= b < |groups| && groups[b] == sorted[j];
      assert a != b;
    }
  }

  /** Up to five pages are written out one by one: "Page N" for one, "Pages a, b, ..." otherwise. */
  lemma {:induction false} FormatShortLists(pages: seq<int>)
    requires 1 <= |pages| <= 5
    ensures |pages| == 1 ==> FormatPages(pages) == "Page " + IntToString(pages[0])
    ensures |pages| > 1 ==> FormatPages(pages) == "Pages " + Join(IntStrings(pages), ", ")
  {
    if |pages| == 2 {
      var strs := IntStrings(pages);
      assert strs == [IntToString(pages[0])] + IntStrings(pages[1..]);
      assert IntStrings(pages[1..]) == [IntToString(pages[1])] + IntStrings([]);
      assert strs[1..] == [IntToString(pages[1])];
      assert Join(strs, ", ") == IntToString(pages[0]) + ", " + IntToString(pages[1]);
    }
  }

  /**
   * Every page list written is a short list of strictly ascending pages:
   * the range and "and K more" formats are never reached, since no manual
   * gets more than five pages out of five passages.
   */
  lemma {:induction false} OnlyShortPageLists(ps: seq<Passage>, i: nat)
    requires i < |SortedGroups(ps)|
    ensures var g := SortedGroups(ps)[i];
      var pages := Sort(g.pages, IntLe);
      && 1 <= |pages| <= 5
      && (forall a, b :: 0 <= a < b < |pages| ==> pages[a] < pages[b])
      && multiset(pages) == multiset(g.pages)
      && Part(g) == g.title + ", " + (if |pages| == 1 then "Page " + IntToString(pages[0])
                                      else "Pages " + Join(IntStrings(pages), ", "))
  {
    SortedGroupsShape(ps);
    var g := SortedGroups(ps)[i];
    SortedDistinctInts(g.pages);
    IntLeIsTotalPreorder();
    SortCorrect(g.pages, IntLe);
    FormatShortLists(Sort(g.pages, IntLe));
  }

  /** `line` occurs in `s`. */
  predicate Occurs(line: string, s: string) {
    exists off :: 0 <= off <= |s| && LineAt(line, s, off)
  }

  /** `line` occurs in `s` at offset `off`. */
  predicate LineAt(line: string, s: string, off: int) {
    0 <= off && off + |line| <= |s| && s[off..off + |line|] == line
  }

  /** Every part has its bullet line. */
  lemma {:induction false} BulletsHaveLines(parts: seq<string>, i: nat)
    requires i < |parts|
    ensures Occurs(BulletLine(parts[i]), Bullets(parts))
  {
    var n := |parts|;
    var init := Bullets(parts[..n - 1]);
    var s := Bullets(parts);
    assert s == init + BulletLine(parts[n - 1]);
    var line := BulletLine(parts[i]);
    if i == n - 1 {
      assert s[|init|..|init| + |line|] == line;
      assert LineAt(line, s, |init|);
    } else {
      assert parts[..n - 1][i] == parts[i];
      BulletsHaveLines(parts[..n - 1], i);
      var off :| 0 <= off <= |init| && LineAt(line, init, off);
      assert off + |line| <= |init| && init[off..off + |line|] == line;
      assert s[off..off + |line|] == init[off..off + |line|];
      assert LineAt(line, s, off);
    }
  }

  /**
   * One part gives one "Reference:" line; several give the "References:"
   * header and a bullet line for each part.
   */
  lemma {:induction false} LayoutLines(parts: seq<string>)
    ensures |parts| == 1 ==> Layout(parts) == SingleHeader + parts[0]
    ensures |parts| != 1 ==> StartsWith(Layout(parts), ListHeader)
    ensures |parts| != 1 ==> forall i :: 0 <= i < |parts| ==> Occurs(BulletLine(parts[i]), Layout(parts))
  {
    if |parts| != 1 {
      var s := Layout(parts);
      assert s == ListHeader + Bullets(parts);
      assert s[..|ListHeader|] == ListHeader;
      forall i | 0 <= i < |parts| ensures Occurs(BulletLine(parts[i]), s) {
        BulletsHaveLines(parts, i);
        var line := BulletLine(parts[i]);
        var off :| 0 <= off <= |Bullets(parts)| && LineAt(line, Bullets(parts), off);
        assert off + |line| <= |Bullets(parts)| && Bullets(parts)[off..off + |line|] == line;
        assert s[|ListHeader| + off..|ListHeader| + off + |line|] == line;
        assert LineAt(line, s, |ListHeader| + off);
      }
    }
  }

  /**
   * A single cited manual gives one "Reference:" line; several give the
   * "References:" header and a bullet line for each manual, in title order.
   */
  lemma {:induction false} ReferenceLayout(ps: seq<Passage>)
    requires ReferencesSpec(ps) != ""
    ensures ReferencesSpec(ps) == Layout(Parts(SortedGroups(ps)))
    ensures |SortedGroups(ps)| == 1 ==> ReferencesSpec(ps) == SingleHeader + Part(SortedGroups(ps)[0])
    ensures |SortedGroups(ps)| != 1 ==> StartsWith(ReferencesSpec(ps), ListHeader)
    ensures |SortedGroups(ps)| != 1 ==>
      forall i :: 0 <= i < |SortedGroups(ps)| ==> Occurs(BulletLine(Part(SortedGroups(ps)[i])), ReferencesSpec(ps))
  {
    var sorted := SortedGroups(ps);
    var parts := Parts(sorted);
    assert ReferencesSpec(ps) == Layout(parts);
    LayoutLines(parts);
    assert |parts| == |sorted|;
    if |sorted| == 1 {
      assert parts[0] == Part(sorted[0]);
    } else {
      forall i | 0 <= i < |sorted| ensures Occurs(BulletLine(Part(sorted[i])), Layout(parts)) {
        assert parts[i] == Part(sorted[i]);
      }
    }
  }
}
