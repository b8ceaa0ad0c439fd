/**
 * The fixed keyword tables that turn free text into a brand or an equipment
 * type, and the first-match lookups over them.  The chat front end and the
 * retrieval engine keep their own copies of the brand table, in different
 * orders; both are kept here.
 */
module Keywords {
  import opened Wrappers
  import opened Text

  type BrandTable = seq<(string, string)>
  type TypeTable = seq<(string, seq<string>)>

  /** The brand table the retrieval engine uses to infer a brand from the previous question. */
  const WorkflowBrandKeywords: BrandTable := [
    ("square", "Square"), ("clover", "Clover"), ("oracle", "Oracle"), ("micros", "Oracle"),
    ("lucas", "Oracle"), ("metos", "Metos"), ("la marzocco", "La Marzocco"), ("vulcan", "Vulcan"),
    ("lincoln", "Lincoln"), ("pitco", "Pitco"), ("manitowoc", "Manitowoc"), ("v400m", "V400m"),
    ("adyen", "V400m")]

  /** The brand table the chat front end uses to spot an explicit brand in a message. */
  const UiBrandKeywords: BrandTable := [
    ("square", "Square"), ("clover", "Clover"), ("oracle", "Oracle"), ("micros", "Oracle"),
    ("lucas", "Oracle"), ("metos", "Metos"), ("vulcan", "Vulcan"), ("lincoln", "Lincoln"),
    ("pitco", "Pitco"), ("la marzocco", "La Marzocco"), ("manitowoc", "Manitowoc"),
    ("v400m", "V400m"), ("adyen", "V400m")]

  const EquipmentTypeKeywords: TypeTable := [
    ("POS", ["pos", "terminal", "payment", "refund", "void", "transaction", "totals", "receipt",
             "merchant", "card", "paper roll"]),
    ("Coffee_Maker", ["coffee maker", "coffee machine", "brew", "descale", "carafe"]),
    ("Espresso_Machine", ["espresso", "steam wand", "portafilter"]),
    ("Fryer", ["fryer", "fry", "oil", "basket", "boil out", "boil-out", "filtering"]),
    ("Pizza_Oven", ["pizza oven", "impinger"]),
    ("Oven", ["oven", "convection", "bake", "broil", "thermostat", "roast"]),
    ("Ice_Machine", ["ice machine", "ice maker"])]

  /** The retrieval engine's brand -> equipment type table. */
  const BrandToType: map<string, string> := map[
    "Square" := "POS", "Clover" := "POS", "Oracle" := "POS", "V400m" := "POS",
    "Metos" := "Coffee_Maker", "La Marzocco" := "Espresso_Machine", "Vulcan" := "Oven",
    "Lincoln" := "Pizza_Oven", "Pitco" := "Fryer", "Manitowoc" := "Ice_Machine"]

  function TypeForBrand(brand: string): Option<string> {
    if brand in BrandToType then Some(BrandToType[brand]) else None
  }

  /** The brand of the first entry, in table order, whose keyword occurs in `t`. */
  function FirstBrand(table: BrandTable, t: string): Option<string> {
    if table == [] then None
    else if Contains(t, table[0].0) then Some(table[0].1)
    else FirstBrand(table[1..], t)
  }

  /** A table whose brands are all non-empty never yields an empty brand. */
  lemma {:induction false} BrandTableNonEmpty(table: BrandTable, t: string)
    requires forall i :: 0 <= i < |table| ==> table[i].1 != ""
    ensures FirstBrand(table, t).Some? ==> FirstBrand(table, t).value != ""
  {
    if table != [] && !Contains(t, table[0].0) {
      BrandTableNonEmpty(table[1..], t);
    }
  }

  predicate AnyContained(t: string, keywords: seq<string>) {
    exists m :: 0 <= m < |keywords| && Contains(t, keywords[m])
  }

  /** The type of the first entry, in table order, any of whose keywords occurs in `t`. */
  function FirstType(table: TypeTable, t: string): Option<string> {
    if table == [] then None
    else if AnyContained(t, table[0].1) then Some(table[0].0)
    else FirstType(table[1..], t)
  }

  /** First-match-wins, stated by position: the answer is the entry at the first matching index. */
  lemma {:induction false} FirstBrandIsFirstMatch(table: BrandTable, t: string)
    ensures FirstBrand(table, t).None? <==> forall i :: 0 <= i < |table| ==> !Contains(t, table[i].0)
    ensures FirstBrand(table, t).Some? ==>
      exists i :: 0 <= i < |table| && Contains(t, table[i].0) && FirstBrand(table, t).value == table[i].1
        && forall j :: 0 <= j < i ==> !Contains(t, table[j].0)
  {
    if table != [] && !Contains(t, table[0].0) {
      FirstBrandIsFirstMatch(table[1..], t);
      assert forall i :: 1 <= i < |table| ==> table[i] == table[1..][i - 1];
      if FirstBrand(table, t).Some? {
        var i :| 0 <= i < |table[1..]| && Contains(t, table[1..][i].0)
          && FirstBrand(table, t).value == table[1..][i].1
          && forall j :: 0 <= j < i ==> !Contains(t, table[1..][j].0);
        assert forall j :: 0 <= j < i + 1 ==> !Contains(t, table[j].0) by {
          forall j | 0 <= j < i + 1 ensures !Contains(t, table[j].0) {
            if j > 0 {
              assert table[j] == table[1..][j - 1];
            }
          }
        }
      }
    }
  }

  /** The same for types: the type of the first entry, in table order, one of whose keywords occurs. */
  lemma {:induction false} FirstTypeIsFirstMatch(table: TypeTable, t: string)
    ensures FirstType(table, t).None? <==> forall i :: 0 <= i < |table| ==> !AnyContained(t, table[i].1)
    ensures FirstType(table, t).Some? ==>
      exists i :: 0 <= i < |table| && AnyContained(t, table[i].1) && FirstType(table, t).value == table[i].0
        && forall j :: 0 <= j < i ==> !AnyContained(t, table[j].1)
  {
    if table != [] && !AnyContained(t, table[0].1) {
      FirstTypeIsFirstMatch(table[1..], t);
      assert forall i :: 1 <= i < |table| ==> table[i] == table[1..][i - 1];
      if FirstType(table, t).Some? {
        var i :| 0 <= i < |table[1..]| && AnyContained(t, table[1..][i].1)
          && FirstType(table, t).value == table[1..][i].0
          && forall j :: 0 <= j < i ==> !AnyContained(t, table[1..][j].1);
        assert forall j :: 0 <= j < i + 1 ==> !AnyContained(t, table[j].1) by {
          forall j | 0 <= j < i + 1 ensures !AnyContained(t, table[j].1) {
            if j > 0 {
              assert table[j] == table[1..][j - 1];
            }
          }
        }
      }
    }
  }

  /** The brand loop: walk the table in order and stop at the first keyword the text contains. */
  method ScanBrands(table: BrandTable, t: string) returns (brand: Option<string>)
    ensures brand == FirstBrand(table, t)
  {
    var i := 0;
    while i < |table|
      invariant 0 <= i <= |table|
      invariant FirstBrand(table, t) == FirstBrand(table[i..], t)
    {
      assert table[i..][1..] == table[i + 1..];
      if Contains(t, table[i].0) {
        return Some(table[i].1);
      }
      i := i + 1;
    }
    return None;
  }

  /** The equipment-type loop: the first type, in table order, one of whose keywords the text contains. */
  method ScanTypes(types: TypeTable, t: string) returns (equipmentType: Option<string>)
    ensures equipmentType == FirstType(types, t)
  {
    var j := 0;
    while j < |types|
      invariant 0 <= j <= |types|
      invariant FirstType(types, t) == FirstType(types[j..], t)
    {
      assert types[j..][1..] == types[j + 1..];
      var keywords := types[j].1;
      var found := false;
      var k := 0;
      while k < |keywords|
        invariant 0 <= k <= |keywords|
        invariant !found ==> forall m :: 0 <= m < k ==> !Contains(t, keywords[m])
        invariant found ==> AnyContained(t, keywords)
      {
        if Contains(t, keywords[k]) {
          found := true;
          break;
        }
        k := k + 1;
      }
      if found {
        return Some(types[j].0);
      }
      j := j + 1;
    }
    return None;
  }

  /** `infer_brand_from_text`: lower-case the text, return the first brand whose keyword it contains. */
  method InferBrandFromText(text: string) returns (brand: Option<string>)
    ensures brand == FirstBrand(WorkflowBrandKeywords, Lower(text))
  {
    brand := ScanBrands(WorkflowBrandKeywords, Lower(text));
  }

  /**
   * `detect_equipment_in_query`: case-insensitive substring search for the
   * first brand keyword and the first equipment type with a matching keyword.
   */
  method DetectEquipmentInQuery(text: string) returns (brand: Option<string>, equipmentType: Option<string>)
    ensures brand == FirstBrand(UiBrandKeywords, Lower(text))
    ensures equipmentType == FirstType(EquipmentTypeKeywords, Lower(text))
  {
    var t := Lower(text);
    brand := ScanBrands(UiBrandKeywords, t);
    equipmentType := ScanTypes(EquipmentTypeKeywords, t);
  }

  /**
   * The two brand tables disagree on a text that names both "vulcan" and
   * "la marzocco" and none of the brands listed before them in both tables.
   */
  lemma {:induction false} BrandTablesDisagree(t: string)
    requires Contains(t, "vulcan") && Contains(t, "la marzocco")
    requires !Contains(t, "square") && !Contains(t, "clover") && !Contains(t, "oracle")
    requires !Contains(t, "micros") && !Contains(t, "lucas") && !Contains(t, "metos")
    ensures FirstBrand(WorkflowBrandKeywords, t) == Some("La Marzocco")
    ensures FirstBrand(UiBrandKeywords, t) == Some("Vulcan")
  {
    var w := WorkflowBrandKeywords;
    assert forall j :: 0 <= j < 6 ==> !Contains(t, w[j].0);
    SkipUnmatched(w, 6, t);
    assert w[6..][0].0 == "la marzocco";
    var u := UiBrandKeywords;
    assert forall j :: 0 <= j < 6 ==> !Contains(t, u[j].0);
    SkipUnmatched(u, 6, t);
    assert u[6..][0].0 == "vulcan";
  }

  lemma {:induction false} SkipUnmatched(table: BrandTable, n: nat, t: string)
    requires n <= |table|
    requires forall j :: 0 <= j < n ==> !Contains(t, table[j].0)
    ensures FirstBrand(table, t) == FirstBrand(table[n..], t)
  {
    if n > 0 {
      SkipUnmatched(table[1..], n - 1, t);
      assert table[1..][n - 1..] == table[n..];
    }
  }
}
