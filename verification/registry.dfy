/**
 * The registry of equipment manuals: one fixed list of definitions, their
 * metadata, and the queries over it.  Whether a manual's PDF is on disk is
 * given as the set of paths that exist.
 */
module Registry {
  import opened Text
  import opened Values
  import opened Lists
  import Keywords

  /** A manual definition; language defaults to "en" and tier to 1. */
  datatype ManualDefinition = ManualDefinition(
    pdfPath: string,
    equipmentType: string,
    equipmentBrand: string,
    equipmentModel: string,
    manualType: string,
    title: string,
    language: string := "en",
    tier: int := 1)

  /** `os.path.basename`: what follows the last '/'. */
  function Basename(path: string): string {
    var parts := SplitOn(path, '/');
    parts[|parts| - 1]
  }

  /** `to_metadata`: the chunk metadata a manual contributes. */
  function ToMetadata(m: ManualDefinition): (md: Dict)
    ensures md.Keys == {"source", "title", "equipment_type", "equipment_brand", "equipment_model",
                        "manual_type", "language", "tier"}
    ensures md["source"] == VStr(Basename(m.pdfPath))
    ensures md["title"] == VStr(m.title) && md["tier"] == VInt(m.tier)
    ensures md["equipment_type"] == VStr(m.equipmentType) && md["equipment_brand"] == VStr(m.equipmentBrand)
  {
    map[
      "source" := VStr(Basename(m.pdfPath)),
      "title" := VStr(m.title),
      "equipment_type" := VStr(m.equipmentType),
      "equipment_brand" := VStr(m.equipmentBrand),
      "equipment_model" := VStr(m.equipmentModel),
      "manual_type" := VStr(m.manualType),
      "language" := VStr(m.language),
      "tier" := VInt(m.tier)]
  }

  /** The registered manuals, in registry order. */
  const Manuals: seq<ManualDefinition> := [
    ManualDefinition("Manuals/pos/V400m POS Manual.pdf", "POS", "V400m", "V400m", "software",
                     "V400m POS Manual", tier := 3),
    ManualDefinition("Manuals/coffee/Coffee Maker Manual.pdf", "Coffee_Maker", "Metos", "M200 / MT200",
                     "operation", "Coffee Maker Manual", tier := 1),
    ManualDefinition("Manuals/kitchen/Vulcan Installation & Operation Manual.pdf", "Oven", "Vulcan", "VC4GD",
                     "operation", "Vulcan Installation & Operation Manual", tier := 2),
    ManualDefinition("Manuals/kitchen/Pitco Fryer Manual.pdf", "Fryer", "Pitco", "SG14", "operation",
                     "Pitco Fryer Manual", tier := 2)]

  /** `exists()`: the manual's PDF path is on disk. */
  predicate Exists(m: ManualDefinition, onDisk: set<string>) {
    m.pdfPath in onDisk
  }

  function AvailableManuals(ms: seq<ManualDefinition>, onDisk: set<string>): seq<ManualDefinition> {
    Filter(ms, m => Exists(m, onDisk))
  }

  function MissingManuals(ms: seq<ManualDefinition>, onDisk: set<string>): seq<ManualDefinition> {
    FilterOut(ms, m => Exists(m, onDisk))
  }

  function ByEquipmentType(ms: seq<ManualDefinition>, equipmentType: string): seq<ManualDefinition> {
    Filter(ms, (m: ManualDefinition) => m.equipmentType == equipmentType)
  }

  function ByTier(ms: seq<ManualDefinition>, tier: int): seq<ManualDefinition> {
    Filter(ms, (m: ManualDefinition) => m.tier == tier)
  }

  datatype ManualSummary = ManualSummary(title: string, path: string, equipmentType: string)

  datatype Validation = Validation(
    totalRegistered: nat,
    available: nat,
    missing: nat,
    availableManuals: seq<ManualSummary>,
    missingManuals: seq<ManualSummary>)

  function Summarize(m: ManualDefinition): ManualSummary {
    ManualSummary(m.title, m.pdfPath, m.equipmentType)
  }

  /** `validate_manuals`: counts and summaries of the available and the missing manuals. */
  function ValidateManuals(ms: seq<ManualDefinition>, onDisk: set<string>): (v: Validation)
    ensures v.available + v.missing == v.totalRegistered == |ms|
    ensures v.availableManuals == Map(AvailableManuals(ms, onDisk), Summarize)
    ensures v.missingManuals == Map(MissingManuals(ms, onDisk), Summarize)
    ensures |v.availableManuals| == v.available && |v.missingManuals| == v.missing
  {
    var available := AvailableManuals(ms, onDisk);
    var missing := MissingManuals(ms, onDisk);
    FilterPartition(ms, m => Exists(m, onDisk));
    Validation(|ms|, |available|, |missing|, Map(available, Summarize), Map(missing, Summarize))
  }

  /** Available and missing manuals partition the registry: each manual lands in exactly one. */
  lemma {:induction false} AvailableMissingPartition(ms: seq<ManualDefinition>, onDisk: set<string>)
    ensures forall m :: m in AvailableManuals(ms, onDisk) <==> m in ms && m.pdfPath in onDisk
    ensures forall m :: m in MissingManuals(ms, onDisk) <==> m in ms && m.pdfPath !in onDisk
    ensures multiset(AvailableManuals(ms, onDisk)) + multiset(MissingManuals(ms, onDisk)) == multiset(ms)
  {
    FilterMembers(ms, m => Exists(m, onDisk));
    FilterPartition(ms, m => Exists(m, onDisk));
  }

  /** The type and tier queries return exactly the manuals with that field, as often as registered. */
  lemma {:induction false} SelectionsAreExact(ms: seq<ManualDefinition>, equipmentType: string, tier: int)
    ensures forall m :: multiset(ByEquipmentType(ms, equipmentType))[m]
                          == if m.equipmentType == equipmentType then multiset(ms)[m] else 0
    ensures forall m :: multiset(ByTier(ms, tier))[m] == if m.tier == tier then multiset(ms)[m] else 0
  {
    FilterCounts(ms, (m: ManualDefinition) => m.equipmentType == equipmentType);
    FilterCounts(ms, (m: ManualDefinition) => m.tier == tier);
  }

  /** Every registered manual's brand maps, in the retrieval engine's brand table, to its own type. */
  lemma {:induction false} RegisteredBrandsHaveTheirType()
    ensures forall m :: m in Manuals ==>
      m.equipmentBrand in Keywords.BrandToType && Keywords.BrandToType[m.equipmentBrand] == m.equipmentType
  {
  }

  /**
   * `basename` is the file name: it holds no '/', and the path is that name,
   * or a prefix ending in '/' followed by it.
   */
  lemma {:induction false} BasenameIsFileName(path: string)
    ensures '/' !in Basename(path)
    ensures exists dir :: path == dir + Basename(path) && (dir == [] || dir[|dir| - 1] == '/')
  {
    var parts := SplitOn(path, '/');
    var n := |parts|;
    var name := parts[n - 1];
    assert Basename(path) == name;
    assert '/' !in name && Join(parts, "/") == path by {
      SplitOnJoin(path, '/');
    }
    if n == 1 {
      assert Join(parts, "/") == name;
      assert path == [] + name;
    } else {
      var dirs := parts[..n - 1];
      assert parts == dirs + [name];
      JoinSnoc(dirs, name, "/");
      var dir := Join(dirs, "/") + "/";
      assert path == dir + name;
    }
  }
}
