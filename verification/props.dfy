/** The addon's state as props.py declares it: the item records of the two
    lists, the scene-level `ClusttaProperties` with its defaults, the filter
    enum items derived from the asset list, and the process-wide `Addon`
    record that also holds the module-level globals of helpers.py (the two
    cache keys) and operators.py (the option lists of the three pickers). */
module Props {
  import opened Ordering
  import Text

  datatype AssetItem = AssetItem(
    assetId: string, name: string, filePath: string,
    assetType: string, status: string, fileState: string)

  datatype CheckpointItem = CheckpointItem(
    checkpointId: string, message: string, createdAt: string, author: string)

  /** An entry of a Blender enum: `(identifier, name, description)`. */
  datatype EnumItem = EnumItem(key: string, name: string, description: string)

  /** `ClusttaProperties`; the two collections are sequences. */
  datatype Clustta = Clustta(
    agentConnected: bool,
    activeAccount: string, activeAccountId: string,
    activeStudio: string, activeStudioId: string,
    activeProject: string, activeProjectId: string,
    assets: seq<AssetItem>, activeAssetIndex: int,
    checkpoints: seq<CheckpointItem>, activeCheckpointIndex: int,
    checkpointMessage: string)

  /** The property defaults: not connected, nothing selected, empty lists. */
  function Defaults(): (p: Clustta)
    ensures !p.agentConnected
    ensures p.activeAssetIndex == -1 && p.activeCheckpointIndex == -1
    ensures p.assets == [] && p.checkpoints == []
    ensures p.activeAccount == p.activeAccountId == p.activeStudio == p.activeStudioId == ""
    ensures p.activeProject == p.activeProjectId == p.checkpointMessage == ""
  {
    Clustta(false, "", "", "", "", "", "", [], -1, [], -1, "")
  }

  /** The two filter enums, each a sentinel followed by one entry per value. */
  datatype Filters = Filters(assetTypes: seq<EnumItem>, statuses: seq<EnumItem>)

  const AllAssetTypes: EnumItem := EnumItem("ALL", "All Asset Types", "")
  const AllStatuses: EnumItem := EnumItem("ALL", "All Statuses", "")

  /** The module-level filter lists before any asset list was loaded. */
  function InitialFilters(): Filters {
    Filters([AllAssetTypes], [AllStatuses])
  }

  function Keys(items: seq<EnumItem>): (ks: seq<string>)
    ensures |ks| == |items| && forall i :: 0 <= i < |items| ==> ks[i] == items[i].key
  {
    seq(|items|, i requires 0 <= i < |items| => items[i].key)
  }

  /** The distinct non-empty asset types present in the list. */
  function TypesOf(assets: seq<AssetItem>): set<string> {
    set a | a in assets && a.assetType != "" :: a.assetType
  }

  /** The distinct non-empty statuses present in the list. */
  function StatusesOf(assets: seq<AssetItem>): set<string> {
    set a | a in assets && a.status != "" :: a.status
  }

  /** The non-empty asset types in list order, repeats included. */
  function TypeValues(assets: seq<AssetItem>): (vs: seq<string>)
    ensures Elems(vs) == TypesOf(assets)
  {
    if |assets| == 0 then []
    else
      var n := |assets| - 1;
      assert assets == assets[..n] + [assets[n]];
      var vs := TypeValues(assets[..n]);
      var a := assets[n];
      assert TypesOf(assets) == TypesOf(assets[..n]) + (if a.assetType != "" then {a.assetType} else {}) by {
        forall t ensures t in TypesOf(assets) <==> t in TypesOf(assets[..n]) || (a.assetType != "" && t == a.assetType) {
          if t in TypesOf(assets) {
            var b :| b in assets && b.assetType != "" && b.assetType == t;
            assert b in assets[..n] || b == a;
          }
        }
      }
      assert Elems(vs + [a.assetType]) == Elems(vs) + {a.assetType};
      if a.assetType != "" then vs + [a.assetType] else vs
  }

  function StatusValues(assets: seq<AssetItem>): (vs: seq<string>)
    ensures Elems(vs) == StatusesOf(assets)
  {
    if |assets| == 0 then []
    else
      var n := |assets| - 1;
      assert assets == assets[..n] + [assets[n]];
      var vs := StatusValues(assets[..n]);
      var a := assets[n];
      assert StatusesOf(assets) == StatusesOf(assets[..n]) + (if a.status != "" then {a.status} else {}) by {
        forall t ensures t in StatusesOf(assets) <==> t in StatusesOf(assets[..n]) || (a.status != "" && t == a.status) {
          if t in StatusesOf(assets) {
            var b :| b in assets && b.status != "" && b.status == t;
            assert b in assets[..n] || b == a;
          }
        }
      }
      assert Elems(vs + [a.status]) == Elems(vs) + {a.status};
      if a.status != "" then vs + [a.status] else vs
  }

  /** One enum entry per key, keyed by the raw value and named by `nameOf`. */
  function Entries(keys: seq<string>, nameOf: string -> string): (items: seq<EnumItem>)
    ensures Keys(items) == keys
    ensures forall i :: 0 <= i < |items| ==> items[i] == EnumItem(keys[i], nameOf(keys[i]), "")
  {
    seq(|keys|, i requires 0 <= i < |keys| => EnumItem(keys[i], nameOf(keys[i]), ""))
  }

  function TypeLabel(t: string): string { Text.Title(t) }
  function StatusLabel(s: string): string { Text.Upper(s) }

  /** `update_filter_items`: each list is its sentinel followed by the
      distinct non-empty values present in the assets, strictly ascending,
      keyed by the raw value; asset types are labelled in title case and
      statuses in upper case. */
  function UpdateFilterItems(assets: seq<AssetItem>): (f: Filters)
    ensures |f.assetTypes| >= 1 && f.assetTypes[0] == AllAssetTypes
    ensures |f.statuses| >= 1 && f.statuses[0] == AllStatuses
    ensures StrictlySorted(Keys(f.assetTypes[1..])) && Elems(Keys(f.assetTypes[1..])) == TypesOf(assets)
    ensures StrictlySorted(Keys(f.statuses[1..])) && Elems(Keys(f.statuses[1..])) == StatusesOf(assets)
    ensures forall i :: 1 <= i < |f.assetTypes| ==> f.assetTypes[i].name == Text.Title(f.assetTypes[i].key) && f.assetTypes[i].description == ""
    ensures forall i :: 1 <= i < |f.statuses| ==> f.statuses[i].name == Text.Upper(f.statuses[i].key) && f.statuses[i].description == ""
  {
    var types := Entries(SortDistinct(TypeValues(assets)), TypeLabel);
    var statuses := Entries(SortDistinct(StatusValues(assets)), StatusLabel);
    assert ([AllAssetTypes] + types)[1..] == types;
    assert ([AllStatuses] + statuses)[1..] == statuses;
    Filters([AllAssetTypes] + types, [AllStatuses] + statuses)
  }

  /** The filter lists depend only on which values are present, not on the
      order of the assets or how often a value occurs. */
  lemma FiltersDependOnlyOnValues(xs: seq<AssetItem>, ys: seq<AssetItem>)
    requires TypesOf(xs) == TypesOf(ys) && StatusesOf(xs) == StatusesOf(ys)
    ensures UpdateFilterItems(xs) == UpdateFilterItems(ys)
  {
    SortDistinctOnlyOnElems(TypeValues(xs), TypeValues(ys));
    SortDistinctOnlyOnElems(StatusValues(xs), StatusValues(ys));
  }

  /** With no assets each list is its sentinel alone, which is also what the
      module starts with. */
  lemma NoAssetsOnlySentinels()
    ensures UpdateFilterItems([]) == InitialFilters()
  {
  }

  /** Asset types `Modeling`, `Rigging`, `Modeling` give the asset-type
      filter `ALL`, `Modeling`, `Rigging`. */
  lemma FilterExample(a: AssetItem, b: AssetItem, c: AssetItem)
    requires a.assetType == "Modeling" && b.assetType == "Rigging" && c.assetType == "Modeling"
    ensures Keys(UpdateFilterItems([a, b, c]).assetTypes) == ["ALL", "Modeling", "Rigging"]
  {
    ExampleTypes(a, b, c);
    ExampleKeys(UpdateFilterItems([a, b, c]).assetTypes);
  }

  lemma ExampleKeys(ts: seq<EnumItem>)
    requires |ts| >= 1 && ts[0] == AllAssetTypes
    requires StrictlySorted(Keys(ts[1..])) && Elems(Keys(ts[1..])) == {"Modeling", "Rigging"}
    ensures Keys(ts) == ["ALL", "Modeling", "Rigging"]
  {
    var expected := ["Modeling", "Rigging"];
    ExampleOrder(expected);
    var ks := Keys(ts[1..]);
    SortedUnique(ks, expected);
    assert |ts| == 3 && ts[1].key == ks[0] && ts[2].key == ks[1];
  }

  lemma ExampleTypes(a: AssetItem, b: AssetItem, c: AssetItem)
    requires a.assetType == "Modeling" && b.assetType == "Rigging" && c.assetType == "Modeling"
    ensures TypesOf([a, b, c]) == {"Modeling", "Rigging"}
  {
  }

  lemma ExampleOrder(expected: seq<string>)
    requires expected == ["Modeling", "Rigging"]
    ensures StrictlySorted(expected) && Elems(expected) == {"Modeling", "Rigging"}
  {
  }

  /** The process-wide state: the scene's properties and the module globals. */
  datatype Addon = Addon(
    scene: Clustta,
    loadedAssetsProjectId: string,
    loadedCheckpointAssetId: string,
    filters: Filters,
    accountItems: seq<EnumItem>,
    studioItems: seq<EnumItem>,
    projectItems: seq<EnumItem>)

  /** The state right after registration. */
  function Initial(): (st: Addon)
    ensures st.scene == Defaults()
    ensures st.loadedAssetsProjectId == "" && st.loadedCheckpointAssetId == ""
    ensures st.filters == UpdateFilterItems([])
    ensures st.accountItems == [] && st.studioItems == [] && st.projectItems == []
  {
    NoAssetsOnlySentinels();
    Addon(Defaults(), "", "", InitialFilters(), [], [], [])
  }
}
