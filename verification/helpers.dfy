/** The loading layer of helpers.py: the file-state icon table, the two
    list loaders with their "last loaded for" cache keys, and the resets that
    force a re-fetch. The agent's reply to a fetch is a parameter; each
    transition also returns the agent calls it made. */
module Helpers {
  import opened Options
  import opened ApiClient
  import opened Props
  import Timestamp

  const FileStateIcons: map<string, string> := map[
    "normal" := "CHECKMARK",
    "outdated" := "IMPORT",
    "modified" := "GREASEPENCIL",
    "rebuildable" := "FILE_REFRESH",
    "missing" := "ERROR"]

  const FileStateDefaultIcon: string := "RADIOBUT_OFF"

  /** `get_file_state_icon`: total; the five known states have their own
      icon and every other string gets the default. */
  function FileStateIcon(state: string): (icon: string)
    ensures state == "normal" ==> icon == "CHECKMARK"
    ensures state == "outdated" ==> icon == "IMPORT"
    ensures state == "modified" ==> icon == "GREASEPENCIL"
    ensures state == "rebuildable" ==> icon == "FILE_REFRESH"
    ensures state == "missing" ==> icon == "ERROR"
    ensures state !in {"normal", "outdated", "modified", "rebuildable", "missing"} ==> icon == "RADIOBUT_OFF"
  {
    if state in FileStateIcons then FileStateIcons[state] else FileStateDefaultIcon
  }

  /** The default icon marks exactly the unknown states. */
  lemma DefaultIconIffUnknown(state: string)
    ensures FileStateIcon(state) == FileStateDefaultIcon <==> state !in FileStateIcons
  {
  }

  /** The field mapping of one fetched asset record. */
  function AssetFromRecord(a: Record): (item: AssetItem)
    ensures item.assetId == Field(a, "id") && item.name == Field(a, "name")
    ensures item.filePath == Field(a, "file_path") && item.assetType == Field(a, "task_type_name")
    ensures item.status == Field(a, "status_short_name") && item.fileState == Field(a, "file_status")
  {
    AssetItem(Field(a, "id"), Field(a, "name"), Field(a, "file_path"),
              Field(a, "task_type_name"), Field(a, "status_short_name"), Field(a, "file_status"))
  }

  /** The field mapping of one fetched checkpoint record; the creation time
      is shown in its short form. */
  function CheckpointFromRecord(cp: Record): (item: CheckpointItem)
    ensures item.checkpointId == Field(cp, "id") && item.message == Field(cp, "comment")
    ensures item.createdAt == Timestamp.FormatTimestamp(Field(cp, "created_at"))
    ensures item.author == Field(cp, "author_id")
  {
    CheckpointItem(Field(cp, "id"), Field(cp, "comment"),
                   Timestamp.FormatTimestamp(Field(cp, "created_at")), Field(cp, "author_id"))
  }

  function AssetsFromRecords(recs: seq<Record>): (items: seq<AssetItem>)
    ensures |items| == |recs| && forall i :: 0 <= i < |recs| ==> items[i] == AssetFromRecord(recs[i])
  {
    seq(|recs|, i requires 0 <= i < |recs| => AssetFromRecord(recs[i]))
  }

  function CheckpointsFromRecords(recs: seq<Record>): (items: seq<CheckpointItem>)
    ensures |items| == |recs| && forall i :: 0 <= i < |recs| ==> items[i] == CheckpointFromRecord(recs[i])
  {
    seq(|recs|, i requires 0 <= i < |recs| => CheckpointFromRecord(recs[i]))
  }

  /** `load_assets`' return value and the state it leaves. */
  datatype Loaded = Loaded(addon: Addon, ok: bool, err: Option<string>)

  /** `load_assets`. On an error it reports `(False, err)` and changes
      nothing. Otherwise the asset list becomes one item per fetched record,
      in order, the selection is cleared, the cache key becomes the active
      project and the filter lists are rebuilt; nothing else changes. */
  function LoadAssets(st: Addon, reply: Reply<seq<Record>>): (l: Loaded)
    ensures Failed(reply) ==> !l.ok && l.err == Some(reply.message) && l.addon == st
    ensures !Failed(reply) ==> l.ok && l.err.None?
    ensures !Failed(reply) ==>
      && |l.addon.scene.assets| == |Items(reply)|
      && (forall i :: 0 <= i < |Items(reply)| ==> l.addon.scene.assets[i] == AssetFromRecord(Items(reply)[i]))
      && l.addon.scene.activeAssetIndex == -1
      && l.addon.loadedAssetsProjectId == st.scene.activeProjectId
      && l.addon.filters == UpdateFilterItems(l.addon.scene.assets)
      && l.addon.(scene := l.addon.scene.(assets := st.scene.assets, activeAssetIndex := st.scene.activeAssetIndex),
                  loadedAssetsProjectId := st.loadedAssetsProjectId, filters := st.filters) == st
  {
    if Failed(reply) then Loaded(st, false, Some(reply.message))
    else
      var assets := AssetsFromRecords(Items(reply));
      var scene := st.scene.(assets := assets, activeAssetIndex := -1);
      Loaded(st.(scene := scene, loadedAssetsProjectId := st.scene.activeProjectId,
                 filters := UpdateFilterItems(assets)), true, None)
  }

  /** A state and the agent calls that led to it. */
  datatype Ensured = Ensured(addon: Addon, calls: seq<Call>)

  /** The cache-hit test of `ensure_assets_loaded`. */
  predicate AssetsFresh(st: Addon) {
    st.loadedAssetsProjectId == st.scene.activeProjectId && |st.scene.assets| > 0
  }

  /** `ensure_assets_loaded`: no fetch exactly when the list is non-empty
      and was loaded for the active project; otherwise one fetch, applied as
      `load_assets` applies it. */
  function EnsureAssetsLoaded(st: Addon, reply: Reply<seq<Record>>): (e: Ensured)
    ensures e.calls == [] <==> AssetsFresh(st)
    ensures AssetsFresh(st) ==> e.addon == st
    ensures !AssetsFresh(st) ==> e.calls == [FetchAssets] && e.addon == LoadAssets(st, reply).addon
  {
    if AssetsFresh(st) then Ensured(st, []) else Ensured(LoadAssets(st, reply).addon, [FetchAssets])
  }

  /** `load_checkpoints`: always empties the list, clears the selection and
      records `assetId` as loaded, even when the fetch failed; the list is
      filled, in order, only from a reply without error and with at least
      one record. Nothing else changes. */
  function LoadCheckpoints(st: Addon, assetId: string, reply: Reply<seq<Record>>): (st': Addon)
    ensures st'.loadedCheckpointAssetId == assetId
    ensures st'.scene.activeCheckpointIndex == -1
    ensures !NonEmptyList(reply) ==> st'.scene.checkpoints == []
    ensures NonEmptyList(reply) ==>
      && |st'.scene.checkpoints| == |reply.data.value|
      && forall i :: 0 <= i < |reply.data.value| ==> st'.scene.checkpoints[i] == CheckpointFromRecord(reply.data.value[i])
    ensures st'.(scene := st'.scene.(checkpoints := st.scene.checkpoints, activeCheckpointIndex := st.scene.activeCheckpointIndex),
                 loadedCheckpointAssetId := st.loadedCheckpointAssetId) == st
  {
    var checkpoints := if !Failed(reply) && NonEmptyList(reply) then CheckpointsFromRecords(reply.data.value) else [];
    st.(scene := st.scene.(checkpoints := checkpoints, activeCheckpointIndex := -1),
        loadedCheckpointAssetId := assetId)
  }

  /** `ensure_checkpoints_loaded`: no fetch exactly when the key equals
      `assetId`, whatever the list holds. */
  function EnsureCheckpointsLoaded(st: Addon, assetId: string, reply: Reply<seq<Record>>): (e: Ensured)
    ensures e.calls == [] <==> st.loadedCheckpointAssetId == assetId
    ensures e.calls == [] ==> e.addon == st
    ensures e.calls != [] ==> e.calls == [FetchCheckpoints(assetId)] && e.addon == LoadCheckpoints(st, assetId, reply)
  {
    if st.loadedCheckpointAssetId == assetId then Ensured(st, [])
    else Ensured(LoadCheckpoints(st, assetId, reply), [FetchCheckpoints(assetId)])
  }

  /** `reset_asset_cache`: clears its own key and nothing else. */
  function ResetAssetCache(st: Addon): (st': Addon)
    ensures st'.loadedAssetsProjectId == ""
    ensures st'.(loadedAssetsProjectId := st.loadedAssetsProjectId) == st
  {
    st.(loadedAssetsProjectId := "")
  }

  /** `reset_checkpoint_cache`: clears its own key and nothing else. */
  function ResetCheckpointCache(st: Addon): (st': Addon)
    ensures st'.loadedCheckpointAssetId == ""
    ensures st'.(loadedCheckpointAssetId := st.loadedCheckpointAssetId) == st
  {
    st.(loadedCheckpointAssetId := "")
  }

  /** After a reset, the next ensure fetches whenever a project is active. */
  lemma ResetForcesAssetFetch(st: Addon, reply: Reply<seq<Record>>)
    requires st.scene.activeProjectId != ""
    ensures EnsureAssetsLoaded(ResetAssetCache(st), reply).calls == [FetchAssets]
  {
  }

  /** After a reset, the next ensure fetches for every non-empty asset id. */
  lemma ResetForcesCheckpointFetch(st: Addon, assetId: string, reply: Reply<seq<Record>>)
    requires assetId != ""
    ensures EnsureCheckpointsLoaded(ResetCheckpointCache(st), assetId, reply).calls == [FetchCheckpoints(assetId)]
  {
  }

  /** A load that brought at least one asset makes the next ensure a hit:
      two ensures in a row fetch at most once. */
  lemma SecondEnsureIsHit(st: Addon, r1: Reply<seq<Record>>, r2: Reply<seq<Record>>)
    requires !Failed(r1) && |Items(r1)| > 0
    ensures var e1 := EnsureAssetsLoaded(st, r1);
            EnsureAssetsLoaded(e1.addon, r2) == Ensured(e1.addon, [])
  {
  }

  /** A load that brought no assets is not cached: the next ensure fetches again. */
  lemma EmptyLoadRefetched(st: Addon, r1: Reply<seq<Record>>, r2: Reply<seq<Record>>)
    requires !AssetsFresh(st) && !Failed(r1) && |Items(r1)| == 0
    ensures EnsureAssetsLoaded(EnsureAssetsLoaded(st, r1).addon, r2).calls == [FetchAssets]
  {
  }

  /** A failed asset fetch is never remembered: the next ensure retries. */
  lemma FailedAssetFetchRetried(st: Addon, r1: Reply<seq<Record>>, r2: Reply<seq<Record>>)
    requires !AssetsFresh(st) && Failed(r1)
    ensures EnsureAssetsLoaded(EnsureAssetsLoaded(st, r1).addon, r2).calls == [FetchAssets]
  {
  }

  /** A failed checkpoint fetch is remembered: the next ensure for the same
      asset is a hit that leaves the list empty until a reset. */
  lemma FailedCheckpointFetchCached(st: Addon, assetId: string, r1: Reply<seq<Record>>, r2: Reply<seq<Record>>)
    requires Failed(r1)
    ensures var s1 := LoadCheckpoints(st, assetId, r1);
            s1.scene.checkpoints == [] && EnsureCheckpointsLoaded(s1, assetId, r2) == Ensured(s1, [])
  {
  }

  /** The key written by a load makes any ensure for the same asset a hit. */
  lemma SecondCheckpointEnsureIsHit(st: Addon, assetId: string, r1: Reply<seq<Record>>, r2: Reply<seq<Record>>)
    ensures var e1 := EnsureCheckpointsLoaded(st, assetId, r1);
            EnsureCheckpointsLoaded(e1.addon, assetId, r2) == Ensured(e1.addon, [])
  {
  }

  /** The reset key `""` is itself a hit for an empty asset id. */
  lemma EmptyAssetIdHitAfterReset(st: Addon, reply: Reply<seq<Record>>)
    ensures EnsureCheckpointsLoaded(ResetCheckpointCache(st), "", reply).calls == []
  {
  }

  /** Right after registration the asset list is empty, so the first ensure
      always fetches, even though both the key and the project id are `""`. */
  lemma InitialEnsureFetches(reply: Reply<seq<Record>>)
    ensures EnsureAssetsLoaded(Initial(), reply).calls == [FetchAssets]
  {
  }
}
