/** `_on_asset_index_changed`, the update hook of `active_asset_index` in
    props.py. It calls into helpers.py, so it lives apart from `Props`. */
module AssetSelection {
  import opened ApiClient
  import opened Props
  import opened Helpers

  predicate SelectionInRange(st: Addon) {
    0 <= st.scene.activeAssetIndex < |st.scene.assets|
  }

  /** Out of range (including the default -1) the hook does nothing. In
      range it resets the checkpoint key and loads the selected asset's
      checkpoints, so it always fetches, even for the asset already loaded. */
  function OnAssetIndexChanged(st: Addon, reply: Reply<seq<Record>>): (e: Ensured)
    ensures !SelectionInRange(st) ==> e == Ensured(st, [])
    ensures SelectionInRange(st) ==>
      var id := st.scene.assets[st.scene.activeAssetIndex].assetId;
      e.calls == [FetchCheckpoints(id)] && e.addon == LoadCheckpoints(ResetCheckpointCache(st), id, reply)
  {
    if SelectionInRange(st) then
      var id := st.scene.assets[st.scene.activeAssetIndex].assetId;
      Ensured(LoadCheckpoints(ResetCheckpointCache(st), id, reply), [FetchCheckpoints(id)])
    else Ensured(st, [])
  }

  /** Selecting an index: set the property, then its hook runs. */
  function SelectAsset(st: Addon, index: int, reply: Reply<seq<Record>>): Ensured {
    OnAssetIndexChanged(st.(scene := st.scene.(activeAssetIndex := index)), reply)
  }

  /** The reset before the load is overwritten by it: the hook ends in the
      same state as loading directly, and the key names the selected asset. */
  lemma HookResetIsOverwritten(st: Addon, reply: Reply<seq<Record>>)
    requires SelectionInRange(st)
    ensures var id := st.scene.assets[st.scene.activeAssetIndex].assetId;
            OnAssetIndexChanged(st, reply).addon == LoadCheckpoints(st, id, reply)
            && OnAssetIndexChanged(st, reply).addon.loadedCheckpointAssetId == id
  {
  }

  /** Re-selecting the asset whose checkpoints are loaded still fetches,
      unlike `ensure_checkpoints_loaded`. */
  lemma ReselectFetches(st: Addon, reply: Reply<seq<Record>>)
    requires SelectionInRange(st)
    requires st.loadedCheckpointAssetId == st.scene.assets[st.scene.activeAssetIndex].assetId
    ensures |OnAssetIndexChanged(st, reply).calls| == 1
    ensures EnsureCheckpointsLoaded(st, st.scene.assets[st.scene.activeAssetIndex].assetId, reply).calls == []
  {
  }

  /** The loaders set the index to -1, which fires the hook to no effect. */
  lemma ClearedSelectionIsNoOp(st: Addon, reply: Reply<seq<Record>>)
    ensures SelectAsset(st, -1, reply) == Ensured(st.(scene := st.scene.(activeAssetIndex := -1)), [])
  {
  }
}
