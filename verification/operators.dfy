/** The six operators of operators.py and `_sync_active_state`, each a
    guarded update of the addon state. The agent's replies are parameters;
    every transition reports the operator's return status and the agent
    calls it made. User-facing reports and dialogs are not modelled. */
module Operators {
  import opened Options
  import opened ApiClient
  import opened Props
  import Helpers
  import Text

  /** What `execute`/`invoke` returns; `Exception` is an exception escaping it. */
  datatype Status = Finished | Cancelled | RunningModal | Exception

  datatype Step = Step(addon: Addon, status: Status, calls: seq<Call>)

  /** The agent's replies to the three active-state getters. */
  datatype ActiveReplies = ActiveReplies(account: Reply<Record>, studio: Reply<Record>, project: Reply<Record>)

  const SyncCalls: seq<Call> := [ActiveAccount, ActiveStudio, ActiveProject]

  /** The account's display name: `"first last"` stripped, or the e-mail
      address when that is empty, which is when both names are blank. */
  function AccountDisplayName(a: Record): (name: string)
    ensures Text.AllSpace(Field(a, "first_name")) && Text.AllSpace(Field(a, "last_name")) ==> name == Field(a, "email")
    ensures !(Text.AllSpace(Field(a, "first_name")) && Text.AllSpace(Field(a, "last_name"))) ==>
      name == Text.Strip(Field(a, "first_name") + " " + Field(a, "last_name")) && name != ""
  {
    var full := Field(a, "first_name") + " " + Field(a, "last_name");
    Text.AllSpaceConcat(Field(a, "first_name") + " ", Field(a, "last_name"));
    Text.AllSpaceConcat(Field(a, "first_name"), " ");
    var name := Text.Strip(full);
    if name != "" then name else Field(a, "email")
  }

  /** `_sync_active_state`: each of account, studio and project is taken
      over only from a reply without error holding a non-empty object; the
      studio's id is its name and the project's id is its uri. No other
      property changes. */
  function SyncActiveState(scene: Clustta, active: ActiveReplies): (s: Clustta)
    ensures NonEmptyObject(active.account) ==>
      s.activeAccount == AccountDisplayName(active.account.data.value)
      && s.activeAccountId == Field(active.account.data.value, "id")
    ensures !NonEmptyObject(active.account) ==>
      s.activeAccount == scene.activeAccount && s.activeAccountId == scene.activeAccountId
    ensures NonEmptyObject(active.studio) ==>
      s.activeStudio == Field(active.studio.data.value, "name") && s.activeStudioId == s.activeStudio
    ensures !NonEmptyObject(active.studio) ==>
      s.activeStudio == scene.activeStudio && s.activeStudioId == scene.activeStudioId
    ensures NonEmptyObject(active.project) ==>
      s.activeProject == Field(active.project.data.value, "name")
      && s.activeProjectId == Field(active.project.data.value, "uri")
    ensures !NonEmptyObject(active.project) ==>
      s.activeProject == scene.activeProject && s.activeProjectId == scene.activeProjectId
    ensures s.(activeAccount := scene.activeAccount, activeAccountId := scene.activeAccountId,
               activeStudio := scene.activeStudio, activeStudioId := scene.activeStudioId,
               activeProject := scene.activeProject, activeProjectId := scene.activeProjectId) == scene
  {
    var s1 := if NonEmptyObject(active.account) then
        var a := active.account.data.value;
        scene.(activeAccount := AccountDisplayName(a), activeAccountId := Field(a, "id"))
      else scene;
    var s2 := if NonEmptyObject(active.studio) then
        var name := Field(active.studio.data.value, "name");
        s1.(activeStudio := name, activeStudioId := name)
      else s1;
    if NonEmptyObject(active.project) then
      var p := active.project.data.value;
      s2.(activeProject := Field(p, "name"), activeProjectId := Field(p, "uri"))
    else s2
  }

  /** Syncing twice with the same replies is the same as syncing once. */
  lemma SyncIdempotent(scene: Clustta, active: ActiveReplies)
    ensures SyncActiveState(SyncActiveState(scene, active), active) == SyncActiveState(scene, active)
  {
  }

  /** `ConnectAgent.execute`: `agent_connected` becomes exactly the health
      check's verdict, and the active state is synced only when connected. */
  function ConnectAgent<J>(st: Addon, health: Reply<J>, active: ActiveReplies): (s: Step)
    ensures s.status == Finished
    ensures s.addon.scene.agentConnected == HealthCheck(health).0
    ensures HealthCheck(health).0 ==>
      s.calls == [Health] + SyncCalls
      && s.addon == st.(scene := SyncActiveState(st.scene.(agentConnected := true), active))
    ensures !HealthCheck(health).0 ==>
      s.calls == [Health] && s.addon == st.(scene := st.scene.(agentConnected := false))
  {
    var (ok, _) := HealthCheck(health);
    if ok then
      Step(st.(scene := SyncActiveState(st.scene.(agentConnected := true), active)), Finished, [Health] + SyncCalls)
    else
      Step(st.(scene := st.scene.(agentConnected := false)), Finished, [Health])
  }

  /** An unreachable agent leaves the addon disconnected with its account,
      studio and project untouched, and asks for nothing more. */
  lemma ConnectUnreachable<J>(st: Addon, health: Reply<J>, active: ActiveReplies)
    requires health.Err?
    ensures var s := ConnectAgent(st, health, active);
            !s.addon.scene.agentConnected && s.calls == [Health]
            && s.addon.scene.activeAccount == st.scene.activeAccount
            && s.addon.scene.activeStudio == st.scene.activeStudio
            && s.addon.scene.activeProject == st.scene.activeProject
  {
  }

  /** Every record has all the keys the option builder subscripts. */
  predicate AllHave(recs: seq<Record>, keys: set<string>) {
    forall i :: 0 <= i < |recs| ==> keys <= recs[i].Keys
  }

  /** An account option: keyed by id and labelled `"first last (email)"`. */
  function AccountOption(a: Record): EnumItem
    requires "id" in a && "email" in a
  {
    EnumItem(a["id"], Field(a, "first_name") + " " + Field(a, "last_name") + " (" + a["email"] + ")", "")
  }

  /** A studio option: key and label are both the studio's name. */
  function StudioOption(s: Record): EnumItem
    requires "name" in s
  {
    EnumItem(s["name"], s["name"], Field(s, "url"))
  }

  /** A project option: keyed by uri and labelled by name. */
  function ProjectOption(p: Record): EnumItem
    requires "uri" in p && "name" in p
  {
    EnumItem(p["uri"], p["name"], Field(p, "working_directory"))
  }

  /** The account option list, one entry per account in order; `None` where
      the comprehension raises `KeyError` for a missing id or e-mail. */
  function AccountOptions(recs: seq<Record>): (opts: Option<seq<EnumItem>>)
    ensures opts.Some? <==> AllHave(recs, {"id", "email"})
    ensures opts.Some? ==> |opts.value| == |recs|
    ensures opts.Some? ==> forall i :: 0 <= i < |recs| ==> opts.value[i] == AccountOption(recs[i])
  {
    if AllHave(recs, {"id", "email"}) then Some(seq(|recs|, i requires 0 <= i < |recs| && AllHave(recs, {"id", "email"}) => AccountOption(recs[i])))
    else None
  }

  function StudioOptions(recs: seq<Record>): (opts: Option<seq<EnumItem>>)
    ensures opts.Some? <==> AllHave(recs, {"name"})
    ensures opts.Some? ==> |opts.value| == |recs|
    ensures opts.Some? ==> forall i :: 0 <= i < |recs| ==> opts.value[i] == StudioOption(recs[i])
  {
    if AllHave(recs, {"name"}) then Some(seq(|recs|, i requires 0 <= i < |recs| && AllHave(recs, {"name"}) => StudioOption(recs[i])))
    else None
  }

  function ProjectOptions(recs: seq<Record>): (opts: Option<seq<EnumItem>>)
    ensures opts.Some? <==> AllHave(recs, {"uri", "name"})
    ensures opts.Some? ==> |opts.value| == |recs|
    ensures opts.Some? ==> forall i :: 0 <= i < |recs| ==> opts.value[i] == ProjectOption(recs[i])
  {
    if AllHave(recs, {"uri", "name"}) then Some(seq(|recs|, i requires 0 <= i < |recs| && AllHave(recs, {"uri", "name"}) => ProjectOption(recs[i])))
    else None
  }

  /** `SwitchAccount.invoke`: cancelled on an error or an empty list, an
      exception when an option cannot be built, else the dialog opens; the
      option list is replaced only when the dialog opens. */
  function InvokeSwitchAccount(st: Addon, reply: Reply<seq<Record>>): (s: Step)
    ensures s.calls == [ListAccounts]
    ensures s.status == Cancelled <==> !NonEmptyList(reply)
    ensures s.status == RunningModal <==> NonEmptyList(reply) && AccountOptions(reply.data.value).Some?
    ensures NonEmptyList(reply) && AccountOptions(reply.data.value).None? ==> s.status == Exception
    ensures s.status != RunningModal ==> s.addon == st
    ensures s.status == RunningModal ==> s.addon == st.(accountItems := AccountOptions(reply.data.value).value)
  {
    if !NonEmptyList(reply) then Step(st, Cancelled, [ListAccounts])
    else match AccountOptions(reply.data.value)
      case None => Step(st, Exception, [ListAccounts])
      case Some(items) => Step(st.(accountItems := items), RunningModal, [ListAccounts])
  }

  /** `SwitchAccount.execute`: on an error nothing changes; otherwise the
      active state is synced from the agent. */
  function ExecuteSwitchAccount<J>(st: Addon, account: string, reply: Reply<J>, active: ActiveReplies): (s: Step)
    ensures Failed(reply) ==> s == Step(st, Cancelled, [SwitchAccount(account)])
    ensures !Failed(reply) ==>
      s.status == Finished && s.calls == [SwitchAccount(account)] + SyncCalls
      && s.addon == st.(scene := SyncActiveState(st.scene, active))
  {
    if Failed(reply) then Step(st, Cancelled, [SwitchAccount(account)])
    else Step(st.(scene := SyncActiveState(st.scene, active)), Finished, [SwitchAccount(account)] + SyncCalls)
  }

  /** Choosing the k-th account in the dialog switches to that account's id
      and then syncs the active state. */
  lemma ChosenAccountIsSwitchedTo<J>(st: Addon, accounts: Reply<seq<Record>>, k: nat, reply: Reply<J>, active: ActiveReplies)
    requires InvokeSwitchAccount(st, accounts).status == RunningModal
    requires k < |accounts.data.value| && !Failed(reply)
    ensures "id" in accounts.data.value[k]
    ensures var dialog := InvokeSwitchAccount(st, accounts).addon;
            var s := ExecuteSwitchAccount(dialog, dialog.accountItems[k].key, reply, active);
            && s.calls == [SwitchAccount(accounts.data.value[k]["id"])] + SyncCalls
            && s.addon.accountItems == dialog.accountItems
            && s.addon.scene == SyncActiveState(st.scene, active)
  {
  }

  /** A successful account switch leaves the scene as connecting to a
      healthy agent does once the addon is already connected: both end in
      the same sync of the active state. */
  lemma SwitchAccountSyncsLikeConnect<J, H>(st: Addon, account: string, reply: Reply<J>, health: Reply<H>, active: ActiveReplies)
    requires st.scene.agentConnected && !Failed(reply) && HealthCheck(health).0
    ensures ExecuteSwitchAccount(st, account, reply, active).addon == ConnectAgent(st, health, active).addon
  {
    assert st.scene.(agentConnected := true) == st.scene;
  }

  /** `SwitchStudio.invoke`: cancelled on an error or an empty list, an
      exception when a studio has no name, else the dialog opens with one
      option per studio. */
  function InvokeSwitchStudio(st: Addon, reply: Reply<seq<Record>>): (s: Step)
    ensures s.calls == [ListStudios]
    ensures s.status == Cancelled <==> !NonEmptyList(reply)
    ensures s.status == RunningModal <==> NonEmptyList(reply) && StudioOptions(reply.data.value).Some?
    ensures NonEmptyList(reply) && StudioOptions(reply.data.value).None? ==> s.status == Exception
    ensures s.status != RunningModal ==> s.addon == st
    ensures s.status == RunningModal ==> s.addon == st.(studioItems := StudioOptions(reply.data.value).value)
  {
    if !NonEmptyList(reply) then Step(st, Cancelled, [ListStudios])
    else match StudioOptions(reply.data.value)
      case None => Step(st, Exception, [ListStudios])
      case Some(items) => Step(st.(studioItems := items), RunningModal, [ListStudios])
  }

  /** `SwitchStudio.execute`: on success the chosen name becomes both the
      active studio and its id, and the project selection is cleared; the
      asset list and the cache keys are left as they are. On an error nothing
      changes. */
  function ExecuteSwitchStudio<J>(st: Addon, studio: string, reply: Reply<J>): (s: Step)
    ensures s.calls == [SwitchStudio(studio)]
    ensures Failed(reply) ==> s.status == Cancelled && s.addon == st
    ensures !Failed(reply) ==>
      var sc := s.addon.scene;
      && s.status == Finished
      && sc.activeStudio == studio && sc.activeStudioId == studio
      && sc.activeProject == "" && sc.activeProjectId == ""
      && s.addon.(scene := sc.(activeStudio := st.scene.activeStudio, activeStudioId := st.scene.activeStudioId,
                              activeProject := st.scene.activeProject, activeProjectId := st.scene.activeProjectId)) == st
  {
    if Failed(reply) then Step(st, Cancelled, [SwitchStudio(studio)])
    else
      var scene := st.scene.(activeStudio := studio, activeStudioId := studio, activeProject := "", activeProjectId := "");
      Step(st.(scene := scene), Finished, [SwitchStudio(studio)])
  }

  /** Choosing the k-th studio in the dialog makes its name the active
      studio and its id, and clears the project. */
  lemma ChosenStudioBecomesActive<J>(st: Addon, studios: Reply<seq<Record>>, k: nat, reply: Reply<J>)
    requires InvokeSwitchStudio(st, studios).status == RunningModal
    requires k < |studios.data.value| && !Failed(reply)
    ensures "name" in studios.data.value[k]
    ensures var dialog := InvokeSwitchStudio(st, studios).addon;
            var sc := ExecuteSwitchStudio(dialog, dialog.studioItems[k].key, reply).addon.scene;
            sc.activeStudio == studios.data.value[k]["name"] && sc.activeStudioId == sc.activeStudio
            && sc.activeProject == "" && sc.activeProjectId == ""
  {
  }

  /** After a studio switch no project is active: refreshing cancels before
      calling the agent, and the next `ensure_assets_loaded` fetches unless
      the cache key is empty and the old list is non-empty. */
  lemma SwitchStudioClearsProject<J>(st: Addon, studio: string, reply: Reply<J>, assets: Reply<seq<Record>>)
    requires !Failed(reply)
    ensures var s := ExecuteSwitchStudio(st, studio, reply).addon;
            && RefreshAssets(s, assets) == Step(s, Cancelled, [])
            && (Helpers.EnsureAssetsLoaded(s, assets).calls == [] <==> st.loadedAssetsProjectId == "" && |st.scene.assets| > 0)
  {
  }

  /** `SwitchProject.invoke`: cancelled on an error or an empty list, an
      exception when a project lacks its uri or name, else the dialog opens
      with one option per project. */
  function InvokeSwitchProject(st: Addon, reply: Reply<seq<Record>>): (s: Step)
    ensures s.calls == [ListProjects]
    ensures s.status == Cancelled <==> !NonEmptyList(reply)
    ensures s.status == RunningModal <==> NonEmptyList(reply) && ProjectOptions(reply.data.value).Some?
    ensures NonEmptyList(reply) && ProjectOptions(reply.data.value).None? ==> s.status == Exception
    ensures s.status != RunningModal ==> s.addon == st
    ensures s.status == RunningModal ==> s.addon == st.(projectItems := ProjectOptions(reply.data.value).value)
  {
    if !NonEmptyList(reply) then Step(st, Cancelled, [ListProjects])
    else match ProjectOptions(reply.data.value)
      case None => Step(st, Exception, [ListProjects])
      case Some(items) => Step(st.(projectItems := items), RunningModal, [ListProjects])
  }

  /** The project's display name: the label of the first cached option with
      this uri, or the uri itself when no option has it. */
  function ProjectDisplayName(items: seq<EnumItem>, uri: string): (name: string)
    ensures (forall i :: 0 <= i < |items| ==> items[i].key != uri) ==> name == uri
    ensures forall j :: 0 <= j < |items| && items[j].key == uri && (forall k :: 0 <= k < j ==> items[k].key != uri) ==> name == items[j].name
    decreases |items|
  {
    if |items| == 0 then uri
    else if items[0].key == uri then items[0].name
    else
      var rest := ProjectDisplayName(items[1..], uri);
      assert forall j :: 1 <= j < |items| ==> items[1..][j - 1] == items[j];
      rest
  }

  /** `SwitchProject.execute`: on success the uri becomes the active
      project id and its display name the active project; nothing else
      changes, in particular not the asset list. On an error nothing changes. */
  function ExecuteSwitchProject<J>(st: Addon, project: string, reply: Reply<J>): (s: Step)
    ensures s.calls == [SwitchProject(project)]
    ensures Failed(reply) ==> s.status == Cancelled && s.addon == st
    ensures !Failed(reply) ==>
      && s.status == Finished
      && s.addon.scene.activeProject == ProjectDisplayName(st.projectItems, project)
      && s.addon.scene.activeProjectId == project
      && s.addon.(scene := s.addon.scene.(activeProject := st.scene.activeProject, activeProjectId := st.scene.activeProjectId)) == st
  {
    if Failed(reply) then Step(st, Cancelled, [SwitchProject(project)])
    else
      var name := ProjectDisplayName(st.projectItems, project);
      Step(st.(scene := st.scene.(activeProject := name, activeProjectId := project)), Finished, [SwitchProject(project)])
  }

  /** A successful project switch keeps the old project's assets and cache
      key; the next `ensure_assets_loaded` re-fetches unless the cached key
      already names the chosen project. */
  lemma SwitchProjectDefersReload<J>(st: Addon, project: string, reply: Reply<J>, assets: Reply<seq<Record>>)
    requires !Failed(reply)
    ensures var s := ExecuteSwitchProject(st, project, reply);
            s.addon.scene.assets == st.scene.assets
            && s.addon.loadedAssetsProjectId == st.loadedAssetsProjectId
            && (st.loadedAssetsProjectId != project ==> Helpers.EnsureAssetsLoaded(s.addon, assets).calls == [FetchAssets])
  {
  }

  /** Choosing the k-th project in the dialog makes its uri the active
      project id and names it after the first project with that uri. */
  lemma ChosenProjectIsNamed<J>(st: Addon, projects: Reply<seq<Record>>, k: nat, reply: Reply<J>)
    requires InvokeSwitchProject(st, projects).status == RunningModal
    requires k < |projects.data.value| && !Failed(reply)
    ensures AllHave(projects.data.value, {"uri", "name"})
    ensures var recs := projects.data.value;
            var dialog := InvokeSwitchProject(st, projects).addon;
            var sc := ExecuteSwitchProject(dialog, dialog.projectItems[k].key, reply).addon.scene;
            && sc.activeProjectId == recs[k]["uri"]
            && forall j :: 0 <= j <= k && recs[j]["uri"] == recs[k]["uri"] && (forall i :: 0 <= i < j ==> recs[i]["uri"] != recs[k]["uri"])
                 ==> sc.activeProject == recs[j]["name"]
  {
  }

  /** A cancelled invoke keeps the previous option list, so a later execute
      names the project from the options of the last dialog that dialog. */
  lemma CancelledInvokeKeepsOptions<J>(st: Addon, projects: Reply<seq<Record>>, project: string, reply: Reply<J>)
    requires !NonEmptyList(projects)
    ensures ExecuteSwitchProject(InvokeSwitchProject(st, projects).addon, project, reply)
         == ExecuteSwitchProject(st, project, reply)
  {
  }

  /** `RefreshAssets.execute`: without an active project it cancels before
      calling the agent; on a fetch error it cancels and changes nothing;
      otherwise the asset list becomes one item per fetched record, in order,
      and the selection is cleared. The cache key and the filter lists are
      not touched. */
  function RefreshAssets(st: Addon, reply: Reply<seq<Record>>): (s: Step)
    ensures st.scene.activeProjectId == "" ==> s == Step(st, Cancelled, [])
    ensures st.scene.activeProjectId != "" ==> s.calls == [FetchAssets]
    ensures st.scene.activeProjectId != "" && Failed(reply) ==> s.status == Cancelled && s.addon == st
    ensures st.scene.activeProjectId != "" && !Failed(reply) ==>
      && s.status == Finished
      && |s.addon.scene.assets| == |Items(reply)|
      && (forall i :: 0 <= i < |Items(reply)| ==> s.addon.scene.assets[i] == Helpers.AssetFromRecord(Items(reply)[i]))
      && s.addon.scene.activeAssetIndex == -1
      && s.addon.(scene := s.addon.scene.(assets := st.scene.assets, activeAssetIndex := st.scene.activeAssetIndex)) == st
  {
    if st.scene.activeProjectId == "" then Step(st, Cancelled, [])
    else if Failed(reply) then Step(st, Cancelled, [FetchAssets])
    else
      var assets := Helpers.AssetsFromRecords(Items(reply));
      Step(st.(scene := st.scene.(assets := assets, activeAssetIndex := -1)), Finished, [FetchAssets])
  }

  /** Refreshing lands on the same asset list as `load_assets`, but without
      recording the project in the cache key or rebuilding the filters. */
  lemma RefreshMatchesLoad(st: Addon, reply: Reply<seq<Record>>)
    requires st.scene.activeProjectId != "" && !Failed(reply)
    ensures RefreshAssets(st, reply).addon.scene == Helpers.LoadAssets(st, reply).addon.scene
    ensures RefreshAssets(st, reply).addon.loadedAssetsProjectId == st.loadedAssetsProjectId
    ensures RefreshAssets(st, reply).addon.filters == st.filters
  {
  }

  /** `CreateCheckpoint.execute`: never calls the agent. A message that is
      blank after stripping cancels and stays as typed; any other message is
      cleared and the operator finishes. */
  function CreateCheckpoint(st: Addon): (s: Step)
    ensures s.calls == []
    ensures Text.AllSpace(st.scene.checkpointMessage) ==> s == Step(st, Cancelled, [])
    ensures !Text.AllSpace(st.scene.checkpointMessage) ==>
      s.status == Finished && s.addon == st.(scene := st.scene.(checkpointMessage := ""))
  {
    if Text.Strip(st.scene.checkpointMessage) == "" then Step(st, Cancelled, [])
    else Step(st.(scene := st.scene.(checkpointMessage := "")), Finished, [])
  }
}
