# Clustta Blender addon: addon-state model

A Dafny model of the state logic of the Clustta Blender addon, which browses a
project's version-controlled assets and their checkpoints by talking to a
local companion agent over HTTP. The addon's state is one immutable record
(`Props.Addon`): the scene's `ClusttaProperties`, plus the module globals.
These globals are the two "last loaded for" cache keys of helpers.py, the
filter enum items of props.py, and the three picker option lists of
operators.py. Every operator, loader and reset is a pure transition over that
record.

The agent is an oracle. Each transition takes the agent's replies as
parameters (`ApiClient.Reply`: `Ok(data)` or `Err(message)`). Each transition
also returns the agent calls it made, so "no fetch" is an empty call list.

Modules, one file each:

- `Options`: the optional value.
- `Ordering`: Python's string order and `sorted(set(...))`.
- `Text`: ASCII `upper()`/`title()`, `strip()`, and decimal `str(int)`.
- `ApiClient`: the REST client in api_client.py.
- `Timestamp`: `_format_timestamp`.
- `Props`: the records, the defaults and the filter derivation.
- `Helpers`: the loaders and the staleness cache in helpers.py.
- `AssetSelection`: the `active_asset_index` update hook in props.py. It is a
  separate module because it calls into `Helpers`.
- `Operators`: the operators in operators.py.

Two Python truthiness rules are kept exactly:

- `if err:` treats an empty error text as no error (`ApiClient.Failed`).
- `health_check` tests `err is None` instead (`ApiClient.HealthCheck`).

Behaviour of the code worth noting:

- A successful project switch does not clear the asset list, the selection or
  the cache keys. It only sets `active_project` and `active_project_id`, so the
  old project's assets stay until the next load
  (`Operators.SwitchProjectDefersReload`).
- `switch_studio` identifies the studio by its name, sent in the `id` field.
- Assets are fetched from `/projects/{pid}/assets?ext=...`. Checkpoints are
  listed from `/projects/{pid}/assets/{aid}/checkpoints`.
- Every request carries the JSON content type, including requests with no body.
- `RefreshAssets` replaces the list but neither records the project in the
  asset cache key nor rebuilds the filter lists (`Operators.RefreshMatchesLoad`).

## Model

| member | source | states |
|---|---|---|
| `ApiClient.Field` | helpers.py:46-51 | `.get(key, "")`: a present key gives its value, a missing key gives `""` |
| `ApiClient.Items` | helpers.py:44 | `data or []`: the fetched list when there is one, otherwise the empty list |
| `ApiClient.NewClient` | api_client.py:17-18 | the base URL is the host, a colon, and a decimal port that parses back to the given port |
| `ApiClient.DefaultBaseUrl` | api_client.py:8-9 | the default client's base URL is `http://127.0.0.1:1173` |
| `ApiClient.BuildRequest` | api_client.py:20-26 | the URL is the base URL followed by the path; every request has the JSON content type; a body is sent iff the dict is given and non-empty |
| `ApiClient.FixedGetEndpoints` | api_client.py:40-66 | health, accounts, studios and projects are body-less GETs of their fixed paths |
| `ApiClient.SwitchAccountRequest` | api_client.py:50-52 | POST to `/accounts/switch` with a body of exactly the key `id` |
| `ApiClient.SwitchStudioRequest` | api_client.py:59-61 | POST to `/studios/switch` with a body of exactly the key `id` |
| `ApiClient.GetAssetsRequest` | api_client.py:68-73 | GET `/projects/{pid}/assets?ext={ext}` with no body; `&assignee={a}` is appended iff `a` is non-empty |
| `ApiClient.AssigneeExtendsUrl` | api_client.py:70-73 | an assignee only extends the unfiltered URL, and the URL is unchanged iff the assignee is empty |
| `ApiClient.GetCheckpointsRequest` | api_client.py:75-77 | body-less GET of `/projects/{pid}/assets/{aid}/checkpoints` |
| `ApiClient.CreateCheckpointRequest` | api_client.py:79-84 | POST whose body has exactly the keys `message` and `filePath`, holding the arguments |
| `ApiClient.CheckpointEndpointsShareUrl` | api_client.py:75-84 | listing and creating checkpoints target the same URL |
| `ApiClient.RequestOutcome` | api_client.py:28-37 | never raises; success iff a body was delivered that is empty (no data) or decodes (the decoded data); every failure is an error text with no data |
| `ApiClient.HealthCheck` | api_client.py:40-43 | healthy iff the error is `None`; the error is passed through unchanged |
| `ApiClient.HealthOfExchange` | api_client.py:28-43 | the agent is healthy iff it delivered an empty or decodable body |
| `ApiClient.GetClient` | api_client.py:87-92 | returns the stored instance if there is one, else creates the default client and stores it |
| `ApiClient.GetClientStable` | api_client.py:87-92 | every call after the first returns the same client and keeps it stored |
| `Timestamp.ParseIso` | helpers.py:26 | a parsed timestamp has year at least 1, month 1-12, and a day within that month |
| `Timestamp.MonthAbbrev` | helpers.py:27 | the month abbreviation has three letters |
| `Timestamp.FormatTimestamp` | helpers.py:21-29 | empty input gives `""`; unparsable input is returned unchanged; parsed input gives unpadded day, month abbreviation, two-digit year |
| `Timestamp.FormatIsoUtc` | helpers.py:22-27 | every valid `YYYY-MM-DDTHH:MM:SSZ` timestamp is shown as exactly its own day, month and year |
| `Timestamp.FormatExample` | helpers.py:22 | `2026-01-04T10:00:00Z` is shown as `4 Jan 26` |
| `Timestamp.UnparsableUnchanged` | helpers.py:28-29 | a non-empty input that does not start with a date is returned as it is |
| `Text.Upper` | props.py:44 | `upper()` keeps the length, agrees with the input up to case, and leaves no lower-case letter |
| `Text.Title` | props.py:41 | `title()` upper-cases a letter that starts a word, lower-cases the other letters, and keeps every other character |
| `Text.TitleIdempotent` | props.py:41 | title-casing a title-cased label changes nothing |
| `Text.Strip` | operators.py:228 | `strip()` is empty iff the text is all whitespace; otherwise it is the middle of the text between whitespace-only ends, with no whitespace at either end |
| `Ordering.SortDistinct` | props.py:41 | `sorted(set(xs))` is strictly ascending and holds exactly the values of `xs` |
| `Ordering.SortedUnique` | props.py:44 | two strictly ascending sequences with the same elements are equal |
| `Props.Defaults` | props.py:77-104 | not connected; both selection indices -1; empty strings and empty lists |
| `Props.TypeValues` | props.py:34-36 | the collected asset types are exactly the distinct non-empty `asset_type` values |
| `Props.StatusValues` | props.py:34-38 | the collected statuses are exactly the distinct non-empty `status` values |
| `Props.UpdateFilterItems` | props.py:28-44 | each list starts with its `ALL` sentinel, then the distinct non-empty values, strictly ascending, keyed by the raw value and labelled in title case (types) or upper case (statuses) |
| `Props.FiltersDependOnlyOnValues` | props.py:32-44 | the filter lists depend only on the set of values present, not on asset order or multiplicity |
| `Props.NoAssetsOnlySentinels` | props.py:40-44 | with no assets each list is its sentinel alone, the same as the module's initial lists |
| `Props.FilterExample` | props.py:28-41 | types `Modeling`, `Rigging`, `Modeling` give the keys `ALL`, `Modeling`, `Rigging` |
| `Props.Initial` | props.py:14-15 | after registration: property defaults, empty cache keys, sentinel-only filters, no picker options |
| `Helpers.FileStateIcon` | helpers.py:109-111 | total: the five known states map per the table, and every other string maps to `RADIOBUT_OFF` |
| `Helpers.DefaultIconIffUnknown` | helpers.py:11-18 | the default icon is returned exactly for unknown states |
| `Helpers.AssetFromRecord` | helpers.py:45-51 | field mapping id, name, file_path, task_type_name, status_short_name, file_status |
| `Helpers.CheckpointFromRecord` | helpers.py:80-84 | field mapping id, comment, formatted created_at, author_id |
| `Helpers.AssetsFromRecords` | helpers.py:44-51 | one asset item per record, in order |
| `Helpers.CheckpointsFromRecords` | helpers.py:79-84 | one checkpoint item per record, in order |
| `Helpers.LoadAssets` | helpers.py:32-58 | on error: `(False, err)` and nothing changes; otherwise the list is one item per record in order, index -1, key = active project, filters rebuilt, nothing else changes |
| `Helpers.EnsureAssetsLoaded` | helpers.py:61-66 | no fetch iff the key equals the active project and the list is non-empty; otherwise one fetch, applied as `load_assets` applies it |
| `Helpers.LoadCheckpoints` | helpers.py:69-86 | always empties the list, sets index -1 and key = asset id (also on error); fills the list in order only from an error-free non-empty reply; nothing else changes |
| `Helpers.EnsureCheckpointsLoaded` | helpers.py:89-94 | no fetch iff the key equals the asset id, whatever the list holds |
| `Helpers.ResetAssetCache` | helpers.py:97-100 | the asset key becomes `""` and nothing else changes |
| `Helpers.ResetCheckpointCache` | helpers.py:103-106 | the checkpoint key becomes `""` and nothing else changes |
| `Helpers.ResetForcesAssetFetch` | helpers.py:64 | after the reset, ensure fetches whenever a project is active |
| `Helpers.ResetForcesCheckpointFetch` | helpers.py:92 | after the reset, ensure fetches for every non-empty asset id |
| `Helpers.SecondEnsureIsHit` | helpers.py:64-66 | after a load that brought at least one asset, the next ensure is a hit |
| `Helpers.EmptyLoadRefetched` | helpers.py:64 | a load that brought zero assets is fetched again by the next ensure |
| `Helpers.FailedAssetFetchRetried` | helpers.py:38-39 | a failed asset fetch is not cached: the next ensure retries |
| `Helpers.FailedCheckpointFetchCached` | helpers.py:75-86 | a failed checkpoint fetch leaves an empty list that the next ensure for the same asset keeps |
| `Helpers.SecondCheckpointEnsureIsHit` | helpers.py:86-93 | after an ensure for an asset, a second ensure for the same asset is a hit |
| `Helpers.EmptyAssetIdHitAfterReset` | helpers.py:92-93 | after a reset, an empty asset id is a cache hit |
| `Helpers.InitialEnsureFetches` | helpers.py:64 | the first ensure after registration always fetches |
| `AssetSelection.OnAssetIndexChanged` | props.py:67-74 | out of range, including -1: no change and no fetch; in range: reset the key, then load the selected asset's checkpoints |
| `AssetSelection.HookResetIsOverwritten` | props.py:73-74 | the hook ends in the same state as loading directly, with the key naming the selected asset |
| `AssetSelection.ReselectFetches` | props.py:71-74 | re-selecting the loaded asset still fetches, where ensure would not |
| `AssetSelection.ClearedSelectionIsNoOp` | props.py:71 | setting the index to -1 fires the hook without effect |
| `Operators.AccountDisplayName` | operators.py:242-243 | the stripped `"first last"`, or the e-mail when both names are blank |
| `Operators.SyncActiveState` | operators.py:238-254 | each of account, studio and project is updated only from an error-free non-empty reply; studio id = name and project id = uri; nothing else changes |
| `Operators.SyncIdempotent` | operators.py:238-254 | syncing twice with the same replies equals syncing once |
| `Operators.ConnectAgent` | operators.py:22-36 | `agent_connected` is exactly the health verdict; the active-state calls are made only when connected |
| `Operators.ConnectUnreachable` | operators.py:32-34 | an unreachable agent: not connected, account, studio and project untouched, only the health call made |
| `Operators.AccountOptions` | operators.py:59-63 | one option per account in order, keyed by id and labelled `first last (email)`; a missing id or e-mail raises |
| `Operators.StudioOptions` | operators.py:103-107 | one option per studio, whose key and label are both the name |
| `Operators.ProjectOptions` | operators.py:150-154 | one option per project, keyed by uri and labelled by name |
| `Operators.InvokeSwitchAccount` | operators.py:51-66 | cancels without change on an error or an empty list; raises (status `Exception`) without change when an account lacks `id` or `email`; otherwise opens the dialog with the account options replaced |
| `Operators.ExecuteSwitchAccount` | operators.py:68-80 | on an error nothing changes; otherwise the active state is synced |
| `Operators.ChosenAccountIsSwitchedTo` | operators.py:59-80 | choosing the k-th account of the dialog asks the agent to switch to that record's `id`, then syncs the active state; the option list is kept |
| `Operators.SwitchAccountSyncsLikeConnect` | operators.py:68-80 | a successful account switch leaves the addon as connecting to a healthy agent does when already connected: the same sync of the active state |
| `Operators.InvokeSwitchStudio` | operators.py:95-110 | cancels without change on an error or an empty list; raises (status `Exception`) without change when a studio lacks `name`; otherwise opens the dialog with the studio options replaced |
| `Operators.ExecuteSwitchStudio` | operators.py:112-127 | on success the studio and studio id both become the chosen name and the project and project id become `""`; on an error nothing changes |
| `Operators.ChosenStudioBecomesActive` | operators.py:103-125 | choosing the k-th studio makes that record's `name` the active studio and studio id, and clears the project |
| `Operators.SwitchStudioClearsProject` | operators.py:121-125 | after a studio switch refresh cancels without calling the agent, and the next ensure fetches unless the cache key is `""` and the old list is non-empty |
| `Operators.InvokeSwitchProject` | operators.py:142-157 | cancels without change on an error or an empty list; raises (status `Exception`) without change when a project lacks `uri` or `name`; otherwise opens the dialog with the project options replaced |
| `Operators.ProjectDisplayName` | operators.py:167-172 | the label of the first cached option with the uri, else the uri itself |
| `Operators.ExecuteSwitchProject` | operators.py:159-178 | on success the project id is the uri and the project is its display name, and nothing else changes; on an error nothing changes |
| `Operators.ChosenProjectIsNamed` | operators.py:150-176 | choosing the k-th project sets its `uri` as the active project id and names it after the first project in the list with that uri |
| `Operators.CancelledInvokeKeepsOptions` | operators.py:146-154 | a cancelled invoke keeps the old option list, so a later execute names the project as before |
| `Operators.SwitchProjectDefersReload` | operators.py:174-176 | the switch keeps the assets and the cache key; the next ensure fetches unless the key already names the project |
| `Operators.RefreshAssets` | operators.py:187-215 | with no project, or on a fetch error: cancels with no change; otherwise replaces the list in order and sets index -1, leaving the key and filters alone |
| `Operators.RefreshMatchesLoad` | operators.py:201-212 | refresh yields the same scene as `load_assets` but keeps the cache key and the filters |
| `Operators.CreateCheckpoint` | operators.py:224-235 | never calls the agent; a blank message cancels and stays as typed, any other message is cleared |

## Left out

- The HTTP transport, JSON encoding and decoding, and the 10-second timeout are not modelled. A request's fate is an `Exchange` and decoding is a parameter.
- The `HTTP code: reason` branch at api_client.py:34-35 is not modelled. `HTTPError` is a `URLError`, so the clause before it always catches it first.
- JSON values other than strings inside records are not modelled, nor list replies that are not lists of objects.
- `self.report` notices and `invoke_props_dialog` are not modelled; they are UI output.
- panels.py, agent_launcher.py, scripts/package.py and __init__.py are not part of this model. They are drawing, process launching, packaging and registration.
- The Blender property system is not modelled. `ClusttaProperties` is a plain record, the collections are sequences, and `IntProperty` width is ignored.
- The `filter_asset_type`/`filter_status` selections and the `_get_*_items` callbacks are not modelled. The callbacks only return the filter lists held in `Addon.filters`.
- The fetches made by helpers.py and by `RefreshAssets` are the abstract calls `FetchAssets` and `FetchCheckpoints`. Those calls pass different arguments from the ones `get_assets` and `get_checkpoints` declare, and the model does not reconcile them.
- operators.py calls `get_active_account`, `get_active_studio`, `get_active_project` and `switch_project`, which api_client.py does not define. They are oracle calls with no request builder.
- The `get_client()` calls inside helpers.py and operators.py are not threaded through the transitions; creating the instance has no other effect. `ApiClient.GetClient` models the singleton, and "same instance" means equal values.
- Firing the index hook from the loaders' `active_asset_index = -1` is not modelled inside them; `AssetSelection.ClearedSelectionIsNoOp` shows it has no effect.
- Timestamp.FormatTimestamp: only `YYYY-MM-DD`, optionally followed by `THH:MM:SS` and an optional `+HH:MM`/`-HH:MM` offset, counts as parsable, after every `Z` has become `+00:00`. Other forms that `fromisoformat` accepts, such as fractional seconds, a missing seconds field or basic format, are returned unchanged by the model. `%b` is taken in the C locale.
- Text.Title: only ASCII letters count as cased; Python's `str.title()` also cases other Unicode letters.
- Text.Upper: only ASCII letters are upper-cased; Python's `str.upper()` also maps other Unicode letters.
