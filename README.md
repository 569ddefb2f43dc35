# mixpanel-rs core, modelled in Dafny

mixpanel-rs is a Rust client for the Mixpanel analytics HTTP API. Its
Tauri plugin keeps a client-side identity and set of super properties
for a desktop application.

The model covers two layers.

- **The HTTP client** (`src/lib.rs`, `src/people.rs`, `src/groups.rs`,
  `src/utils.rs`).
  - Events get the library stamp (`token`, `mp_lib`, `$lib_version`) and
    their `time` is normalised.
  - Batches are cut into requests of at most 50 events.
  - Profile (`/engage`) and group (`/groups`) updates each carry the
    token, an address and exactly one action, plus optional modifiers.
  - Failed requests are retried with exponential backoff or the server's
    `Retry-After`.
  - Each request is prepared as a GET query or a POST form, and each
    response is classified into the client's error kinds.
- **The Tauri plugin** (`persistence.rs`, `state.rs`, `people.rs`).
  - A persisted record (`Persistence.Store`) holds:
    - the distinct id;
    - super properties, which expire after a number of days;
    - event timers.
  - The plugin state (`PluginState.MixpanelState`) adds:
    - an in-memory overlay of non-persistent super properties;
    - the identity transitions `identify`, `alias` and `reset`;
    - group membership: `set_group`, `add_group`, `remove_group`;
    - `track`, which layers the persisted properties, the overlay and the
      caller's properties and adds the event's duration.
  - The people facade (`PluginPeople`) normalises the web view's
    arguments and sends nothing until a real user was identified.

Modules follow the source files:

| module | source file |
|---|---|
| `Common` | Option and Result |
| `Json` | serde_json's `Value` |
| `Utils` | `src/utils.rs` |
| `ProfileRequests` | `src/people.rs` |
| `GroupRequests` | `src/groups.rs` |
| `Client` | `src/lib.rs` |
| `Persistence` | `persistence.rs` |
| `PluginPeople` | the plugin's `people.rs` |
| `PluginState` | `state.rs` |

Everything outside the program is a parameter:

- the clock is `now`, in milliseconds;
- the machine id, platform and web view version are injected;
- the transport is a function `deliver` from a request to the client's
  outcome. `send_request` is modelled on its own, with `attempt(n)` as the
  outcome of try number n.

`Persistence.Store` and `PluginState.MixpanelState` are classes whose
methods change their fields in place. Two ghost sequences record what
the program hands to the outside world:

- `saves` lists every snapshot handed to the background writer;
- `sent` lists every request handed to the HTTP client.

## Model

| member | source | states |
|---|---|---|
| Json.AsU64 | packages/tauri-plugin-mixpanel/src/persistence.rs:52 | `as_u64` succeeds exactly on integers in the unsigned 64-bit range, and gives that integer |
| Json.AsI64 | packages/tauri-plugin-mixpanel/src/people.rs:82-84 | `as_i64` succeeds exactly on integers in the signed 64-bit range, and gives that integer |
| Json.Get | src/lib.rs:324-329 | field lookup succeeds exactly on an object that has the key, and gives that field's value |
| Utils.EnsureTimestamp | src/utils.rs:6-14 | absent stays absent; a value of at most ten digits is kept; a larger one is divided by 1000, rounding down |
| Utils.EnsureTimestampMillis | src/utils.rs:6-14 | a millisecond reading of an instant with an 8-to-10-digit second count is brought back to that second, and applying the rule again changes nothing |
| Utils.MergeModifiers | src/utils.rs:26-58 | no modifiers leaves the data unchanged; each present modifier is written under its `$` key; latitude and longitude are written only as a pair; keys outside the modifier keys are never touched and no other key is added |
| Utils.ActionsAreNotModifiers | src/utils.rs:26-58 | no action key is a modifier key, so merging modifiers can never add or overwrite an action |
| ProfileRequests.Build | src/people.rs:232-256 | a GET to `/engage` carrying the token, the distinct id and exactly one action key with the given value; given modifiers, the body is that object with the modifiers merged in |
| ProfileRequests.SetRequest | src/people.rs:12-33 | `set` and `set_once` send the properties under `$set` or `$set_once`, the only action in the update |
| ProfileRequests.IncrementRequest | src/people.rs:34-55 | `increment` sends the signed amounts as integers under `$add` |
| ProfileRequests.AppendRequest | src/people.rs:58-79 | `append` sends the values under `$append` |
| ProfileRequests.TrackChargeRequest | src/people.rs:82-109 | `track_charge` appends to `$transactions` an object holding the caller's properties plus `$amount`, and `$amount` wins over a caller key of that name |
| ProfileRequests.ClearChargesRequest | src/people.rs:112-134 | `clear_charges` sets `$transactions` to the empty list |
| ProfileRequests.DeleteUserRequest | src/people.rs:137-157 | `delete_user` sends `$delete` with the empty string |
| ProfileRequests.RemoveRequest | src/people.rs:160-181 | `remove` sends the map under `$remove` |
| ProfileRequests.UnionRequest | src/people.rs:184-205 | `union` sends the map under `$union` |
| ProfileRequests.UnsetRequest | src/people.rs:208-229 | `unset` sends the names under `$unset`, as strings, in the given order |
| GroupRequests.Build | src/groups.rs:151-177 | a GET to `/groups` carrying the token, the group key, the group id and exactly one action key with the given value; given modifiers, the body is that object with the modifiers merged in |
| GroupRequests.SetRequest | src/groups.rs:12-47 | group `set` and `set_once` send under `$set` or `$set_once` |
| GroupRequests.DeleteGroupRequest | src/groups.rs:48-70 | `delete_group` sends `$delete` with the empty string |
| GroupRequests.RemoveRequest | src/groups.rs:73-96 | group `remove` sends the map under `$remove` |
| GroupRequests.UnionRequest | src/groups.rs:99-122 | group `union` sends the map under `$union` |
| GroupRequests.UnsetRequest | src/groups.rs:125-148 | group `unset` sends the names under `$unset`, in order |
| Client.ParseU64 | src/lib.rs:130-134 | a parsed `time` string always fits an unsigned 64-bit integer |
| Client.ShowNatValue | src/lib.rs:130-134 | the decimal digits of a number read back as that number |
| Client.ParseShowRoundTrip | src/lib.rs:130-134 | every unsigned 64-bit number written in decimal parses back to itself |
| Client.Stamp | src/lib.rs:121-124 | the stamped properties are the caller's plus `token`, `mp_lib` = "rust" and `$lib_version`; the library's values win; every other key is unchanged |
| Client.NormaliseTime | src/lib.rs:127-136 | only `time` may change: a string that parses as an unsigned 64-bit number becomes that integer; any other value stays |
| Client.NormaliseTimeIdempotent | src/lib.rs:127-136 | normalising `time` twice is the same as once |
| Client.TrackProperties | src/lib.rs:116-148 | `track` sends the caller's keys plus the three stamp keys, with the stamp values; the caller's other keys pass unchanged, and a caller's `time` is sent normalised to milliseconds |
| Client.TrackRequest | src/lib.rs:116-148 | `track` sends one GET to `/track` whose body holds exactly the event name as given and the stamped properties |
| Client.AliasEventProperties | src/lib.rs:183-189 | the `$create_alias` event carries exactly `distinct_id`, `alias` and the stamp |
| Client.ChunksFlatten | src/lib.rs:151-180 | the batches, concatenated in order, give back the stamped event list |
| Client.ChunksSizes | src/lib.rs:151-180 | no batch is empty or holds more than the limit, and every batch but the last holds exactly the limit |
| Client.ChunksCount | src/lib.rs:151-180 | there are no batches exactly when there are no events; otherwise the number of batches is the event count divided by the limit, rounded up |
| Client.TrackBatch | src/lib.rs:151-180 | the requests made are a prefix of the 50-event batches, in order; it stops at the first failure and returns that failure; success means every batch was sent and accepted |
| Client.Pow2Monotone | src/lib.rs:227-236 | the backoff multiplier never shrinks as the retry count grows |
| Client.BackoffMs | src/lib.rs:227-236 | a rate limit with `Retry-After` waits that many seconds; otherwise the wait is the base delay doubled per retry, capped at the maximum |
| Client.BackoffMonotone | src/lib.rs:227-236 | the computed wait never shrinks from one retry to the next |
| Client.DefaultBackoff | src/lib.rs:38-55 | with the default configuration, every failure that does not carry a `Retry-After` (including a rate limit without one) waits 1, 2 and 4 seconds on the first three retries, and never more than 10 seconds |
| Client.SendRequest | src/lib.rs:192-248 | at most `max_retries` waits, each after a retryable failure and of the backoff length; success is exactly success of the last attempt; when retries run out the result is `MaxRetriesReached`; otherwise a failure that is not retryable is returned as it was |
| Client.ToUpper | src/lib.rs:290-298 | uppercasing keeps the length and maps each character |
| Client.StripSlash | src/lib.rs:265-270 | the endpoint loses exactly one leading `/`, if it has one |
| Client.BuildQuery | src/lib.rs:272-294 | the query is exactly `ip` and `verbose` from the configuration, then `data` for GET, then `test=1` in test mode, and nothing else (`Query`) |
| Client.PrepareRequest | src/lib.rs:251-310 | only GET and POST are accepted, in any case; any other method is a client error with status 0; the query is exactly `Query` of the configuration, method and data; GET has no body, POST the `data=` form body; the path is the base path plus the endpoint |
| Client.ClassifyFailure | src/lib.rs:357-376 | 413 is payload too large; 429 is a rate limit with the parsed `Retry-After`; 500 and up are server errors carrying the status; other 4xx are client errors carrying the status and the body; the rest are HTTP errors carrying the status and the body; exactly 429 and 5xx are retryable |
| Client.ClassifySuccess | src/lib.rs:321-355 | without verbose, success means the body is exactly `1`; with verbose, it means the JSON `status` is 1; an unparseable body is a JSON error; with verbose, a missing `status` and a non-1 status without an `error` string are unexpected responses carrying the body, and a non-1 status with an `error` string is a client error carrying that message |
| Client.ClassifyResponse | src/lib.rs:318-377 | a 2xx status is classified exactly as `ClassifySuccess` says; a non-2xx status is classified as a failure; a retryable error never comes from a 2xx response |
| Persistence.ParseOptions | packages/tauri-plugin-mixpanel/src/persistence.rs:44-58 | anything but an object gives the defaults; `persistent` is false only when it is the boolean false; `days` is present exactly when it is an unsigned 64-bit integer |
| Persistence.ParseOptionsIgnoresOtherKeys | packages/tauri-plugin-mixpanel/src/persistence.rs:44-58 | adding or removing a key other than `persistent` and `days` never changes the parsed options |
| Persistence.LoadRecord | packages/tauri-plugin-mixpanel/src/persistence.rs:83-117 | a missing file or an expired record loads as the default; otherwise the file's record loads; a loaded record is never expired |
| Persistence.NextExpiry | packages/tauri-plugin-mixpanel/src/persistence.rs:161-174 | no `days` keeps the expiry; `days = 0` removes it; otherwise the expiry is `now + days` or a later live expiry; after any `days` the record is live |
| Persistence.OnceInto | packages/tauri-plugin-mixpanel/src/persistence.rs:190-206 | the `register_once` loop computes the write-once merge and reports whether any key was written |
| Persistence.RegisterThenRead | packages/tauri-plugin-mixpanel/src/persistence.rs:156-180 | when `days` is given or the record has not expired, a registered key reads back its new value, at once and after reloading the saved snapshot; every other key keeps its value (a register without `days` into an expired record is not read back, since the record stays expired) |
| Persistence.OnceMergeWithoutDefault | packages/tauri-plugin-mixpanel/src/persistence.rs:182-235 | without a default, `register_once` is a union in which the existing values win |
| Persistence.OnceMergeKeepsOrFills | packages/tauri-plugin-mixpanel/src/persistence.rs:182-235 | an absent key is filled; a value other than the default is never replaced; a value equal to the default is replaced; no other key appears |
| Persistence.OnceUnchangedRecord | packages/tauri-plugin-mixpanel/src/persistence.rs:208-228 | when no key qualifies, the whole record, including its expiry, stays as it was |
| Persistence.OnceIdempotentWithoutDefault | packages/tauri-plugin-mixpanel/src/persistence.rs:437-494 | a second identical `register_once` without a default writes nothing and changes nothing |
| Persistence.UnregisterThenRead | packages/tauri-plugin-mixpanel/src/persistence.rs:237-248 | after `unregister` the key reads as absent, also after a reload; other keys are untouched |
| Persistence.Store.Load | packages/tauri-plugin-mixpanel/src/persistence.rs:83-101 | the store starts with the loaded record and has saved nothing |
| Persistence.Store.Register | packages/tauri-plugin-mixpanel/src/persistence.rs:156-180 | the record becomes the extended properties with the new expiry, and that snapshot is saved |
| Persistence.Store.RegisterOnce | packages/tauri-plugin-mixpanel/src/persistence.rs:182-235 | the record becomes the write-once merge; the expiry moves and a snapshot is saved only when a key was written |
| Persistence.Store.Unregister | packages/tauri-plugin-mixpanel/src/persistence.rs:237-248 | only the key is removed, and a snapshot is saved only if the key was there |
| Persistence.Store.GetProperties | packages/tauri-plugin-mixpanel/src/persistence.rs:250-269 | all properties while the record is live, and nothing once it has expired |
| Persistence.Store.GetProperty | packages/tauri-plugin-mixpanel/src/persistence.rs:273-292 | a value is returned exactly when the record is live and holds the key, and it is that key's value |
| Persistence.Store.SetDistinctId | packages/tauri-plugin-mixpanel/src/persistence.rs:294-310 | only the identity changes, and the snapshot is saved |
| Persistence.Store.SetEventTimer | packages/tauri-plugin-mixpanel/src/persistence.rs:312-324 | the event's timer is set to the instant, replacing an earlier one; nothing else changes |
| Persistence.Store.RemoveEventTimer | packages/tauri-plugin-mixpanel/src/persistence.rs:326-344 | returns the event's start instant, if any, and closes the timer; a snapshot is saved only when there was one |
| Persistence.Store.ClearAllData | packages/tauri-plugin-mixpanel/src/persistence.rs:346-369 | the record returns to the default, and that record is saved |
| PluginPeople.ActionKey | packages/tauri-plugin-mixpanel/src/people.rs:8-15 | every people action is sent under one of the eight action keys |
| PluginPeople.Unreserved | packages/tauri-plugin-mixpanel/src/people.rs:39-44 | filtering drops exactly the reserved identity keys and keeps every other value |
| PluginPeople.ParseAndFilterProps | packages/tauri-plugin-mixpanel/src/people.rs:141-157 | an object loses exactly its reserved keys; null is empty; any other value is refused with the action's message |
| PluginPeople.KeyedProps | packages/tauri-plugin-mixpanel/src/people.rs:163-185 | an object is filtered; a non-reserved key maps to its value (null when missing); a reserved key gives nothing; anything else is refused; the result never holds a reserved key |
| PluginPeople.PropsRequest | packages/tauri-plugin-mixpanel/src/people.rs:47-137 | each property-carrying action goes to the client builder that sends the properties under that action's key |
| PluginPeople.CollectKeys | packages/tauri-plugin-mixpanel/src/people.rs:73-80 | the collected keys list every key of the map exactly once |
| PluginPeople.Amounts | packages/tauri-plugin-mixpanel/src/people.rs:81-96 | the `$add` conversion succeeds exactly when every value is a signed 64-bit integer, and then keeps those integers; otherwise it fails naming an offending key |
| PluginPeople.SendRequest | packages/tauri-plugin-mixpanel/src/people.rs:47-137 | nothing is sent before a user is identified; otherwise each action goes to its builder: `$unset` with the map's keys, `$add` with the integers, `$delete` with nothing; a bad `$add` value fails; for an identified user the decision is never to skip |
| PluginPeople.SendProps | packages/tauri-plugin-mixpanel/src/people.rs:163-185 | an empty map, or no identified user, sends nothing; otherwise the action's request is sent |
| PluginPeople.SendKeyed | packages/tauri-plugin-mixpanel/src/people.rs:163-212 | the shared shape of set, set_once, append and remove: refuse bad arguments, skip when no key is left, otherwise send |
| PluginPeople.Set | packages/tauri-plugin-mixpanel/src/people.rs:163-185 | `set` sends `$set` of the filtered object or single key, as the shared shape says |
| PluginPeople.SetOnce | packages/tauri-plugin-mixpanel/src/people.rs:188-212 | `set_once` sends `$set_once` in the same way |
| PluginPeople.Append | packages/tauri-plugin-mixpanel/src/people.rs:311-335 | `append` sends `$append` in the same way |
| PluginPeople.Remove | packages/tauri-plugin-mixpanel/src/people.rs:338-362 | `remove` sends `$remove` in the same way |
| PluginPeople.IncrementProps | packages/tauri-plugin-mixpanel/src/people.rs:259-277 | the object form succeeds exactly when every non-reserved value is a number, and then gives the filtered object; otherwise it fails naming an offender |
| PluginPeople.IncrementArgs | packages/tauri-plugin-mixpanel/src/people.rs:258-299 | the object or single-key form of `increment`; a missing amount is 1; a non-numeric amount or key type is refused; the result holds only numbers and no reserved key |
| PluginPeople.Increment | packages/tauri-plugin-mixpanel/src/people.rs:258-308 | refused arguments fail with the error `IncrementError` names; no amounts or no identified user sends nothing; otherwise it fails exactly when some amount does not fit a signed 64-bit integer, and when all fit it sends the `$add` request of exactly those amounts as integers |
| PluginPeople.AsList | packages/tauri-plugin-mixpanel/src/people.rs:365-409 | a union value is always a list: a list stays, anything else is wrapped |
| PluginPeople.UnionOf | packages/tauri-plugin-mixpanel/src/people.rs:367-382 | the object form drops the reserved keys and makes every remaining value a list |
| PluginPeople.UnionProps | packages/tauri-plugin-mixpanel/src/people.rs:367-382 | the loop over the object builds exactly that map |
| PluginPeople.Union | packages/tauri-plugin-mixpanel/src/people.rs:365-409 | an object sends `$union` of its lists, or nothing when no key is left; a single key sends its value as a list (empty when missing); any other type is refused; nothing is sent before identify |
| PluginPeople.UnsetKeys | packages/tauri-plugin-mixpanel/src/people.rs:225-237 | a list of names succeeds exactly when every element is a string, and then names exactly its non-reserved strings; otherwise it fails with the source's message |
| PluginPeople.UnsetKeySet | packages/tauri-plugin-mixpanel/src/people.rs:217-252 | `unset` accepts a string or a list of strings, and never names a reserved key |
| PluginPeople.UnsetArgs | packages/tauri-plugin-mixpanel/src/people.rs:217-252 | the map `unset` builds has exactly the accepted keys, and fails as that set does |
| PluginPeople.UnsetKeysMatch | packages/tauri-plugin-mixpanel/src/people.rs:225-237 | the keys the loop collects are the set `UnsetKeySet` describes |
| PluginPeople.Unset | packages/tauri-plugin-mixpanel/src/people.rs:217-252 | bad arguments fail; no keys or no identified user sends nothing; otherwise a `$unset` of exactly the accepted keys is sent |
| PluginPeople.SingleKeyEnumeration | packages/tauri-plugin-mixpanel/src/people.rs:217-252 | the only listing of a one-key set is that key alone |
| PluginPeople.DeleteUser | packages/tauri-plugin-mixpanel/src/people.rs:412-418 | `$delete` is sent exactly when a user was identified |
| PluginPeople.Settle | packages/tauri-plugin-mixpanel/src/people.rs:47-137 | sending nothing succeeds; a refusal is the error; a sent request succeeds exactly when the client does, and otherwise wraps the client's error |
| PluginPeople.KeyedNeverSendsReserved | packages/tauri-plugin-mixpanel/src/people.rs:39-44 | no request the people facade sends ever carries a reserved key in its property object |
| PluginState.ParseProps | packages/tauri-plugin-mixpanel/src/state.rs:181-192 | an object is taken as it is; null is empty; anything else is refused with the source's message |
| PluginState.ParseAndFilterIsParseThenFilter | packages/tauri-plugin-mixpanel/src/state.rs:181-192 | the people facade's parsing is exactly this parsing followed by dropping the reserved keys |
| PluginState.PropertyOf | packages/tauri-plugin-mixpanel/src/state.rs:196-203 | the live persisted value wins; otherwise the overlay's value is used |
| PluginState.ComposeEvent | packages/tauri-plugin-mixpanel/src/state.rs:525-574 | the keys are the union of all layers plus `distinct_id` and `time` (and `$duration` when timed); each key takes the value of the last layer that has it; the duration is in seconds since the timer started; the distinct id and the time in seconds cannot be overridden |
| PluginState.ComposeProperties | packages/tauri-plugin-mixpanel/src/state.rs:525-574 | the step-by-step layering in `track` computes exactly that composition |
| PluginState.OsName | packages/tauri-plugin-mixpanel/src/state.rs:91-99 | `macos`, `windows`, `linux`, `ios` and `android` become `Mac OS X`, `Windows`, `Linux`, `iOS` and `Android`; any other platform name is passed through |
| PluginState.GatherInitialProperties | packages/tauri-plugin-mixpanel/src/state.rs:64-111 | a missing machine id fails only when an id or a device id is needed; otherwise a device id is stored as the distinct id when none was loaded; `$device_id` is added when none is visible; `$os` and `$browser` are always added, `$browser_version` when given; exactly these keys |
| PluginState.MixpanelState.New | packages/tauri-plugin-mixpanel/src/state.rs:22-44 | a started state has an empty overlay and has sent nothing; its distinct id is the loaded one, else `$device:` and the machine id (also registered as `distinct_id`); the machine id is registered as `$device_id` when none is visible; `$os`, `$browser` and a given `$browser_version` are registered; every loaded key start-up does not gather (including a visible `$device_id`, a loaded `distinct_id` property when an id was loaded, and `$browser_version` without a version), the alias and the timers are kept; it fails exactly when the machine id is unavailable and needed, that is when no id was loaded or no `$device_id` is visible, and then with "Failed to get machine ID: " and the cause |
| PluginState.GroupIdList | packages/tauri-plugin-mixpanel/src/state.rs:224-233 | an array is taken as it is; one string or number becomes a one-element list; anything else is refused with the source's message |
| PluginState.Without | packages/tauri-plugin-mixpanel/src/state.rs:325-329 | every occurrence of the id is removed and nothing else; the list shrinks exactly when the id was there |
| PluginState.IdentifyRecordEffect | packages/tauri-plugin-mixpanel/src/state.rs:371-417 | `identify` sets the new id as the distinct id, `distinct_id` and `$user_id`; it drops a different alias; it fills `$device_id` and `$had_persisted_distinct_id` only when no device id is visible, never over a stored one; the expiry, timers and every other key stay |
| PluginState.IdentifyLookup | packages/tauri-plugin-mixpanel/src/state.rs:371-417 | each key of the record after `identify`, in closed form |
| PluginState.LookupMerge | packages/tauri-plugin-mixpanel/src/persistence.rs:156-180 | a key of an extended map comes from the new entries when present, else from the old map |
| PluginState.IdentifyIsNotCreateAlias | packages/tauri-plugin-mixpanel/src/state.rs:419-435 | the `$identify` event is never a `$create_alias` event |
| PluginState.SingleUnreserved | packages/tauri-plugin-mixpanel/src/people.rs:163-173 | a one-key object keeps its key unless the key is reserved |
| PluginState.GroupSet | packages/tauri-plugin-mixpanel/src/state.rs:246-250 | an identified user gets a `$set` of the list under the group key, unless the key is reserved |
| PluginState.GroupUnion | packages/tauri-plugin-mixpanel/src/state.rs:292-299 | an identified user gets a `$union` of the one id under the group key, unless the key is reserved |
| PluginState.GroupRemove | packages/tauri-plugin-mixpanel/src/state.rs:354-363 | an identified user gets a `$remove` of the one id under the group key, unless the key is reserved |
| PluginState.ResetAsWrittenLosesIdentity | packages/tauri-plugin-mixpanel/src/state.rs:494-516 | after `reset` as written, the `distinct_id` property names the new device id, but there is no distinct id |
| PluginState.ResetKeepsIdentity | packages/tauri-plugin-mixpanel/src/state.rs:494-516 | after the corrected `reset`, the identity and the property agree on the new device id, and the user counts as anonymous |
| PluginState.MixpanelState.Dispatch | packages/tauri-plugin-mixpanel/src/people.rs:47-137 | a decision to send hands exactly that request to the client, and the outcome is settled |
| PluginState.MixpanelState.Register | packages/tauri-plugin-mixpanel/src/state.rs:125-136 | bad properties fail without change; persistent options write to the store with the expiry rule; otherwise the overlay is extended and the store is untouched |
| PluginState.MixpanelState.RegisterOnce | packages/tauri-plugin-mixpanel/src/state.rs:139-164 | the same write-once rule, applied to the store or to the overlay as the options say |
| PluginState.MixpanelState.Unregister | packages/tauri-plugin-mixpanel/src/state.rs:168-178 | the key is removed from the store or from the overlay, as the options say |
| PluginState.MixpanelState.GetProperty | packages/tauri-plugin-mixpanel/src/state.rs:196-203 | the lookup agrees with `PropertyOf` on the current store and overlay |
| PluginState.MixpanelState.StoreGroup | packages/tauri-plugin-mixpanel/src/state.rs:237-244 | one group key is written to the store with the expiry rule, or to the overlay |
| PluginState.MixpanelState.DropGroup | packages/tauri-plugin-mixpanel/src/state.rs:333-341 | one group key is removed from the store or from the overlay |
| PluginState.MixpanelState.SetGroup | packages/tauri-plugin-mixpanel/src/state.rs:218-253 | a bad id list fails without change; otherwise the list is stored as the options say, and a `$set` is sent exactly for an identified user and an unreserved key, with the client's outcome |
| PluginState.MixpanelState.AddGroup | packages/tauri-plugin-mixpanel/src/state.rs:256-303 | a non-id fails without change; the id is appended to the persisted list unless already present; a `$union` is sent for an identified user either way |
| PluginState.MixpanelState.RemoveGroup | packages/tauri-plugin-mixpanel/src/state.rs:306-367 | a non-id fails without change; an id not listed changes and sends nothing; otherwise every occurrence goes, an emptied key is removed, and a `$remove` is sent for an identified user |
| PluginState.MixpanelState.SendEvent | packages/tauri-plugin-mixpanel/src/state.rs:576-583 | the event is handed to the client; a failure is reported against the event's name |
| PluginState.MixpanelState.SwitchIdentity | packages/tauri-plugin-mixpanel/src/state.rs:383-417 | the persisted steps of `identify` leave exactly the identify record, and that record is the last snapshot saved |
| PluginState.MixpanelState.Identify | packages/tauri-plugin-mixpanel/src/state.rs:371-441 | the current id or a `$device:` id changes nothing; otherwise the store becomes the identify record, the overlay stays, and an `$identify` event is sent exactly when there was a previous id |
| PluginState.MixpanelState.Alias | packages/tauri-plugin-mixpanel/src/state.rs:444-491 | there is no alias without an original id; an alias equal to the original only identifies; an alias already known as the People id is refused without change; otherwise `$alias` is persisted and `$create_alias` is sent; once it is delivered, exactly the `$identify` event of `identify` follows, if any, and the result is that identify's outcome |
| PluginState.MixpanelState.CreateAlias | packages/tauri-plugin-mixpanel/src/state.rs:457-488 | the refusal, persistence and event steps of `alias` once the alias differs from the original, and the events and outcome of the identify that follows a delivered `$create_alias` |
| PluginState.MixpanelState.SwitchTo | packages/tauri-plugin-mixpanel/src/state.rs:371-441 | `identify` sends the `$identify` event exactly when the id changes from an existing one, returns that event's delivery outcome, and switches to any id without the `$device:` prefix |
| PluginState.MixpanelState.TimeEvent | packages/tauri-plugin-mixpanel/src/state.rs:208-215 | the event's timer starts at `now`, replacing an earlier one |
| PluginState.MixpanelState.Track | packages/tauri-plugin-mixpanel/src/state.rs:520-590 | no distinct id fails without change; bad properties fail without change; otherwise the composed event is sent, the event's timer is consumed, and a failure is reported against the event's name |
| PluginState.MixpanelState.ResetAsWritten | packages/tauri-plugin-mixpanel/src/state.rs:494-516 | `reset` as written clears the store and the overlay and leaves the as-written record |
| PluginState.MixpanelState.Reset | packages/tauri-plugin-mixpanel/src/state.rs:494-516 | the corrected `reset` leaves the new device id as the distinct id |
| PluginState.MixpanelState.TrackAfterResetAsWritten | packages/tauri-plugin-mixpanel/src/state.rs:494-590 | `track` right after `reset` as written fails with "Distinct ID not set" and sends nothing |
| PluginState.MixpanelState.TrackAfterReset | packages/tauri-plugin-mixpanel/src/state.rs:494-590 | `track` right after the corrected `reset` sends the event under the new device id |

## Left out

- File I/O, serde serialisation and the background writer. The saved snapshots are recorded in `saves`, and the loaded file is a parameter.
- The clock. `now` is a parameter, and the pre-epoch fallback of `current_time_millis` is not modelled.
- The machine id, operating system and web view version are injected. `initialize_persistence`, which finds the app data directory, is not modelled.
- Locks, `Arc`, async scheduling and concurrency. Each operation is atomic in the model.
- Floating point. `f64` values are `real`, so `$duration` and the coordinates are exact.
- HashMap iteration order. Where the source picks "some" key (the offending key of a failed `$add` or increment), the model only says such a key exists.
- URL parsing, base64 encoding, the basic-auth header and the HTTP transport. They sit behind `deliver`, `attempt` and the `urlPath` parameter.
- Client.ToUpper: uppercases ASCII letters only, where `str::to_uppercase` also uppercases other scripts.
- Client.TrackBatch: the per-batch `send_request` retries are folded into `deliver`.
- Client.SendRequest: the wait itself is recorded in `waits`, not slept.
- Client.SendRequest: `MaxRetriesReached` carries the retry count and the last error, not the formatted message.
- Client.BackoffMs: integers are unbounded, so the `u64` overflow of `base_delay * (1 << retries)` is not modelled.
- PluginState.MixpanelState.Identify: the wrapped error text ("Failed to track $identify event: …") is modelled as `TrackFailed("$identify", error)`, not as a formatted string.
- PluginState.MixpanelState.Alias: the wrapped error text is modelled as `TrackFailed("$create_alias", error)`. The contract covers the sent events, the result and the identity, but not every persisted key after the final identify.
- PluginState.MixpanelState.Track: the `Failed to track event` message is modelled as `TrackFailed(event, error)`.
- PluginState.MixpanelState.SetGroup: a client failure is `MixpanelClient(error)`, as for every people request.
- The unreachable branches of `send_request`: an unknown action string, and a missing distinct id after the identify gate. The model's actions are a closed datatype.
- The `u64` overflow of `now + days` in the expiry. Integers are unbounded.
- `println!` and `eprintln!` diagnostics, the Tauri command layer (`commands.rs`), the plugin's `lib.rs` and `error.rs`, and the examples. None of them holds logic beyond forwarding. The plugin's error type follows its uses rather than `error.rs`: `PluginError.MixpanelClient` wraps a client error as `packages/tauri-plugin-mixpanel/src/people.rs:58` does, although the `error.rs` at hand declares only the message variant.

## Findings

| source | as written | input that shows it | evidently intended | confidence | as-written member | corrected member |
|---|---|---|---|---|---|---|
| packages/tauri-plugin-mixpanel/src/state.rs:494-516 | `reset` clears the store, so the identity becomes None. It then only registers `distinct_id` and `$device_id` as properties, and never calls `set_distinct_id`. | Any machine id: `reset()` followed by `track("e", None)` fails with "Distinct ID not set. Call identify or alias first." | The doc comment says reset generates a new distinct id. As `gather_initial_properties` does (state.rs:64-111), the new `$device:` id should also become the distinct id. | not executed | PluginState.MixpanelState.ResetAsWritten, PluginState.MixpanelState.TrackAfterResetAsWritten, PluginState.ResetAsWrittenLosesIdentity | PluginState.MixpanelState.Reset, PluginState.MixpanelState.TrackAfterReset, PluginState.ResetKeepsIdentity |
