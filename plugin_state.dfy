/**
 * The plugin's client state: the persisted store, an in-memory overlay of
 * super properties that are not persisted, and the identity transitions
 * (`identify`, `alias`, `reset`) and event composition (`track`) built on
 * them.  `sent` lists, in order, every request handed to the HTTP client;
 * `deliver` gives the client's outcome for a request.
 */
module PluginState {
  import opened Common
  import opened Json
  import opened Utils
  import opened Persistence
  import opened PluginPeople
  import Client

  /** `parse_props`: an object is taken as it is, null is empty, anything else is refused. */
  function ParseProps(value: Json): (r: Result<map<string, Json>, PluginError>)
    ensures r.Ok? <==> value.Obj? || value.Null?
    ensures value.Obj? ==> r.value == value.fields
    ensures value.Null? ==> r.value == map[]
    ensures r.Err? ==> r.error == MixpanelError("properties must be an object or null")
  {
    match value
    case Obj(fields) => Ok(fields)
    case Null => Ok(map[])
    case _ => Err(MixpanelError("properties must be an object or null"))
  }

  /** The people facade's parsing is this parsing followed by dropping the reserved keys. */
  lemma ParseAndFilterIsParseThenFilter(value: Json, actionName: string)
    ensures ParseAndFilterProps(value, actionName).Ok? <==> ParseProps(value).Ok?
    ensures ParseProps(value).Ok? ==> ParseAndFilterProps(value, actionName).value == Unreserved(ParseProps(value).value)
  {
  }

  /** `get_property`: the persisted value while the store is live, otherwise the overlay's. */
  function PropertyOf(d: PersistentData, overlay: map<string, Json>, key: string, now: nat): (r: Option<Json>)
    ensures !Expired(d.storeExpiresAt, now) && key in d.properties ==> r == Some(d.properties[key])
    ensures (Expired(d.storeExpiresAt, now) || key !in d.properties) ==> r == Lookup(overlay, key)
  {
    if VisibleValue(d, key, now).Some? then VisibleValue(d, key, now) else Lookup(overlay, key)
  }

  /** The tracked event's name, when a request is a track call. */
  predicate IsEventNamed(r: Request, event: string) {
    r.data.Obj? && "event" in r.data.fields && r.data.fields["event"] == Str(event)
  }

  /** A track call carries property `key` with value `v`. */
  predicate Carries(r: Request, key: string, v: Json) {
    && r.data.Obj? && "properties" in r.data.fields && r.data.fields["properties"].Obj?
    && key in r.data.fields["properties"].fields && r.data.fields["properties"].fields[key] == v
  }

  /**
   * The properties `track` sends: persisted, then overlay, then the call's
   * own, each layer winning key by key; then `$duration` in seconds when a
   * timer for the event started no later than `now`; then the distinct id
   * and the time in seconds, which nothing the caller passes can override.
   */
  function ComposeEvent(persisted: map<string, Json>, overlay: map<string, Json>, input: map<string, Json>,
                        start: Option<nat>, distinctId: string, now: nat): (r: map<string, Json>)
    ensures r.Keys == persisted.Keys + overlay.Keys + input.Keys + {"distinct_id", "time"} +
                      (if start.Some? && now >= start.value then {"$duration"} else {})
    ensures r["distinct_id"] == Str(distinctId) && r["time"] == Int(now / 1000)
    ensures start.Some? && now >= start.value ==> r["$duration"] == Float((now - start.value) as real / 1000.0)
    ensures forall k :: k in r && k != "distinct_id" && k != "time" && !(k == "$duration" && start.Some? && now >= start.value) ==>
      (k in input ==> r[k] == input[k]) &&
      (k !in input && k in overlay ==> r[k] == overlay[k]) &&
      (k !in input && k !in overlay ==> r[k] == persisted[k])
  {
    var layered := persisted + overlay + input;
    var timed := if start.Some? && now >= start.value then
      layered["$duration" := Float((now - start.value) as real / 1000.0)] else layered;
    timed["distinct_id" := Str(distinctId)]["time" := Int(now / 1000)]
  }

  /** The layering `track` performs, step by step, on the maps it was given. */
  method ComposeProperties(persisted: map<string, Json>, overlay: map<string, Json>, input: map<string, Json>,
                           start: Option<nat>, distinctId: string, now: nat) returns (finalProps: map<string, Json>)
    ensures finalProps == ComposeEvent(persisted, overlay, input, start, distinctId, now)
  {
    finalProps := persisted;
    finalProps := finalProps + overlay;
    finalProps := finalProps + input;
    if start.Some? && now >= start.value {
      finalProps := finalProps["$duration" := Float((now - start.value) as real / 1000.0)];
    }
    finalProps := finalProps["distinct_id" := Str(distinctId)];
    finalProps := finalProps["time" := Int(now / 1000)];
  }

  /** The `$identify` event that links a new id to the previous one. */
  function IdentifyEvent(mp: Client.Mixpanel, newId: string, oldId: string): Request {
    Client.TrackRequest(mp, "$identify", Some(map["distinct_id" := Str(newId), "$anon_distinct_id" := Str(oldId)]))
  }

  /** The `$identify` event `identify` sends when the current id is `current`: none when the id does not change or there was no id. */
  function IdentifyEvents(mp: Client.Mixpanel, current: Option<string>, newId: string): seq<Request> {
    if current.Some? && current != Some(newId) && !StartsWith(newId, DevicePrefix) then
      [IdentifyEvent(mp, newId, current.value)]
    else
      []
  }

  /** What `identify` returns: the delivery of its `$identify` event, if it sends one. */
  function IdentifyOutcome(mp: Client.Mixpanel, current: Option<string>, newId: string,
                           deliver: Request -> Client.Outcome): Result<(), PluginError> {
    var events := IdentifyEvents(mp, current, newId);
    if events != [] && deliver(events[0]).Err? then Err(TrackFailed("$identify", deliver(events[0]).error)) else Ok(())
  }

  /** The `$create_alias` event `alias` sends. */
  function CreateAliasEvent(mp: Client.Mixpanel, alias: string, original: string): Request {
    Client.TrackRequest(mp, "$create_alias", Some(map["alias" := Str(alias), "distinct_id" := Str(original)]))
  }

  /** `tauri_plugin_os::platform()` as Mixpanel names the operating system. */
  function OsName(platform: string): (name: string)
    ensures platform !in {"macos", "windows", "linux", "ios", "android"} ==> name == platform
    ensures platform == "macos" ==> name == "Mac OS X"
    ensures platform == "windows" ==> name == "Windows"
    ensures platform == "linux" ==> name == "Linux"
    ensures platform == "ios" ==> name == "iOS"
    ensures platform == "android" ==> name == "Android"
  {
    match platform
    case "macos" => "Mac OS X"
    case "windows" => "Windows"
    case "linux" => "Linux"
    case "ios" => "iOS"
    case "android" => "Android"
    case _ => platform
  }

  /** The record `reset` leaves as the source writes it: empty but for two properties, and no distinct id. */
  function ResetRecordAsWritten(machineId: string): PersistentData {
    Empty.(properties := map["distinct_id" := Str(DevicePrefix + machineId), "$device_id" := Str(machineId)])
  }

  /** The record `reset` is meant to leave: the same, with the new device id as the distinct id. */
  function ResetRecord(machineId: string): PersistentData {
    ResetRecordAsWritten(machineId).(distinctId := Some(DevicePrefix + machineId))
  }

  /**
   * After `reset` as written the `distinct_id` property names a fresh device
   * id, but the identity `track` and the people API read is gone.
   */
  lemma ResetAsWrittenLosesIdentity(machineId: string, now: nat)
    ensures VisibleValue(ResetRecordAsWritten(machineId), "distinct_id", now) == Some(Str(DevicePrefix + machineId))
    ensures ResetRecordAsWritten(machineId).distinctId.None?
  {
  }

  /** After the corrected `reset` the identity and the property agree, and the user counts as anonymous. */
  lemma ResetKeepsIdentity(machineId: string, now: nat)
    ensures ResetRecord(machineId).distinctId == Some(DevicePrefix + machineId)
    ensures VisibleValue(ResetRecord(machineId), "distinct_id", now) == Some(Str(ResetRecord(machineId).distinctId.value))
    ensures !IdentifyCalled(ResetRecord(machineId).distinctId)
  {
    assert (DevicePrefix + machineId)[..|DevicePrefix|] == DevicePrefix;
  }

  /** The keys the plugin registers when it starts. */
  const InitialKeys: set<string> := {"distinct_id", "$device_id", "$os", "$browser", "$browser_version"}

  /**
   * The keys start-up gathers over the loaded record: `$os` and `$browser`
   * always, `distinct_id` when no id was loaded, `$device_id` when none is
   * visible, `$browser_version` when the web view reports one.
   */
  function GatheredKeys(loaded: PersistentData, now: nat, webviewVersion: Option<string>): set<string> {
    {"$os", "$browser"}
    + (if loaded.distinctId.None? then {"distinct_id"} else {})
    + (if VisibleValue(loaded, "$device_id", now).None? then {"$device_id"} else {})
    + (if webviewVersion.Some? then {"$browser_version"} else {})
  }

  /** Gather the properties registered when the plugin starts, storing a device id as the distinct id when none was loaded. */
  method GatherInitialProperties(store: Store, machineId: Result<string, string>, platform: string,
                                 webviewVersion: Option<string>, now: nat)
    returns (r: Result<map<string, Json>, PluginError>)
    modifies store
    ensures var needId := old(store.distinctId).None?;
      var needDevice := VisibleValue(old(store.Data()), "$device_id", now).None?;
      && ((needId || needDevice) && machineId.Err? ==>
            r == Err(MixpanelError("Failed to get machine ID: " + machineId.error)) &&
            store.Data() == old(store.Data()) && store.saves == old(store.saves))
      && (!needId && !needDevice ==> r.Ok?)
      && (r.Ok? && needId ==>
            store.Data() == old(store.Data()).(distinctId := Some(DevicePrefix + machineId.value)) &&
            "distinct_id" in r.value && r.value["distinct_id"] == Str(DevicePrefix + machineId.value))
      && (r.Ok? && !needId ==> store.Data() == old(store.Data()) && "distinct_id" !in r.value)
      && (r.Ok? && needDevice ==> "$device_id" in r.value && r.value["$device_id"] == Str(machineId.value))
      && (r.Ok? && !needDevice ==> "$device_id" !in r.value)
    ensures r.Err? ==> machineId.Err?
    ensures r.Ok? ==> "$os" in r.value && r.value["$os"] == Str(OsName(platform))
    ensures r.Ok? ==> "$browser" in r.value && r.value["$browser"] == Str("Tauri WebView")
    ensures r.Ok? ==> ("$browser_version" in r.value <==> webviewVersion.Some?)
    ensures r.Ok? && webviewVersion.Some? ==> r.value["$browser_version"] == Str(webviewVersion.value)
    ensures r.Ok? ==> r.value.Keys <= InitialKeys
    ensures r.Ok? ==> r.value.Keys == GatheredKeys(old(store.Data()), now, webviewVersion)
    ensures store.saves == old(store.saves) || store.saves == old(store.saves) + [store.Data()]
  {
    var distinctIdOnLoad := store.distinctId;
    var deviceIdOnLoad := store.GetProperty("$device_id", now);
    var initial: map<string, Json> := map[];
    if distinctIdOnLoad.None? || deviceIdOnLoad.None? {
      if machineId.Err? {
        return Err(MixpanelError("Failed to get machine ID: " + machineId.error));
      }
      var id := machineId.value;
      if distinctIdOnLoad.None? {
        store.SetDistinctId(Some(DevicePrefix + id));
        initial := initial["distinct_id" := Str(DevicePrefix + id)];
      }
      if deviceIdOnLoad.None? {
        initial := initial["$device_id" := Str(id)];
      }
    }
    initial := initial["$os" := Str(OsName(platform))];
    initial := initial["$browser" := Str("Tauri WebView")];
    if webviewVersion.Some? {
      initial := initial["$browser_version" := Str(webviewVersion.value)];
    }
    r := Ok(initial);
  }

  /** `set_group`'s list: an array as it is, one string or number as a one-element list. */
  function GroupIdList(groupIds: Json): (r: Result<seq<Json>, PluginError>)
    ensures groupIds.Arr? ==> r == Ok(groupIds.items)
    ensures groupIds.Str? || IsNumber(groupIds) ==> r == Ok([groupIds])
    ensures !groupIds.Arr? && !groupIds.Str? && !IsNumber(groupIds) ==>
      r == Err(MixpanelError("group_ids must be an array or a single string/number"))
  {
    match groupIds
    case Arr(items) => Ok(items)
    case Str(_) => Ok([groupIds])
    case Int(_) => Ok([groupIds])
    case Float(_) => Ok([groupIds])
    case _ => Err(MixpanelError("group_ids must be an array or a single string/number"))
  }

  /** `add_group` and `remove_group` take one group id: a string or a number. */
  predicate IsGroupId(v: Json) {
    v.Str? || IsNumber(v)
  }

  /** The group list `add_group` starts from: the persisted array, or the empty list. */
  function CurrentGroups(v: Option<Json>): seq<Json> {
    if v.Some? && v.value.Arr? then v.value.items else []
  }

  /** `Vec::retain(|x| x != id)`: every occurrence of `id` goes, the rest keep their order. */
  function Without(items: seq<Json>, id: Json): (r: seq<Json>)
    ensures forall x :: x in r <==> x in items && x != id
    ensures |r| <= |items|
    ensures |r| == |items| <==> id !in items
    ensures id !in items ==> r == items
  {
    if items == [] then []
    else if items[0] == id then Without(items[1..], id)
    else [items[0]] + Without(items[1..], id)
  }

  /** The properties `identify` may write or remove; it leaves every other persisted key alone. */
  const IdentifyKeys: set<string> := {"distinct_id", "$user_id", "$alias", "$device_id", "$had_persisted_distinct_id"}

  /** What `identify` registers once to remember the previous id as the device id. */
  function DeviceOnce(oldId: string): map<string, Json> {
    map["$device_id" := Str(oldId), "$had_persisted_distinct_id" := Bool(true)]
  }

  /** A key of a merged map comes from the right-hand map when it has it, else from the left. */
  lemma LookupMerge(a: map<string, Json>, b: map<string, Json>, k: string)
    ensures Lookup(a + b, k) == if k in b then Some(b[k]) else Lookup(a, k)
  {
  }

  /**
   * The record `identify` leaves when it switches from the record's distinct
   * id to `newId`, given the alias it read first: each step goes through
   * `register` or `register_once` without options, so the expiry and the
   * timers stay as they are.
   */
  function IdentifyRecord(d: PersistentData, oldAlias: Option<Json>, newId: string, now: nat): PersistentData {
    var dropAlias := oldAlias.Some? && oldAlias.value.Str? && oldAlias.value.s != newId;
    var fillDevice := d.distinctId.Some? && VisibleValue(d, "$device_id", now).None?;
    var p1 := if dropAlias then d.properties - {"$alias"} else d.properties;
    var p2 := p1 + map["$user_id" := Str(newId)];
    var p3 := if fillDevice then DeviceOnce(d.distinctId.value) + p2 else p2;
    d.(distinctId := Some(newId), properties := p3 + map["distinct_id" := Str(newId)])
  }

  /**
   * What `identify` does to the record: the new id becomes the distinct id
   * and is persisted as `distinct_id` and `$user_id`; an alias other than
   * the new id is gone; the previous id is filled in as `$device_id` (with
   * `$had_persisted_distinct_id`) only when no device id is visible and
   * never over a stored one; the expiry, timers and every other key stay.
   */
  lemma IdentifyRecordEffect(d: PersistentData, oldAlias: Option<Json>, newId: string, now: nat)
    ensures var r := IdentifyRecord(d, oldAlias, newId, now);
      var dropAlias := oldAlias.Some? && oldAlias.value.Str? && oldAlias.value.s != newId;
      var fillDevice := d.distinctId.Some? && VisibleValue(d, "$device_id", now).None?;
      var p0 := d.properties;
      var p := r.properties;
      && r == d.(distinctId := Some(newId), properties := p)
      && "distinct_id" in p && p["distinct_id"] == Str(newId)
      && "$user_id" in p && p["$user_id"] == Str(newId)
      && (dropAlias ==> "$alias" !in p)
      && (!dropAlias ==> Lookup(p, "$alias") == Lookup(p0, "$alias"))
      && ("$device_id" in p0 || !fillDevice ==> Lookup(p, "$device_id") == Lookup(p0, "$device_id"))
      && ("$device_id" !in p0 && fillDevice ==> "$device_id" in p && p["$device_id"] == Str(d.distinctId.value))
      && ("$had_persisted_distinct_id" in p0 || !fillDevice ==>
            Lookup(p, "$had_persisted_distinct_id") == Lookup(p0, "$had_persisted_distinct_id"))
      && ("$had_persisted_distinct_id" !in p0 && fillDevice ==>
            "$had_persisted_distinct_id" in p && p["$had_persisted_distinct_id"] == Bool(true))
      && (forall k :: k !in IdentifyKeys ==> Lookup(p, k) == Lookup(p0, k))
  {
    IdentifyLookup(d, oldAlias, newId, now, "distinct_id");
    IdentifyLookup(d, oldAlias, newId, now, "$user_id");
    IdentifyLookup(d, oldAlias, newId, now, "$alias");
    IdentifyLookup(d, oldAlias, newId, now, "$device_id");
    IdentifyLookup(d, oldAlias, newId, now, "$had_persisted_distinct_id");
    forall k | k !in IdentifyKeys
      ensures Lookup(IdentifyRecord(d, oldAlias, newId, now).properties, k) == Lookup(d.properties, k)
    {
      IdentifyLookup(d, oldAlias, newId, now, k);
    }
  }

  /** One key of the record `identify` leaves, in closed form. */
  lemma IdentifyLookup(d: PersistentData, oldAlias: Option<Json>, newId: string, now: nat, k: string)
    ensures var dropAlias := oldAlias.Some? && oldAlias.value.Str? && oldAlias.value.s != newId;
      var fillDevice := d.distinctId.Some? && VisibleValue(d, "$device_id", now).None?;
      Lookup(IdentifyRecord(d, oldAlias, newId, now).properties, k) ==
        if k == "distinct_id" || k == "$user_id" then Some(Str(newId))
        else if fillDevice && k in DeviceOnce(d.distinctId.value) && k !in d.properties then Some(DeviceOnce(d.distinctId.value)[k])
        else if dropAlias && k == "$alias" then None
        else Lookup(d.properties, k)
  {
    var dropAlias := oldAlias.Some? && oldAlias.value.Str? && oldAlias.value.s != newId;
    var fillDevice := d.distinctId.Some? && VisibleValue(d, "$device_id", now).None?;
    var p0 := d.properties;
    var p1 := if dropAlias then p0 - {"$alias"} else p0;
    var p2 := p1 + map["$user_id" := Str(newId)];
    var p3 := if fillDevice then DeviceOnce(d.distinctId.value) + p2 else p2;
    LookupMerge(p3, map["distinct_id" := Str(newId)], k);
    LookupMerge(p1, map["$user_id" := Str(newId)], k);
    if fillDevice {
      LookupMerge(DeviceOnce(d.distinctId.value), p2, k);
    }
  }

  /** An `$identify` event is never mistaken for a `$create_alias` one. */
  lemma IdentifyIsNotCreateAlias(mp: Client.Mixpanel, newId: string, oldId: string)
    ensures IsEventNamed(IdentifyEvent(mp, newId, oldId), "$identify")
    ensures !IsEventNamed(IdentifyEvent(mp, newId, oldId), "$create_alias")
  {
    assert "$identify"[1] != "$create_alias"[1];
  }

  /** A one-key object keeps its key unless it is reserved. */
  lemma SingleUnreserved(key: string, v: Json)
    ensures Unreserved(map[key := v]) == if IsReserved(key) then map[] else map[key := v]
  {
    var u := Unreserved(map[key := v]);
    if IsReserved(key) {
      assert u.Keys == {};
    } else {
      assert u.Keys == {key};
    }
  }

  /** The profile `$set` that `set_group` sends for its list. */
  method GroupSet(token: string, distinctId: Option<string>, groupKey: string, list: seq<Json>) returns (d: Decision)
    ensures d == if IdentifyCalled(distinctId) && !IsReserved(groupKey)
                 then Send(ProfileRequests.SetRequest(token, distinctId.value, map[groupKey := Arr(list)], None, false))
                 else Skip
  {
    var written := map[groupKey := Arr(list)];
    SingleUnreserved(groupKey, Arr(list));
    assert groupKey in written;
    d := PluginPeople.Set(token, distinctId, Obj(written), None);
  }

  /** The profile `$union` that `add_group` sends for one id. */
  method GroupUnion(token: string, distinctId: Option<string>, groupKey: string, groupId: Json) returns (d: Decision)
    ensures d == if IdentifyCalled(distinctId) && !IsReserved(groupKey)
                 then Send(ProfileRequests.UnionRequest(token, distinctId.value, map[groupKey := Arr([groupId])], None))
                 else Skip
  {
    var union := map[groupKey := Arr([groupId])];
    assert UnionOf(union) == if IsReserved(groupKey) then map[] else union by {
      if !IsReserved(groupKey) {
        assert UnionOf(union).Keys == {groupKey};
      }
    }
    assert !IsReserved(groupKey) ==> groupKey in union;
    d := PluginPeople.Union(token, distinctId, Obj(union), None);
  }

  /** The profile `$remove` that `remove_group` sends for one id. */
  method GroupRemove(token: string, distinctId: Option<string>, groupKey: string, groupId: Json) returns (d: Decision)
    ensures d == if IdentifyCalled(distinctId) && !IsReserved(groupKey)
                 then Send(ProfileRequests.RemoveRequest(token, distinctId.value, map[groupKey := groupId], None))
                 else Skip
  {
    var removed := map[groupKey := groupId];
    SingleUnreserved(groupKey, groupId);
    assert groupKey in removed;
    d := PluginPeople.Remove(token, distinctId, Obj(removed), None);
  }

  class MixpanelState {
    const mp: Client.Mixpanel
    const store: Store
    var superProperties: map<string, Json>
    ghost var sent: seq<Request>

    constructor Make(mp: Client.Mixpanel, store: Store)
      ensures this.mp == mp && this.store == store
      ensures superProperties == map[] && sent == []
    {
      this.mp := mp;
      this.store := store;
      superProperties := map[];
      sent := [];
    }

    /**
     * `MixpanelState::new`: load the store, gather and register the initial
     * properties, start with an empty overlay.  A started state keeps the
     * loaded distinct id, or takes the `$device:` id of the machine; the
     * machine id is registered as `$device_id` when none is visible, and the
     * operating system and web view are registered over whatever was loaded.
     */
    static method New(mp: Client.Mixpanel, file: Option<PersistentData>, now: nat, machineId: Result<string, string>,
                      platform: string, webviewVersion: Option<string>)
      returns (r: Result<MixpanelState, PluginError>)
      ensures r.Ok? ==> fresh(r.value) && fresh(r.value.store)
      ensures r.Ok? ==> r.value.mp == mp && r.value.superProperties == map[] && r.value.sent == []
      ensures r.Ok? ==> r.value.store.distinctId.Some?
      ensures r.Ok? ==> "$os" in r.value.store.properties && r.value.store.properties["$os"] == Str(OsName(platform))
      ensures r.Err? ==> machineId.Err?
      ensures var loaded := LoadRecord(file, now);
        r.Err? <==> machineId.Err? && (loaded.distinctId.None? || VisibleValue(loaded, "$device_id", now).None?)
      ensures r.Err? ==> r.error == MixpanelError("Failed to get machine ID: " + machineId.error)
      ensures r.Ok? ==> var loaded := LoadRecord(file, now); var s := r.value.store;
        && (loaded.distinctId.Some? ==> s.distinctId == loaded.distinctId)
        && (loaded.distinctId.None? ==>
              machineId.Ok? && s.distinctId == Some(DevicePrefix + machineId.value) &&
              "distinct_id" in s.properties && s.properties["distinct_id"] == Str(DevicePrefix + machineId.value))
        && (VisibleValue(loaded, "$device_id", now).None? ==>
              machineId.Ok? && "$device_id" in s.properties && s.properties["$device_id"] == Str(machineId.value))
        && "$browser" in s.properties && s.properties["$browser"] == Str("Tauri WebView")
        && (webviewVersion.Some? ==> "$browser_version" in s.properties && s.properties["$browser_version"] == Str(webviewVersion.value))
        && (forall k :: k in loaded.properties && k !in GatheredKeys(loaded, now, webviewVersion) ==>
              k in s.properties && s.properties[k] == loaded.properties[k])
        && s.alias == loaded.alias && s.eventTimers == loaded.eventTimers
        && s.storeExpiresAt == NextExpiry(loaded.storeExpiresAt, None, now)
      ensures !machineId.Err? ==> r.Ok?
    {
      var store := new Store.Load(file, now);
      var initial := GatherInitialProperties(store, machineId, platform, webviewVersion, now);
      if initial.Err? {
        return Err(initial.error);
      }
      if initial.value != map[] {
        store.Register(initial.value, None, now);
      }
      var state := new MixpanelState.Make(mp, store);
      r := Ok(state);
    }

    /** Hand a people decision to the client when it is a request, and report the outcome. */
    method Dispatch(d: Decision, deliver: Request -> Client.Outcome) returns (r: Result<(), PluginError>)
      modifies this
      ensures sent == old(sent) + (if d.Send? then [d.request] else [])
      ensures superProperties == old(superProperties)
      ensures r == Settle(d, if d.Send? then deliver(d.request) else Ok(()))
    {
      if d.Send? {
        sent := sent + [d.request];
        r := Settle(d, deliver(d.request));
      } else {
        r := Settle(d, Ok(()));
      }
    }

    /** `register`: persisted with the expiry rule, or merged into the overlay, as the options say. */
    method Register(properties: Json, options: Option<Json>, now: nat) returns (r: Result<(), PluginError>)
      modifies this, store
      ensures var o := ParseOptions(options); var p := ParseProps(properties);
        && (p.Err? ==> r == Err(p.error) && store.Data() == old(store.Data()) && store.saves == old(store.saves) &&
                       superProperties == old(superProperties))
        && (p.Ok? && o.persistent ==> r.Ok? && store.Data() == RegisterRecord(old(store.Data()), p.value, o.days, now) &&
                                      store.saves == old(store.saves) + [store.Data()] &&
                                      superProperties == old(superProperties))
        && (p.Ok? && !o.persistent ==> r.Ok? && store.Data() == old(store.Data()) && store.saves == old(store.saves) &&
                                       superProperties == old(superProperties) + p.value)
      ensures sent == old(sent)
    {
      var o := ParseOptions(options);
      var p := ParseProps(properties);
      if p.Err? {
        return Err(p.error);
      }
      if o.persistent {
        store.Register(p.value, o.days, now);
      } else {
        superProperties := superProperties + p.value;
      }
      r := Ok(());
    }

    /** `register_once`: the same write-once rule on the store or on the overlay. */
    method RegisterOnce(properties: Json, default: Option<Json>, options: Option<Json>, now: nat)
      returns (r: Result<(), PluginError>)
      modifies this, store
      ensures var o := ParseOptions(options); var p := ParseProps(properties);
        && (p.Err? ==> r == Err(p.error) && store.Data() == old(store.Data()) && store.saves == old(store.saves) &&
                       superProperties == old(superProperties))
        && (p.Ok? && o.persistent ==>
              && r.Ok?
              && store.Data() == RegisterOnceRecord(old(store.Data()), p.value, default, o.days, now)
              && store.saves == (if OnceChanges(old(store.properties), p.value, default)
                                 then old(store.saves) + [store.Data()] else old(store.saves))
              && superProperties == old(superProperties))
        && (p.Ok? && !o.persistent ==> r.Ok? && store.Data() == old(store.Data()) && store.saves == old(store.saves) &&
                                       superProperties == OnceMerge(old(superProperties), p.value, default))
      ensures store.saves == old(store.saves) || store.saves == old(store.saves) + [store.Data()]
      ensures sent == old(sent)
    {
      var o := ParseOptions(options);
      var p := ParseProps(properties);
      if p.Err? {
        return Err(p.error);
      }
      if o.persistent {
        store.RegisterOnce(p.value, default, o.days, now);
      } else {
        var merged, _ := OnceInto(superProperties, p.value, default);
        superProperties := merged;
      }
      r := Ok(());
    }

    /** `unregister`: drop the key from the store or from the overlay. */
    method Unregister(name: string, options: Option<Json>)
      modifies this, store
      ensures ParseOptions(options).persistent ==>
        store.Data() == old(store.Data()).(properties := old(store.properties) - {name}) &&
        superProperties == old(superProperties)
      ensures !ParseOptions(options).persistent ==>
        store.Data() == old(store.Data()) && store.saves == old(store.saves) &&
        superProperties == old(superProperties) - {name}
      ensures store.saves == old(store.saves) || store.saves == old(store.saves) + [store.Data()]
      ensures sent == old(sent)
    {
      if ParseOptions(options).persistent {
        store.Unregister(name);
      } else {
        superProperties := superProperties - {name};
      }
    }

    /** `get_property`: the persisted value first, the overlay's otherwise. */
    method GetProperty(name: string, now: nat) returns (r: Option<Json>)
      ensures r == PropertyOf(store.Data(), superProperties, name, now)
    {
      r := store.GetProperty(name, now);
      if r.None? {
        r := Lookup(superProperties, name);
      }
    }

    /** Write one group key with the parsed options: persisted with the expiry rule, or into the overlay. */
    method StoreGroup(groupKey: string, v: Json, o: RegisterOptions, now: nat)
      modifies this, store
      ensures o.persistent ==>
        store.Data() == RegisterRecord(old(store.Data()), map[groupKey := v], o.days, now) &&
        superProperties == old(superProperties)
      ensures !o.persistent ==> store.Data() == old(store.Data()) && superProperties == old(superProperties)[groupKey := v]
      ensures sent == old(sent)
    {
      if o.persistent {
        store.Register(map[groupKey := v], o.days, now);
      } else {
        superProperties := superProperties[groupKey := v];
      }
    }

    /** Remove one group key with the parsed options: from the persisted record, or from the overlay. */
    method DropGroup(groupKey: string, o: RegisterOptions)
      modifies this, store
      ensures o.persistent ==>
        store.Data() == old(store.Data()).(properties := old(store.properties) - {groupKey}) &&
        superProperties == old(superProperties)
      ensures !o.persistent ==> store.Data() == old(store.Data()) && superProperties == old(superProperties) - {groupKey}
      ensures sent == old(sent)
    {
      if o.persistent {
        store.Unregister(groupKey);
      } else {
        superProperties := superProperties - {groupKey};
      }
    }

    /**
     * `set_group`: store the list under the key, persisted or in the
     * overlay, and `$set` it on the profile of an identified user.
     */
    method SetGroup(groupKey: string, groupIds: Json, options: Option<Json>, now: nat, deliver: Request -> Client.Outcome)
      returns (r: Result<(), PluginError>)
      modifies this, store
      ensures GroupIdList(groupIds).Err? ==>
        r == Err(GroupIdList(groupIds).error) && store.Data() == old(store.Data()) &&
        superProperties == old(superProperties) && sent == old(sent)
      ensures GroupIdList(groupIds).Ok? ==>
        var list := Arr(GroupIdList(groupIds).value);
        var o := ParseOptions(options);
        var sends := IdentifyCalled(old(store.distinctId)) && !IsReserved(groupKey);
        && (o.persistent ==> store.Data() == RegisterRecord(old(store.Data()), map[groupKey := list], o.days, now) &&
                             superProperties == old(superProperties))
        && (!o.persistent ==> store.Data() == old(store.Data()) && superProperties == old(superProperties)[groupKey := list])
        && (!sends ==> sent == old(sent) && r.Ok?)
        && (sends ==>
              var request := ProfileRequests.SetRequest(mp.token, old(store.distinctId).value, map[groupKey := list], None, false);
              && sent == old(sent) + [request]
              && (r.Ok? <==> deliver(request).Ok?)
              && (r.Err? ==> r == Err(MixpanelClient(deliver(request).error))))
    {
      var list := GroupIdList(groupIds);
      if list.Err? {
        return Err(list.error);
      }
      StoreGroup(groupKey, Arr(list.value), ParseOptions(options), now);
      var d := GroupSet(mp.token, store.distinctId, groupKey, list.value);
      r := Dispatch(d, deliver);
    }

    /**
     * `add_group`: append the id to the persisted list unless it is already
     * there (written back persisted or into the overlay), then `$union` it
     * on the profile of an identified user either way.
     */
    method AddGroup(groupKey: string, groupId: Json, options: Option<Json>, now: nat, deliver: Request -> Client.Outcome)
      returns (r: Result<(), PluginError>)
      modifies this, store
      ensures !IsGroupId(groupId) ==>
        r == Err(MixpanelError("group_id must be a single string/number")) && store.Data() == old(store.Data()) &&
        superProperties == old(superProperties) && sent == old(sent)
      ensures IsGroupId(groupId) ==>
        var current := CurrentGroups(VisibleValue(old(store.Data()), groupKey, now));
        var list := Arr(current + [groupId]);
        var o := ParseOptions(options);
        var sends := IdentifyCalled(old(store.distinctId)) && !IsReserved(groupKey);
        && (groupId in current ==> store.Data() == old(store.Data()) && superProperties == old(superProperties))
        && (groupId !in current && o.persistent ==>
              store.Data() == RegisterRecord(old(store.Data()), map[groupKey := list], o.days, now) &&
              superProperties == old(superProperties))
        && (groupId !in current && !o.persistent ==>
              store.Data() == old(store.Data()) && superProperties == old(superProperties)[groupKey := list])
        && (!sends ==> sent == old(sent) && r.Ok?)
        && (sends ==>
              var request := ProfileRequests.UnionRequest(mp.token, old(store.distinctId).value, map[groupKey := Arr([groupId])], None);
              && sent == old(sent) + [request]
              && (r.Ok? <==> deliver(request).Ok?)
              && (r.Err? ==> r == Err(MixpanelClient(deliver(request).error))))
    {
      if !IsGroupId(groupId) {
        return Err(MixpanelError("group_id must be a single string/number"));
      }
      var stored := store.GetProperty(groupKey, now);
      var current := CurrentGroups(stored);
      if groupId !in current {
        current := current + [groupId];
        StoreGroup(groupKey, Arr(current), ParseOptions(options), now);
      }
      var d := GroupUnion(mp.token, store.distinctId, groupKey, groupId);
      r := Dispatch(d, deliver);
    }

    /**
     * `remove_group`: drop every occurrence of the id from the persisted
     * list; if it was there, write the rest back (or remove the key when
     * nothing is left) and `$remove` the id from the profile of an
     * identified user.
     */
    method RemoveGroup(groupKey: string, groupId: Json, options: Option<Json>, now: nat, deliver: Request -> Client.Outcome)
      returns (r: Result<(), PluginError>)
      modifies this, store
      ensures !IsGroupId(groupId) ==>
        r == Err(MixpanelError("group_id must be a single string/number")) && store.Data() == old(store.Data()) &&
        superProperties == old(superProperties) && sent == old(sent)
      ensures IsGroupId(groupId) ==>
        var stored := VisibleValue(old(store.Data()), groupKey, now);
        var listed := stored.Some? && stored.value.Arr? && groupId in stored.value.items;
        var rest := Without(CurrentGroups(stored), groupId);
        var o := ParseOptions(options);
        var sends := listed && IdentifyCalled(old(store.distinctId)) && !IsReserved(groupKey);
        && (!listed ==> store.Data() == old(store.Data()) && superProperties == old(superProperties))
        && (listed && rest == [] && o.persistent ==>
              store.Data() == old(store.Data()).(properties := old(store.properties) - {groupKey}) &&
              superProperties == old(superProperties))
        && (listed && rest == [] && !o.persistent ==>
              store.Data() == old(store.Data()) && superProperties == old(superProperties) - {groupKey})
        && (listed && rest != [] && o.persistent ==>
              store.Data() == RegisterRecord(old(store.Data()), map[groupKey := Arr(rest)], o.days, now) &&
              superProperties == old(superProperties))
        && (listed && rest != [] && !o.persistent ==>
              store.Data() == old(store.Data()) && superProperties == old(superProperties)[groupKey := Arr(rest)])
        && (!sends ==> sent == old(sent) && r.Ok?)
        && (sends ==>
              var request := ProfileRequests.RemoveRequest(mp.token, old(store.distinctId).value, map[groupKey := groupId], None);
              && sent == old(sent) + [request]
              && (r.Ok? <==> deliver(request).Ok?)
              && (r.Err? ==> r == Err(MixpanelClient(deliver(request).error))))
    {
      if !IsGroupId(groupId) {
        return Err(MixpanelError("group_id must be a single string/number"));
      }
      var updated := false;
      var stored := store.GetProperty(groupKey, now);
      if stored.Some? && stored.value.Arr? {
        var current := stored.value.items;
        var rest := Without(current, groupId);
        if |rest| < |current| {
          updated := true;
          if rest == [] {
            DropGroup(groupKey, ParseOptions(options));
          } else {
            StoreGroup(groupKey, Arr(rest), ParseOptions(options), now);
          }
        }
      }
      r := Ok(());
      if updated {
        var d := GroupRemove(mp.token, store.distinctId, groupKey, groupId);
        r := Dispatch(d, deliver);
      }
    }

    /** Hand a track request to the client; a failure is reported against the event's name. */
    method SendEvent(event: Request, name: string, deliver: Request -> Client.Outcome) returns (r: Result<(), PluginError>)
      modifies this
      ensures sent == old(sent) + [event] && superProperties == old(superProperties)
      ensures r.Ok? <==> deliver(event).Ok?
      ensures r.Err? ==> r == Err(TrackFailed(name, deliver(event).error))
    {
      sent := sent + [event];
      var outcome := deliver(event);
      r := if outcome.Ok? then Ok(()) else Err(TrackFailed(name, outcome.error));
    }

    /** The persisted steps of `identify`, once it has decided to switch to `newId`. */
    method SwitchIdentity(newId: string, aliasValue: Option<Json>, now: nat)
      modifies store
      ensures store.Data() == IdentifyRecord(old(store.Data()), aliasValue, newId, now)
      ensures |store.saves| > 0 && store.saves[|store.saves| - 1] == store.Data()
    {
      var oldId := store.distinctId;
      ghost var d0 := store.Data();
      if aliasValue.Some? && aliasValue.value.Str? && aliasValue.value.s != newId {
        store.Unregister("$alias");
      }
      store.Register(map["$user_id" := Str(newId)], None, now);
      ghost var p2 := store.properties;
      LookupMerge(store.properties, map["$user_id" := Str(newId)], "$device_id");
      assert VisibleValue(store.Data(), "$device_id", now) == VisibleValue(d0, "$device_id", now);
      var device := store.GetProperty("$device_id", now);
      if device.None? && oldId.Some? {
        store.RegisterOnce(DeviceOnce(oldId.value), None, None, now);
        OnceMergeWithoutDefault(p2, DeviceOnce(oldId.value));
      }
      store.SetDistinctId(Some(newId));
      store.Register(map["distinct_id" := Str(newId)], None, now);
    }

    /**
     * `identify`: switch to a new distinct id.  Nothing happens when the id
     * is already current or carries the anonymous `$device:` prefix;
     * otherwise a different persisted alias is dropped, `$user_id` and
     * `distinct_id` are persisted, the previous id is kept once as
     * `$device_id` when the store has none, and an `$identify` event links
     * the previous id to the new one.
     */
    method Identify(newId: string, now: nat, deliver: Request -> Client.Outcome) returns (r: Result<(), PluginError>)
      modifies this, store
      ensures old(store.distinctId) == Some(newId) || StartsWith(newId, DevicePrefix) ==>
        r.Ok? && store.Data() == old(store.Data()) && store.saves == old(store.saves) &&
        superProperties == old(superProperties) && sent == old(sent)
      ensures old(store.distinctId) != Some(newId) && !StartsWith(newId, DevicePrefix) ==>
        var oldId := old(store.distinctId);
        && store.Data() == IdentifyRecord(old(store.Data()), PropertyOf(old(store.Data()), old(superProperties), "$alias", now), newId, now)
        && superProperties == old(superProperties)
        && sent == old(sent) + (if oldId.Some? then [IdentifyEvent(mp, newId, oldId.value)] else [])
        && (r.Ok? <==> oldId.None? || deliver(IdentifyEvent(mp, newId, oldId.value)).Ok?)
        && (r.Err? ==> r == Err(TrackFailed("$identify", deliver(IdentifyEvent(mp, newId, oldId.value)).error)))
        && |store.saves| > 0 && store.saves[|store.saves| - 1] == store.Data()
    {
      var oldId := store.distinctId;
      var aliasValue := GetProperty("$alias", now);
      if oldId == Some(newId) || StartsWith(newId, DevicePrefix) {
        return Ok(());
      }
      SwitchIdentity(newId, aliasValue, now);
      r := Ok(());
      if oldId.Some? {
        r := SendEvent(IdentifyEvent(mp, newId, oldId.value), "$identify", deliver);
      }
    }

    /**
     * `alias`: link a new id to the original one (the current distinct id
     * unless given).  An alias equal to the original only identifies; an
     * alias the store already knows as the People distinct id is refused;
     * otherwise `$alias` is persisted, a `$create_alias` event is sent and,
     * once it is delivered, the alias is identified.
     */
    method Alias(alias: string, original: Option<string>, now: nat, deliver: Request -> Client.Outcome)
      returns (r: Result<(), PluginError>)
      modifies this, store
      ensures original.None? && old(store.distinctId).None? ==>
        r == Err(MixpanelError("Cannot alias without an existing distinct_id.")) &&
        store.Data() == old(store.Data()) && store.saves == old(store.saves) &&
        superProperties == old(superProperties) && sent == old(sent)
      ensures original.Some? || old(store.distinctId).Some? ==>
        var orig := if original.Some? then original.value else old(store.distinctId).value;
        var event := CreateAliasEvent(mp, alias, orig);
        var known := VisibleValue(old(store.Data()), "$people_distinct_id", now) == Some(Str(alias));
        && (alias == orig ==> forall i :: |old(sent)| <= i < |sent| ==> !IsEventNamed(sent[i], "$create_alias"))
        && (alias == orig && !StartsWith(alias, DevicePrefix) ==> store.distinctId == Some(alias))
        && (alias == orig ==>
              sent == old(sent) + IdentifyEvents(mp, old(store.distinctId), alias) &&
              r == IdentifyOutcome(mp, old(store.distinctId), alias, deliver))
        && (alias != orig && known ==>
              r == Err(MixpanelError("Attempting to create alias for existing People user - aborting.")) &&
              store.Data() == old(store.Data()) && store.saves == old(store.saves) &&
              superProperties == old(superProperties) && sent == old(sent))
        && (alias != orig && !known ==>
              && |sent| > |old(sent)| && sent[..|old(sent)| + 1] == old(sent) + [event]
              && (deliver(event).Err? ==>
                    && r == Err(TrackFailed("$create_alias", deliver(event).error))
                    && sent == old(sent) + [event]
                    && store.Data() == RegisterRecord(old(store.Data()), map["$alias" := Str(alias)], None, now))
              && (deliver(event).Ok? && !StartsWith(alias, DevicePrefix) ==> store.distinctId == Some(alias))
              && (deliver(event).Ok? ==>
                    && sent == old(sent) + [event] + IdentifyEvents(mp, old(store.distinctId), alias)
                    && r == IdentifyOutcome(mp, old(store.distinctId), alias, deliver)))
    {
      var orig: string;
      if original.Some? {
        orig := original.value;
      } else if store.distinctId.Some? {
        orig := store.distinctId.value;
      } else {
        return Err(MixpanelError("Cannot alias without an existing distinct_id."));
      }
      if alias == orig {
        ghost var oldId := store.distinctId;
        r := SwitchTo(alias, now, deliver);
        if oldId.Some? {
          IdentifyIsNotCreateAlias(mp, alias, oldId.value);
        }
      } else {
        r := CreateAlias(alias, orig, now, deliver);
      }
    }

    /** `alias` once the alias differs from the original id. */
    method CreateAlias(alias: string, orig: string, now: nat, deliver: Request -> Client.Outcome)
      returns (r: Result<(), PluginError>)
      modifies this, store
      ensures var event := CreateAliasEvent(mp, alias, orig);
        var known := VisibleValue(old(store.Data()), "$people_distinct_id", now) == Some(Str(alias));
        && (known ==>
              r == Err(MixpanelError("Attempting to create alias for existing People user - aborting.")) &&
              store.Data() == old(store.Data()) && store.saves == old(store.saves) &&
              superProperties == old(superProperties) && sent == old(sent))
        && (!known ==>
              && |sent| > |old(sent)| && sent[..|old(sent)| + 1] == old(sent) + [event]
              && (deliver(event).Err? ==>
                    && r == Err(TrackFailed("$create_alias", deliver(event).error))
                    && sent == old(sent) + [event]
                    && store.Data() == RegisterRecord(old(store.Data()), map["$alias" := Str(alias)], None, now))
              && (deliver(event).Ok? && !StartsWith(alias, DevicePrefix) ==> store.distinctId == Some(alias))
              && (deliver(event).Ok? ==>
                    && sent == old(sent) + [event] + IdentifyEvents(mp, old(store.distinctId), alias)
                    && r == IdentifyOutcome(mp, old(store.distinctId), alias, deliver)))
    {
      var known := store.GetProperty("$people_distinct_id", now);
      if known.Some? && known.value.Str? && known.value.s == alias {
        return Err(MixpanelError("Attempting to create alias for existing People user - aborting."));
      }
      store.Register(map["$alias" := Str(alias)], None, now);
      r := SendEvent(CreateAliasEvent(mp, alias, orig), "$create_alias", deliver);
      if r.Err? {
        return;
      }
      ghost var afterEvent := sent;
      r := SwitchTo(alias, now, deliver);
      assert sent[..|afterEvent|] == afterEvent;
    }

    /** `identify` as `alias` relies on it: the `$identify` event it sends, if any, and its outcome; the id is switched. */
    method SwitchTo(newId: string, now: nat, deliver: Request -> Client.Outcome) returns (r: Result<(), PluginError>)
      modifies this, store
      ensures sent == old(sent) + IdentifyEvents(mp, old(store.distinctId), newId)
      ensures r == IdentifyOutcome(mp, old(store.distinctId), newId, deliver)
      ensures !StartsWith(newId, DevicePrefix) ==> store.distinctId == Some(newId)
    {
      r := Identify(newId, now, deliver);
      if r.Ok? {
        assert r.value == ();
      }
    }

    /** `time_event`: start (or restart) the event's timer at `now`. */
    method TimeEvent(event: string, now: nat)
      modifies store
      ensures store.Data() == old(store.Data()).(eventTimers := old(store.eventTimers)[event := now])
      ensures store.saves == old(store.saves) + [store.Data()]
    {
      store.SetEventTimer(event, now);
    }

    /**
     * `track`: refuse without a distinct id, compose the properties, always
     * consume the event's timer, and hand the event to the client.
     */
    method Track(event: string, properties: Option<Json>, now: nat, deliver: Request -> Client.Outcome)
      returns (r: Result<(), PluginError>)
      modifies this, store
      ensures old(store.distinctId).None? ==>
        r == Err(MixpanelError("Distinct ID not set. Call identify or alias first.")) &&
        store.Data() == old(store.Data()) && sent == old(sent)
      ensures var input := ParseProps(if properties.Some? then properties.value else Null);
        old(store.distinctId).Some? && input.Err? ==>
        r == Err(input.error) && store.Data() == old(store.Data()) && sent == old(sent)
      ensures var input := ParseProps(if properties.Some? then properties.value else Null);
        old(store.distinctId).Some? && input.Ok? ==>
          var request := Client.TrackRequest(mp, event, Some(ComposeEvent(
            Visible(old(store.Data()), now), old(superProperties), input.value,
            Lookup(old(store.eventTimers), event), old(store.distinctId).value, now)));
          && sent == old(sent) + [request]
          && store.Data() == old(store.Data()).(eventTimers := old(store.eventTimers) - {event})
          && (r.Ok? <==> deliver(request).Ok?)
          && (r.Err? ==> r == Err(TrackFailed(event, deliver(request).error)))
      ensures superProperties == old(superProperties)
      ensures store.saves == old(store.saves) || store.saves == old(store.saves) + [store.Data()]
    {
      if store.distinctId.None? {
        return Err(MixpanelError("Distinct ID not set. Call identify or alias first."));
      }
      var distinctId := store.distinctId.value;
      var input := ParseProps(if properties.Some? then properties.value else Null);
      if input.Err? {
        return Err(input.error);
      }
      var persisted := store.GetProperties(now);
      var start := store.RemoveEventTimer(event);
      var finalProps := ComposeProperties(persisted, superProperties, input.value, start, distinctId, now);
      r := SendEvent(Client.TrackRequest(mp, event, Some(finalProps)), event, deliver);
    }

    /**
     * `reset` as the source writes it: clear the store and the overlay, then
     * register a new device id as the `distinct_id` property and `$device_id`
     * without making it the distinct id.
     */
    method ResetAsWritten(machineId: Result<string, string>, now: nat) returns (r: Result<(), PluginError>)
      modifies this, store
      ensures superProperties == map[] && sent == old(sent)
      ensures machineId.Err? ==>
        r == Err(MixpanelError("Failed to get machine ID: " + machineId.error)) && store.Data() == Empty
      ensures machineId.Ok? ==> r.Ok? && store.Data() == ResetRecordAsWritten(machineId.value)
      ensures |store.saves| > 0 && store.saves[|store.saves| - 1] == store.Data()
    {
      store.ClearAllData();
      superProperties := map[];
      if machineId.Err? {
        return Err(MixpanelError("Failed to get machine ID: " + machineId.error));
      }
      var id := machineId.value;
      var props := map["distinct_id" := Str(DevicePrefix + id), "$device_id" := Str(id)];
      OnceMergeWithoutDefault(map[], props);
      assert OnceWrites(map[], "$device_id", None);
      r := RegisterOnce(Obj(props), None, None, now);
    }

    /** `reset` as intended: as written, and the new device id also becomes the distinct id. */
    method Reset(machineId: Result<string, string>, now: nat) returns (r: Result<(), PluginError>)
      modifies this, store
      ensures superProperties == map[] && sent == old(sent)
      ensures machineId.Err? ==>
        r == Err(MixpanelError("Failed to get machine ID: " + machineId.error)) && store.Data() == Empty
      ensures machineId.Ok? ==> r.Ok? && store.Data() == ResetRecord(machineId.value)
      ensures |store.saves| > 0 && store.saves[|store.saves| - 1] == store.Data()
    {
      r := ResetAsWritten(machineId, now);
      if r.Ok? {
        store.SetDistinctId(Some(DevicePrefix + machineId.value));
      }
    }

    /** Tracking right after `reset` as written fails: there is no distinct id left. */
    method TrackAfterResetAsWritten(machineId: string, event: string, now: nat, deliver: Request -> Client.Outcome)
      returns (r: Result<(), PluginError>)
      modifies this, store
      ensures r == Err(MixpanelError("Distinct ID not set. Call identify or alias first."))
      ensures sent == old(sent)
    {
      var _ := ResetAsWritten(Ok(machineId), now);
      r := Track(event, None, now, deliver);
    }

    /** Tracking right after the corrected `reset` sends the event under the new device id. */
    method TrackAfterReset(machineId: string, event: string, now: nat, deliver: Request -> Client.Outcome)
      returns (r: Result<(), PluginError>)
      modifies this, store
      ensures |sent| == |old(sent)| + 1 && IsEventNamed(sent[|sent| - 1], event)
      ensures Carries(sent[|sent| - 1], "distinct_id", Str(DevicePrefix + machineId))
    {
      var _ := Reset(Ok(machineId), now);
      r := Track(event, None, now, deliver);
    }
  }
}
