/**
 * The persisted record of the Tauri plugin: one identity, one alias slot,
 * open event timers, registered super properties and an optional expiry
 * instant, all held by `Store` and changed in place.  Every write hands a
 * snapshot of the whole record to a background writer; the model keeps
 * those snapshots, in order, in the ghost sequence `saves` instead of
 * writing a file.  Loading is a function of the parsed file and the clock.
 */
module Persistence {
  import opened Common
  import opened Json

  /** Milliseconds in a day: `days * 24 * 60 * 60` seconds, as milliseconds. */
  const DayMs: nat := 24 * 60 * 60 * 1000

  datatype RegisterOptions = RegisterOptions(persistent: bool, days: Option<nat>)

  const DefaultOptions: RegisterOptions := RegisterOptions(true, None)

  /**
   * `RegisterOptions::parse_options`: only an object is read; a `persistent`
   * that is not a boolean counts as true, a `days` that is not an unsigned
   * 64-bit integer counts as absent, and every other key is ignored.
   */
  function ParseOptions(options: Option<Json>): (o: RegisterOptions)
    ensures !(options.Some? && options.value.Obj?) ==> o == DefaultOptions
    ensures !o.persistent <==>
      options.Some? && options.value.Obj? && Lookup(options.value.fields, "persistent") == Some(Bool(false))
    ensures o.days.Some? <==>
      options.Some? && options.value.Obj? && "days" in options.value.fields &&
      AsU64(options.value.fields["days"]).Some?
    ensures o.days.Some? ==> options.value.fields["days"] == Int(o.days.value)
  {
    match options
    case Some(Obj(m)) =>
      var persistent := if "persistent" in m && m["persistent"].Bool? then m["persistent"].b else true;
      var days := if "days" in m then AsU64(m["days"]) else None;
      RegisterOptions(persistent, days)
    case _ => DefaultOptions
  }

  /** Keys other than `persistent` and `days` never change the parsed options. */
  lemma ParseOptionsIgnoresOtherKeys(m: map<string, Json>, key: string, v: Json)
    requires key != "persistent" && key != "days"
    ensures ParseOptions(Some(Obj(m[key := v]))) == ParseOptions(Some(Obj(m)))
    ensures ParseOptions(Some(Obj(m - {key}))) == ParseOptions(Some(Obj(m)))
  {
    assert Lookup(m[key := v], "persistent") == Lookup(m, "persistent");
    assert Lookup(m - {key}, "persistent") == Lookup(m, "persistent");
  }

  datatype PersistentData = PersistentData(
    distinctId: Option<string>,
    alias: Option<string>,
    eventTimers: map<string, nat>,
    properties: map<string, Json>,
    storeExpiresAt: Option<nat>)

  /** `PersistentData::default()`. */
  const Empty: PersistentData := PersistentData(None, None, map[], map[], None)

  /** The record counts as empty from the instant `store_expires_at` onwards. */
  predicate Expired(expiresAt: Option<nat>, now: nat) {
    expiresAt.Some? && now >= expiresAt.value
  }

  /**
   * `Persistence::new` over `load_sync`: `file` is the parsed content of the
   * backing file, None when it is missing, unreadable or unparseable.  A
   * record whose expiry has been reached loads as the default.
   */
  function LoadRecord(file: Option<PersistentData>, now: nat): (d: PersistentData)
    ensures file.None? ==> d == Empty
    ensures file.Some? && Expired(file.value.storeExpiresAt, now) ==> d == Empty
    ensures file.Some? && !Expired(file.value.storeExpiresAt, now) ==> d == file.value
    ensures !Expired(d.storeExpiresAt, now)
  {
    match file
    case None => Empty
    case Some(data) => if Expired(data.storeExpiresAt, now) then Empty else data
  }

  function Max(a: nat, b: nat): nat {
    if a < b then b else a
  }

  /**
   * The expiry written by `register` (and by `register_once` when it changed
   * something): `days = 0` removes the expiry, no `days` keeps it, and
   * `days > 0` sets it to `now + days` unless a current expiry that has not
   * been reached is later still.
   */
  function NextExpiry(current: Option<nat>, days: Option<nat>, now: nat): (e: Option<nat>)
    ensures days.None? ==> e == current
    ensures days == Some(0) ==> e.None?
    ensures days.Some? && days.value > 0 && (current.None? || Expired(current, now)) ==>
      e == Some(now + days.value * DayMs)
    ensures days.Some? && days.value > 0 && current.Some? && !Expired(current, now) ==>
      e == Some(Max(current.value, now + days.value * DayMs))
    ensures days.Some? ==> !Expired(e, now)
  {
    match days
    case None => current
    case Some(d) =>
      if d > 0 then
        var expiresAt := now + d * DayMs;
        if current.None? || expiresAt > current.value || now >= current.value then Some(expiresAt)
        else current
      else None
  }

  /** `get_properties`: the registered properties, or nothing once expired. */
  function Visible(d: PersistentData, now: nat): map<string, Json> {
    if Expired(d.storeExpiresAt, now) then map[] else d.properties
  }

  /** `get_property`: one registered property, or None once expired. */
  function VisibleValue(d: PersistentData, key: string, now: nat): Option<Json> {
    if Expired(d.storeExpiresAt, now) then None else Lookup(d.properties, key)
  }

  /** The record after `register(props, days)` at `now`: `extend`, then the expiry rule. */
  function RegisterRecord(d: PersistentData, props: map<string, Json>, days: Option<nat>, now: nat): PersistentData {
    d.(properties := d.properties + props, storeExpiresAt := NextExpiry(d.storeExpiresAt, days, now))
  }

  /** Whether `register_once` writes `key`: it is absent, or it holds the supplied default. */
  predicate OnceWrites(existing: map<string, Json>, key: string, default: Option<Json>) {
    key !in existing || (default.Some? && existing[key] == default.value)
  }

  /** Whether `register_once` sets its `changed` flag. */
  predicate OnceChanges(existing: map<string, Json>, props: map<string, Json>, default: Option<Json>) {
    exists k :: k in props && OnceWrites(existing, k, default)
  }

  /** The properties after `register_once(props, default)`. */
  function OnceMerge(existing: map<string, Json>, props: map<string, Json>, default: Option<Json>): map<string, Json> {
    map k | k in existing.Keys + props.Keys ::
      if k in props && OnceWrites(existing, k, default) then props[k] else existing[k]
  }

  /** The record after `register_once`; the expiry moves only when a key was written. */
  function RegisterOnceRecord(d: PersistentData, props: map<string, Json>, default: Option<Json>, days: Option<nat>, now: nat): PersistentData {
    d.(properties := OnceMerge(d.properties, props, default),
       storeExpiresAt :=
         if OnceChanges(d.properties, props, default) then NextExpiry(d.storeExpiresAt, days, now)
         else d.storeExpiresAt)
  }

  /**
   * The `register_once` loop over the supplied properties, shared by the
   * persisted record and the in-memory overlay: each key is looked up in the
   * map being built, and `changed` records that at least one key was written.
   */
  method OnceInto(existing: map<string, Json>, props: map<string, Json>, default: Option<Json>)
    returns (m: map<string, Json>, changed: bool)
    ensures m == OnceMerge(existing, props, default)
    ensures changed == OnceChanges(existing, props, default)
  {
    m, changed := existing, false;
    var todo := props.Keys;
    while todo != {}
      invariant todo <= props.Keys
      invariant m == OnceMerge(existing, props - todo, default)
      invariant changed <==> exists k :: k in props && k !in todo && OnceWrites(existing, k, default)
      decreases todo
    {
      var k :| k in todo;
      assert k in m ==> k in existing && m[k] == existing[k];
      if k !in m {
        m := m[k := props[k]];
        changed := true;
      } else if default.Some? && m[k] == default.value {
        m := m[k := props[k]];
        changed := true;
      }
      todo := todo - {k};
    }
    assert props - todo == props;
  }

  /**
   * A registered key reads back at once, and also from a reload of the saved
   * snapshot, whenever the write left the record live (a `days` was given, or
   * the record had not expired); every other key keeps its value.
   */
  lemma RegisterThenRead(d: PersistentData, props: map<string, Json>, days: Option<nat>, now: nat, key: string)
    requires days.Some? || !Expired(d.storeExpiresAt, now)
    ensures key in props ==>
      && VisibleValue(RegisterRecord(d, props, days, now), key, now) == Some(props[key])
      && VisibleValue(LoadRecord(Some(RegisterRecord(d, props, days, now)), now), key, now) == Some(props[key])
    ensures key !in props ==>
      Lookup(RegisterRecord(d, props, days, now).properties, key) == Lookup(d.properties, key)
  {
    var r := RegisterRecord(d, props, days, now);
    assert !Expired(r.storeExpiresAt, now);
  }

  /** Without a default, `register_once` is a union in which the existing values win. */
  lemma OnceMergeWithoutDefault(existing: map<string, Json>, props: map<string, Json>)
    ensures OnceMerge(existing, props, None) == props + existing
  {
  }

  /** `register_once` never replaces a value that differs from the default, and always fills an absent key. */
  lemma OnceMergeKeepsOrFills(existing: map<string, Json>, props: map<string, Json>, default: Option<Json>, key: string)
    ensures key in props && key !in existing ==> OnceMerge(existing, props, default)[key] == props[key]
    ensures key in existing && (default.None? || existing[key] != default.value) ==>
      key in OnceMerge(existing, props, default) && OnceMerge(existing, props, default)[key] == existing[key]
    ensures key in existing && default == Some(existing[key]) && key in props ==>
      OnceMerge(existing, props, default)[key] == props[key]
    ensures key !in existing && key !in props ==> key !in OnceMerge(existing, props, default)
  {
  }

  /** When no key qualifies, `register_once` leaves the whole record as it was. */
  lemma OnceUnchangedRecord(d: PersistentData, props: map<string, Json>, default: Option<Json>, days: Option<nat>, now: nat)
    requires !OnceChanges(d.properties, props, default)
    ensures RegisterOnceRecord(d, props, default, days, now) == d
  {
    var m := OnceMerge(d.properties, props, default);
    assert forall k :: k in props ==> k in d.properties by {
      forall k | k in props ensures k in d.properties {
        assert !OnceWrites(d.properties, k, default);
      }
    }
    assert m.Keys == d.properties.Keys;
    forall k | k in m ensures m[k] == d.properties[k] {
      assert !(k in props && OnceWrites(d.properties, k, default));
    }
  }

  /** Without a default, a second identical `register_once` changes nothing. */
  lemma OnceIdempotentWithoutDefault(existing: map<string, Json>, props: map<string, Json>)
    ensures !OnceChanges(OnceMerge(existing, props, None), props, None)
    ensures OnceMerge(OnceMerge(existing, props, None), props, None) == OnceMerge(existing, props, None)
  {
    OnceMergeWithoutDefault(existing, props);
    OnceMergeWithoutDefault(props + existing, props);
  }

  /** After `unregister(key)` the key reads as absent, also from a reload; other keys are untouched. */
  lemma UnregisterThenRead(d: PersistentData, key: string, other: string, now: nat)
    ensures VisibleValue(d.(properties := d.properties - {key}), key, now).None?
    ensures VisibleValue(LoadRecord(Some(d.(properties := d.properties - {key})), now), key, now).None?
    ensures other != key ==>
      VisibleValue(d.(properties := d.properties - {key}), other, now) == VisibleValue(d, other, now)
  {
  }

  /**
   * The persisted store.  The fields are `PersistentData`'s; `saves` lists the
   * snapshots that `trigger_save` handed to the background writer.
   */
  class Store {
    var distinctId: Option<string>
    var alias: Option<string>
    var eventTimers: map<string, nat>
    var properties: map<string, Json>
    var storeExpiresAt: Option<nat>
    ghost var saves: seq<PersistentData>

    /** The record as a value. */
    function Data(): PersistentData
      reads this
    {
      PersistentData(distinctId, alias, eventTimers, properties, storeExpiresAt)
    }

    /** `Persistence::new`: load the record, or start from the default. */
    constructor Load(file: Option<PersistentData>, now: nat)
      ensures Data() == LoadRecord(file, now)
      ensures saves == []
    {
      var d := LoadRecord(file, now);
      distinctId, alias, eventTimers := d.distinctId, d.alias, d.eventTimers;
      properties, storeExpiresAt := d.properties, d.storeExpiresAt;
      saves := [];
    }

    /** `register`: overwrite or add every supplied key, update the expiry, save. */
    method Register(props: map<string, Json>, days: Option<nat>, now: nat)
      modifies this
      ensures Data() == RegisterRecord(old(Data()), props, days, now)
      ensures saves == old(saves) + [Data()]
    {
      properties := properties + props;
      if days.Some? {
        var d := days.value;
        if d > 0 {
          var expiresAt := now + d * DayMs;
          if storeExpiresAt.None? || expiresAt > storeExpiresAt.value || now >= storeExpiresAt.value {
            storeExpiresAt := Some(expiresAt);
          }
        } else {
          storeExpiresAt := None;
        }
      }
      saves := saves + [Data()];
    }

    /** `register_once`: write absent keys and keys holding `default`; save only on a write. */
    method RegisterOnce(props: map<string, Json>, default: Option<Json>, days: Option<nat>, now: nat)
      modifies this
      ensures Data() == RegisterOnceRecord(old(Data()), props, default, days, now)
      ensures saves == if OnceChanges(old(properties), props, default) then old(saves) + [Data()] else old(saves)
    {
      var merged, changed := OnceInto(properties, props, default);
      properties := merged;
      if changed && days.Some? {
        var d := days.value;
        if d > 0 {
          var expiresAt := now + d * DayMs;
          if storeExpiresAt.None? || expiresAt > storeExpiresAt.value || now >= storeExpiresAt.value {
            storeExpiresAt := Some(expiresAt);
          }
        } else {
          storeExpiresAt := None;
        }
      }
      if changed {
        saves := saves + [Data()];
      }
    }

    /** `unregister`: drop one key; save only if it was there. */
    method Unregister(key: string)
      modifies this
      ensures Data() == old(Data()).(properties := old(properties) - {key})
      ensures saves == if key in old(properties) then old(saves) + [Data()] else old(saves)
    {
      var changed := key in properties;
      properties := properties - {key};
      if changed {
        saves := saves + [Data()];
      }
    }

    /** `get_properties` at `now`. */
    method GetProperties(now: nat) returns (r: map<string, Json>)
      ensures Expired(storeExpiresAt, now) ==> r == map[]
      ensures !Expired(storeExpiresAt, now) ==> r == properties
    {
      if storeExpiresAt.Some? && now >= storeExpiresAt.value {
        return map[];
      }
      r := properties;
    }

    /** `get_property` at `now`. */
    method GetProperty(key: string, now: nat) returns (r: Option<Json>)
      ensures r.Some? <==> !Expired(storeExpiresAt, now) && key in properties
      ensures r.Some? ==> r.value == properties[key]
    {
      if storeExpiresAt.Some? && now >= storeExpiresAt.value {
        return None;
      }
      r := Lookup(properties, key);
    }

    /** `set_distinct_id`: replace the identity and save. */
    method SetDistinctId(id: Option<string>)
      modifies this
      ensures Data() == old(Data()).(distinctId := id)
      ensures saves == old(saves) + [Data()]
    {
      distinctId := id;
      saves := saves + [Data()];
    }

    /** `set_event_timer`: one open timer per event name; a later start replaces it. */
    method SetEventTimer(event: string, timestamp: nat)
      modifies this
      ensures Data() == old(Data()).(eventTimers := old(eventTimers)[event := timestamp])
      ensures saves == old(saves) + [Data()]
    {
      eventTimers := eventTimers[event := timestamp];
      saves := saves + [Data()];
    }

    /** `remove_event_timer`: hand back the start instant and close the timer. */
    method RemoveEventTimer(event: string) returns (r: Option<nat>)
      modifies this
      ensures r == Lookup(old(eventTimers), event)
      ensures Data() == old(Data()).(eventTimers := old(eventTimers) - {event})
      ensures saves == if r.Some? then old(saves) + [Data()] else old(saves)
    {
      r := Lookup(eventTimers, event);
      eventTimers := eventTimers - {event};
      if r.Some? {
        saves := saves + [Data()];
      }
    }

    /** `clear_all_data`: the whole record back to the default, saved. */
    method ClearAllData()
      modifies this
      ensures Data() == Empty
      ensures saves == old(saves) + [Empty]
    {
      distinctId, alias, eventTimers, properties, storeExpiresAt := None, None, map[], map[], None;
      saves := saves + [Data()];
    }
  }
}
