/**
 * Helpers shared by the profile and group request builders: the
 * millisecond-to-second timestamp rule, the optional modifiers that a
 * profile or group update may carry, and the request a builder hands to
 * the client's `send_request`.
 */
module Utils {
  import opened Common
  import opened Json

  /** The largest value `ensure_timestamp` still reads as seconds. */
  const MaxSeconds: nat := 9999999999

  /** `ensure_timestamp`: a value with more than ten digits is read as milliseconds. */
  function EnsureTimestamp(time: Option<nat>): (r: Option<nat>)
    ensures r.Some? <==> time.Some?
    ensures time.Some? && time.value <= MaxSeconds ==> r == time
    ensures time.Some? && time.value > MaxSeconds ==> r.value * 1000 <= time.value < r.value * 1000 + 1000
  {
    match time
    case None => None
    case Some(t) => if t > MaxSeconds then Some(t / 1000) else Some(t)
  }

  /**
   * Any millisecond reading of an instant whose second count has eight to
   * ten digits is brought back to that second, and a second count stays put,
   * so the rule is idempotent on both.
   */
  lemma EnsureTimestampMillis(seconds: nat, millis: nat)
    requires 10000000 <= seconds <= MaxSeconds && millis < 1000
    ensures EnsureTimestamp(Some(seconds * 1000 + millis)) == Some(seconds)
    ensures EnsureTimestamp(EnsureTimestamp(Some(seconds * 1000 + millis))) == Some(seconds)
  {
    assert seconds * 1000 + millis >= 10000000000;
    assert (seconds * 1000 + millis) / 1000 == seconds;
  }

  /** Optional per-call overrides merged into a profile or group update. */
  datatype Modifiers = Modifiers(
    ip: Option<string>,
    ignoreTime: Option<bool>,
    time: Option<nat>,
    ignoreAlias: Option<bool>,
    latitude: Option<real>,
    longitude: Option<real>)

  const ModifierKeys: set<string> :=
    {"$ip", "$ignore_time", "$time", "$ignore_alias", "$latitude", "$longitude"}

  /** Insert `v` under `key` when it is present. */
  function PutIf(data: map<string, Json>, key: string, v: Option<Json>): map<string, Json> {
    if v.Some? then data[key := v.value] else data
  }

  function OptStr(o: Option<string>): Option<Json> {
    if o.Some? then Some(Str(o.value)) else None
  }

  function OptBool(o: Option<bool>): Option<Json> {
    if o.Some? then Some(Bool(o.value)) else None
  }

  function OptInt(o: Option<nat>): Option<Json> {
    if o.Some? then Some(Int(o.value)) else None
  }

  /** True when `r` holds `v` under `key` if `v` is present, and otherwise agrees with `data` there. */
  predicate Placed(r: map<string, Json>, data: map<string, Json>, key: string, v: Option<Json>) {
    if v.Some? then key in r && r[key] == v.value else Lookup(r, key) == Lookup(data, key)
  }

  /**
   * `merge_modifiers` on the object `data`: each present modifier is written
   * under its `$` key, latitude and longitude only as a pair, and nothing
   * else is touched.
   */
  function MergeModifiers(data: map<string, Json>, modifiers: Option<Modifiers>): (r: map<string, Json>)
    ensures modifiers.None? ==> r == data
    ensures forall k :: k in data && k !in ModifierKeys ==> k in r && r[k] == data[k]
    ensures forall k :: k in r ==> k in data || k in ModifierKeys
    ensures modifiers.Some? ==>
      var m := modifiers.value;
      && Placed(r, data, "$ip", OptStr(m.ip))
      && Placed(r, data, "$ignore_time", OptBool(m.ignoreTime))
      && Placed(r, data, "$time", OptInt(m.time))
      && Placed(r, data, "$ignore_alias", OptBool(m.ignoreAlias))
      && (m.latitude.Some? && m.longitude.Some? ==>
            && "$latitude" in r && r["$latitude"] == Float(m.latitude.value)
            && "$longitude" in r && r["$longitude"] == Float(m.longitude.value))
      && (m.latitude.None? || m.longitude.None? ==>
            Lookup(r, "$latitude") == Lookup(data, "$latitude") &&
            Lookup(r, "$longitude") == Lookup(data, "$longitude"))
  {
    match modifiers
    case None => data
    case Some(m) =>
      var d1 := PutIf(data, "$ip", OptStr(m.ip));
      var d2 := PutIf(d1, "$ignore_time", OptBool(m.ignoreTime));
      var d3 := PutIf(d2, "$time", OptInt(m.time));
      var d4 := PutIf(d3, "$ignore_alias", OptBool(m.ignoreAlias));
      if m.latitude.Some? && m.longitude.Some? then
        d4["$latitude" := Float(m.latitude.value)]["$longitude" := Float(m.longitude.value)]
      else d4
  }

  /** The eight profile and group actions; a well-formed update carries exactly one. */
  const ActionKeys: set<string> :=
    {"$set", "$set_once", "$add", "$append", "$remove", "$union", "$unset", "$delete"}

  /** No action key is a modifier key, so merging modifiers never adds or replaces an action. */
  lemma ActionsAreNotModifiers()
    ensures ActionKeys !! ModifierKeys
  {
    assert forall a :: a in ActionKeys ==> a[1] in {'s', 'a', 'r', 'u', 'd'};
    assert forall m :: m in ModifierKeys ==> m[1] in {'i', 't', 'l'};
  }

  /** The keys that address a profile or a group are neither actions nor modifiers. */
  lemma AddressKeysAreFree()
    ensures "$token" !in ActionKeys && "$token" !in ModifierKeys
    ensures "$distinct_id" !in ActionKeys && "$distinct_id" !in ModifierKeys
    ensures "$group_key" !in ActionKeys && "$group_key" !in ModifierKeys
    ensures "$group_id" !in ActionKeys && "$group_id" !in ModifierKeys
  {
  }

  /** `data` carries `action` and no other action key. */
  predicate OneAction(data: map<string, Json>, action: string) {
    action in data && forall a :: a in ActionKeys && a != action ==> a !in data
  }

  /** The call a builder hands to the client's `send_request`. */
  datatype Request = Request(verb: string, endpoint: string, data: Json)
}
