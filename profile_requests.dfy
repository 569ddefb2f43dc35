/**
 * The `/engage` profile updates of the HTTP client: each builds one object
 * holding the project token, the profile's distinct id and exactly one
 * action key, overlays the modifiers when some are given, and is sent as a
 * GET to `/engage`.
 */
module ProfileRequests {
  import opened Common
  import opened Json
  import opened Utils

  const Engage: string := "/engage"

  /** The token and identity every profile update starts from. */
  function Base(token: string, distinctId: string): map<string, Json> {
    map["$token" := Str(token), "$distinct_id" := Str(distinctId)]
  }

  /** A request is a profile update for `token` and `distinctId` carrying exactly `action`, whose value is `v`. */
  predicate ProfileUpdate(r: Request, token: string, distinctId: string, action: string, v: Json) {
    && r.verb == "GET" && r.endpoint == Engage && r.data.Obj?
    && "$token" in r.data.fields && r.data.fields["$token"] == Str(token)
    && "$distinct_id" in r.data.fields && r.data.fields["$distinct_id"] == Str(distinctId)
    && OneAction(r.data.fields, action) && r.data.fields[action] == v
  }

  /** Overlay the modifiers only when some are given, then address the request to `/engage`. */
  function Send(data: map<string, Json>, modifiers: Option<Modifiers>): Request {
    Request("GET", Engage, Obj(if modifiers.Some? then MergeModifiers(data, modifiers) else data))
  }

  /** Shared step of every builder: base plus one action, then the modifiers. */
  function Build(token: string, distinctId: string, action: string, v: Json, modifiers: Option<Modifiers>): (r: Request)
    requires action in ActionKeys
    ensures ProfileUpdate(r, token, distinctId, action, v)
    ensures modifiers.None? ==> r.data == Obj(Base(token, distinctId)[action := v])
    ensures modifiers.Some? ==> r.data == Obj(MergeModifiers(Base(token, distinctId)[action := v], modifiers))
  {
    var data := Base(token, distinctId)[action := v];
    ActionsAreNotModifiers();
    AddressKeysAreFree();
    assert forall a :: a in ActionKeys && a != action ==> a !in data;
    Send(data, modifiers)
  }

  /** `_set`: `$set_once` when asked for, `$set` otherwise. */
  function SetRequest(token: string, distinctId: string, props: map<string, Json>, modifiers: Option<Modifiers>, setOnce: bool): (r: Request)
    ensures ProfileUpdate(r, token, distinctId, if setOnce then "$set_once" else "$set", Obj(props))
  {
    Build(token, distinctId, if setOnce then "$set_once" else "$set", Obj(props), modifiers)
  }

  /** `increment`: the signed amounts under `$add`. */
  function IncrementRequest(token: string, distinctId: string, amounts: map<string, int>, modifiers: Option<Modifiers>): (r: Request)
    ensures ProfileUpdate(r, token, distinctId, "$add", Obj(map k | k in amounts :: Int(amounts[k])))
  {
    Build(token, distinctId, "$add", Obj(map k | k in amounts :: Int(amounts[k])), modifiers)
  }

  /** `append`: the values to append under `$append`. */
  function AppendRequest(token: string, distinctId: string, props: map<string, Json>, modifiers: Option<Modifiers>): (r: Request)
    ensures ProfileUpdate(r, token, distinctId, "$append", Obj(props))
  {
    Build(token, distinctId, "$append", Obj(props), modifiers)
  }

  /** `track_charge`: the caller's properties plus `$amount`, appended to `$transactions`. */
  function TrackChargeRequest(token: string, distinctId: string, amount: real, props: Option<map<string, Json>>, modifiers: Option<Modifiers>): (r: Request)
    ensures var charge := (if props.Some? then props.value else map[])["$amount" := Float(amount)];
      ProfileUpdate(r, token, distinctId, "$append", Obj(map["$transactions" := Obj(charge)]))
    ensures props.Some? ==> forall k :: k in props.value && k != "$amount" ==>
      r.data.fields["$append"].fields["$transactions"].fields[k] == props.value[k]
  {
    var charge := (if props.Some? then props.value else map[])["$amount" := Float(amount)];
    Build(token, distinctId, "$append", Obj(map["$transactions" := Obj(charge)]), modifiers)
  }

  /** `clear_charges`: `$transactions` set to the empty list. */
  function ClearChargesRequest(token: string, distinctId: string, modifiers: Option<Modifiers>): (r: Request)
    ensures ProfileUpdate(r, token, distinctId, "$set", Obj(map["$transactions" := Arr([])]))
  {
    Build(token, distinctId, "$set", Obj(map["$transactions" := Arr([])]), modifiers)
  }

  /** `delete_user`: `$delete` with the empty string. */
  function DeleteUserRequest(token: string, distinctId: string, modifiers: Option<Modifiers>): (r: Request)
    ensures ProfileUpdate(r, token, distinctId, "$delete", Str(""))
  {
    Build(token, distinctId, "$delete", Str(""), modifiers)
  }

  /** `remove`: the values to remove under `$remove`. */
  function RemoveRequest(token: string, distinctId: string, props: map<string, Json>, modifiers: Option<Modifiers>): (r: Request)
    ensures ProfileUpdate(r, token, distinctId, "$remove", Obj(props))
  {
    Build(token, distinctId, "$remove", Obj(props), modifiers)
  }

  /** `union`: the lists to merge under `$union`. */
  function UnionRequest(token: string, distinctId: string, props: map<string, Json>, modifiers: Option<Modifiers>): (r: Request)
    ensures ProfileUpdate(r, token, distinctId, "$union", Obj(props))
  {
    Build(token, distinctId, "$union", Obj(props), modifiers)
  }

  /** `unset`: the list of property names under `$unset`, in the given order. */
  function UnsetRequest(token: string, distinctId: string, keys: seq<string>, modifiers: Option<Modifiers>): (r: Request)
    ensures ProfileUpdate(r, token, distinctId, "$unset", Arr(seq(|keys|, i requires 0 <= i < |keys| => Str(keys[i]))))
  {
    Build(token, distinctId, "$unset", Arr(seq(|keys|, i requires 0 <= i < |keys| => Str(keys[i]))), modifiers)
  }
}
