/**
 * The `/groups` updates of the HTTP client: the same shape as a profile
 * update, but the object is addressed by a group key and a group id.
 */
module GroupRequests {
  import opened Common
  import opened Json
  import opened Utils

  const Groups: string := "/groups"

  /** The token and group address every group update starts from. */
  function Base(token: string, groupKey: string, groupId: string): map<string, Json> {
    map["$token" := Str(token), "$group_key" := Str(groupKey), "$group_id" := Str(groupId)]
  }

  /** A request is a group update for the given group carrying exactly `action`, whose value is `v`. */
  predicate GroupUpdate(r: Request, token: string, groupKey: string, groupId: string, action: string, v: Json) {
    && r.verb == "GET" && r.endpoint == Groups && r.data.Obj?
    && "$token" in r.data.fields && r.data.fields["$token"] == Str(token)
    && "$group_key" in r.data.fields && r.data.fields["$group_key"] == Str(groupKey)
    && "$group_id" in r.data.fields && r.data.fields["$group_id"] == Str(groupId)
    && OneAction(r.data.fields, action) && r.data.fields[action] == v
  }

  /** Shared step of every builder: base plus one action, the modifiers only when given, sent to `/groups`. */
  function Build(token: string, groupKey: string, groupId: string, action: string, v: Json, modifiers: Option<Modifiers>): (r: Request)
    requires action in ActionKeys
    ensures GroupUpdate(r, token, groupKey, groupId, action, v)
    ensures modifiers.None? ==> r.data == Obj(Base(token, groupKey, groupId)[action := v])
    ensures modifiers.Some? ==> r.data == Obj(MergeModifiers(Base(token, groupKey, groupId)[action := v], modifiers))
  {
    var data := Base(token, groupKey, groupId)[action := v];
    var sent := if modifiers.Some? then MergeModifiers(data, modifiers) else data;
    ActionsAreNotModifiers();
    AddressKeysAreFree();
    assert forall a :: a in ActionKeys && a != action ==> a !in data;
    assert sent["$token"] == data["$token"] && sent["$group_key"] == data["$group_key"];
    assert sent["$group_id"] == data["$group_id"] && sent[action] == v;
    Request("GET", Groups, Obj(sent))
  }

  /** `_set`: `$set_once` when asked for, `$set` otherwise. */
  function SetRequest(token: string, groupKey: string, groupId: string, props: map<string, Json>, modifiers: Option<Modifiers>, setOnce: bool): (r: Request)
    ensures GroupUpdate(r, token, groupKey, groupId, if setOnce then "$set_once" else "$set", Obj(props))
  {
    Build(token, groupKey, groupId, if setOnce then "$set_once" else "$set", Obj(props), modifiers)
  }

  /** `delete_group`: `$delete` with the empty string. */
  function DeleteGroupRequest(token: string, groupKey: string, groupId: string, modifiers: Option<Modifiers>): (r: Request)
    ensures GroupUpdate(r, token, groupKey, groupId, "$delete", Str(""))
  {
    Build(token, groupKey, groupId, "$delete", Str(""), modifiers)
  }

  /** `remove`: the supplied map under `$remove`. */
  function RemoveRequest(token: string, groupKey: string, groupId: string, props: map<string, Json>, modifiers: Option<Modifiers>): (r: Request)
    ensures GroupUpdate(r, token, groupKey, groupId, "$remove", Obj(props))
  {
    Build(token, groupKey, groupId, "$remove", Obj(props), modifiers)
  }

  /** `union`: the supplied map under `$union`. */
  function UnionRequest(token: string, groupKey: string, groupId: string, props: map<string, Json>, modifiers: Option<Modifiers>): (r: Request)
    ensures GroupUpdate(r, token, groupKey, groupId, "$union", Obj(props))
  {
    Build(token, groupKey, groupId, "$union", Obj(props), modifiers)
  }

  /** `unset`: the list of property names under `$unset`. */
  function UnsetRequest(token: string, groupKey: string, groupId: string, keys: seq<string>, modifiers: Option<Modifiers>): (r: Request)
    ensures GroupUpdate(r, token, groupKey, groupId, "$unset", Arr(seq(|keys|, i requires 0 <= i < |keys| => Str(keys[i]))))
  {
    Build(token, groupKey, groupId, "$unset", Arr(seq(|keys|, i requires 0 <= i < |keys| => Str(keys[i]))), modifiers)
  }
}
