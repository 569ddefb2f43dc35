/**
 * The people facade of the Tauri plugin: it normalises the arguments the
 * web view passes (drops reserved keys, expands the one-key shorthand,
 * checks numbers, wraps union values in lists), refuses to send anything
 * until a real user id was identified, and hands the result to the HTTP
 * client's profile builders.  Each operation returns a `Decision`: send
 * nothing, fail, or send one request.
 */
module PluginPeople {
  import opened Common
  import opened Json
  import opened Utils
  import ProfileRequests
  import Client

  /**
   * The plugin's error: its own message, a failure of the HTTP client, or
   * the message reporting that a track call of the client failed (kept as
   * the event's name and the client's error rather than as text).
   */
  datatype PluginError =
    | MixpanelError(message: string)
    | MixpanelClient(cause: Client.ApiError)
    | TrackFailed(event: string, cause: Client.ApiError)

  datatype Decision = Skip | Fail(error: PluginError) | Send(request: Request)

  datatype Action = SetAction | SetOnceAction | UnsetAction | AddAction | AppendAction | RemoveAction | UnionAction | DeleteAction

  /** The action key each action is sent under. */
  function ActionKey(a: Action): (key: string)
    ensures key in ActionKeys
  {
    match a
    case SetAction => "$set"
    case SetOnceAction => "$set_once"
    case UnsetAction => "$unset"
    case AddAction => "$add"
    case AppendAction => "$append"
    case RemoveAction => "$remove"
    case UnionAction => "$union"
    case DeleteAction => "$delete"
  }

  /** The identity keys a caller may never write through the people API. */
  const ReservedKeys: set<string> := {"$distinct_id", "$token", "$device_id", "$user_id", "$had_persisted_distinct_id"}

  predicate IsReserved(key: string) {
    key in ReservedKeys
  }

  /** A user was identified: there is a distinct id and it is not an anonymous device id. */
  predicate IdentifyCalled(distinctId: Option<string>) {
    distinctId.Some? && !StartsWith(distinctId.value, DevicePrefix)
  }

  function Unreserved(m: map<string, Json>): (r: map<string, Json>)
    ensures r.Keys == m.Keys - ReservedKeys
    ensures forall k :: k in r ==> r[k] == m[k]
  {
    map k | k in m && !IsReserved(k) :: m[k]
  }

  /** `parse_and_filter_props`: an object loses exactly its reserved keys, null is empty, anything else is refused. */
  function ParseAndFilterProps(value: Json, actionName: string): (r: Result<map<string, Json>, PluginError>)
    ensures value.Obj? ==> r.Ok? && r.value.Keys == value.fields.Keys - ReservedKeys
    ensures value.Obj? ==> forall k :: k in r.value ==> r.value[k] == value.fields[k]
    ensures value.Null? ==> r == Ok(map[])
    ensures !value.Obj? && !value.Null? ==>
      r == Err(MixpanelError("Properties for people." + actionName + " must be an object or null"))
  {
    match value
    case Obj(fields) => Ok(Unreserved(fields))
    case Null => Ok(map[])
    case _ => Err(MixpanelError("Properties for people." + actionName + " must be an object or null"))
  }

  function OrNull(v: Option<Json>): Json {
    if v.Some? then v.value else Null
  }

  /**
   * The arguments of `set`, `set_once`, `append` and `remove`: an object
   * whose reserved keys are dropped, or one key and its value (null when
   * missing), where a reserved key stands for nothing to send.
   */
  function KeyedProps(prop: Json, value: Option<Json>, op: string, arg: string): (r: Result<map<string, Json>, PluginError>)
    ensures r.Ok? ==> r.value.Keys !! ReservedKeys
    ensures prop.Obj? ==> r == Ok(Unreserved(prop.fields))
    ensures prop.Str? && IsReserved(prop.s) ==> r == Ok(map[])
    ensures prop.Str? && !IsReserved(prop.s) ==> r == Ok(map[prop.s := OrNull(value)])
    ensures !prop.Obj? && !prop.Str? ==>
      r == Err(MixpanelError("Invalid '" + arg + "' argument for people." + op + ". Must be String or Object."))
  {
    if prop.Obj? then ParseAndFilterProps(prop, op)
    else if prop.Str? then (if IsReserved(prop.s) then Ok(map[]) else Ok(map[prop.s := OrNull(value)]))
    else Err(MixpanelError("Invalid '" + arg + "' argument for people." + op + ". Must be String or Object."))
  }

  /** The actions whose value is the property object itself. */
  predicate CarriesProps(a: Action) {
    a.SetAction? || a.SetOnceAction? || a.AppendAction? || a.RemoveAction? || a.UnionAction?
  }

  /** The client builder each property-carrying action goes to. */
  function PropsRequest(token: string, distinctId: string, a: Action, props: map<string, Json>): (r: Request)
    requires CarriesProps(a)
    ensures ProfileRequests.ProfileUpdate(r, token, distinctId, ActionKey(a), Obj(props))
  {
    match a
    case SetAction => ProfileRequests.SetRequest(token, distinctId, props, None, false)
    case SetOnceAction => ProfileRequests.SetRequest(token, distinctId, props, None, true)
    case AppendAction => ProfileRequests.AppendRequest(token, distinctId, props, None)
    case RemoveAction => ProfileRequests.RemoveRequest(token, distinctId, props, None)
    case UnionAction => ProfileRequests.UnionRequest(token, distinctId, props, None)
  }

  function InvalidIncrement(key: string): PluginError {
    MixpanelError("Invalid increment value for key '" + key + "'")
  }

  /** `keys` lists every element of `s` exactly once, in some order. */
  predicate Enumerates(keys: seq<string>, s: set<string>) {
    && |keys| == |s|
    && (forall i :: 0 <= i < |keys| ==> keys[i] in s)
    && (forall k :: k in s ==> k in keys)
    && (forall i, j :: 0 <= i < j < |keys| ==> keys[i] != keys[j])
  }

  /** The keys of a map, collected in the map's (unspecified) iteration order. */
  method CollectKeys(m: map<string, Json>) returns (keys: seq<string>)
    ensures Enumerates(keys, m.Keys)
  {
    keys := [];
    var todo := m.Keys;
    while todo != {}
      invariant todo <= m.Keys
      invariant forall i :: 0 <= i < |keys| ==> keys[i] in m.Keys - todo
      invariant forall k :: k in m.Keys - todo ==> k in keys
      invariant forall i, j :: 0 <= i < j < |keys| ==> keys[i] != keys[j]
      invariant |keys| == |m.Keys - todo|
      decreases todo
    {
      var k :| k in todo;
      assert m.Keys - (todo - {k}) == (m.Keys - todo) + {k};
      keys := keys + [k];
      todo := todo - {k};
    }
  }

  /** The values of `props` that are signed 64-bit integers, as integers. */
  function I64Amounts(props: map<string, Json>): map<string, int> {
    map k | k in props && AsI64(props[k]).Some? :: AsI64(props[k]).value
  }

  /**
   * The `$add` conversion of `send_request`: every value must be a signed
   * 64-bit integer, otherwise the call fails naming one offending key.
   */
  method Amounts(props: map<string, Json>) returns (r: Result<map<string, int>, PluginError>)
    ensures r.Ok? <==> forall k :: k in props ==> AsI64(props[k]).Some?
    ensures r.Ok? ==> r.value.Keys == props.Keys && forall k :: k in props ==> props[k] == Int(r.value[k])
    ensures r.Ok? ==> r.value == I64Amounts(props)
    ensures r.Err? ==> exists k :: k in props && AsI64(props[k]).None? && r.error == InvalidIncrement(k)
  {
    var amounts: map<string, int> := map[];
    var todo := props.Keys;
    while todo != {}
      invariant todo <= props.Keys
      invariant amounts.Keys == props.Keys - todo
      invariant forall k :: k in amounts ==> AsI64(props[k]) == Some(amounts[k])
      decreases todo
    {
      var k :| k in todo;
      var n := AsI64(props[k]);
      if n.None? {
        return Err(InvalidIncrement(k));
      }
      amounts := amounts[k := n.value];
      todo := todo - {k};
    }
    r := Ok(amounts);
  }

  /**
   * `send_request`: nothing is sent before a user is identified; otherwise
   * the action goes to its client builder, `$unset` with the keys of the
   * map, `$add` with its values as 64-bit integers, `$delete` with nothing.
   */
  method SendRequest(token: string, distinctId: Option<string>, action: Action, props: map<string, Json>)
    returns (d: Decision)
    ensures !IdentifyCalled(distinctId) ==> d == Skip
    ensures IdentifyCalled(distinctId) && !action.AddAction? ==> d.Send?
    ensures IdentifyCalled(distinctId) ==> !d.Skip?
    ensures IdentifyCalled(distinctId) && action.AddAction? ==>
      (d.Fail? <==> exists k :: k in props && AsI64(props[k]).None?)
    ensures d.Fail? ==> exists k :: k in props && AsI64(props[k]).None? && d.error == InvalidIncrement(k)
    ensures d.Send? && CarriesProps(action) ==> d.request == PropsRequest(token, distinctId.value, action, props)
    ensures d.Send? && action.AddAction? ==>
      ProfileRequests.ProfileUpdate(d.request, token, distinctId.value, "$add", Obj(props)) &&
      d.request == ProfileRequests.IncrementRequest(token, distinctId.value, I64Amounts(props), None)
    ensures d.Send? && action.UnsetAction? ==> exists keys ::
      Enumerates(keys, props.Keys) && d.request == ProfileRequests.UnsetRequest(token, distinctId.value, keys, None)
    ensures d.Send? && action.DeleteAction? ==>
      d.request == ProfileRequests.DeleteUserRequest(token, distinctId.value, None)
  {
    if !IdentifyCalled(distinctId) {
      return Skip;
    }
    var id := distinctId.value;
    match action {
      case UnsetAction =>
        var keys := CollectKeys(props);
        d := Send(ProfileRequests.UnsetRequest(token, id, keys, None));
      case AddAction =>
        var amounts := Amounts(props);
        if amounts.Err? {
          return Fail(amounts.error);
        }
        assert (map k | k in amounts.value :: Int(amounts.value[k])) == props;
        d := Send(ProfileRequests.IncrementRequest(token, id, amounts.value, None));
      case DeleteAction =>
        d := Send(ProfileRequests.DeleteUserRequest(token, id, None));
      case _ =>
        d := Send(PropsRequest(token, id, action, props));
    }
  }

  /** Send the property object of an action, unless it is empty or no user was identified. */
  method SendProps(token: string, distinctId: Option<string>, action: Action, props: map<string, Json>)
    returns (d: Decision)
    requires CarriesProps(action)
    ensures props == map[] || !IdentifyCalled(distinctId) ==> d == Skip
    ensures props != map[] && IdentifyCalled(distinctId) ==> d == Send(PropsRequest(token, distinctId.value, action, props))
  {
    if props == map[] {
      return Skip;
    }
    d := SendRequest(token, distinctId, action, props);
  }

  /**
   * The common shape of `set`, `set_once`, `append` and `remove`: normalise
   * the arguments, send nothing when no key is left, otherwise send.
   */
  method SendKeyed(token: string, distinctId: Option<string>, prop: Json, value: Option<Json>, action: Action, op: string, arg: string)
    returns (d: Decision)
    requires CarriesProps(action)
    ensures var p := KeyedProps(prop, value, op, arg);
      && (p.Err? ==> d == Fail(p.error))
      && (p.Ok? && (p.value == map[] || !IdentifyCalled(distinctId)) ==> d == Skip)
      && (p.Ok? && p.value != map[] && IdentifyCalled(distinctId) ==>
            d == Send(PropsRequest(token, distinctId.value, action, p.value)))
  {
    var p := KeyedProps(prop, value, op, arg);
    if p.Err? {
      return Fail(p.error);
    }
    d := SendProps(token, distinctId, action, p.value);
  }

  /** `set`. */
  method Set(token: string, distinctId: Option<string>, prop: Json, to: Option<Json>) returns (d: Decision)
    ensures var p := KeyedProps(prop, to, "set", "prop");
      && (p.Err? ==> d == Fail(p.error))
      && (p.Ok? && (p.value == map[] || !IdentifyCalled(distinctId)) ==> d == Skip)
      && (p.Ok? && p.value != map[] && IdentifyCalled(distinctId) ==>
            d == Send(ProfileRequests.SetRequest(token, distinctId.value, p.value, None, false)))
  {
    d := SendKeyed(token, distinctId, prop, to, SetAction, "set", "prop");
  }

  /** `set_once`. */
  method SetOnce(token: string, distinctId: Option<string>, prop: Json, to: Option<Json>) returns (d: Decision)
    ensures var p := KeyedProps(prop, to, "set_once", "prop");
      && (p.Err? ==> d == Fail(p.error))
      && (p.Ok? && (p.value == map[] || !IdentifyCalled(distinctId)) ==> d == Skip)
      && (p.Ok? && p.value != map[] && IdentifyCalled(distinctId) ==>
            d == Send(ProfileRequests.SetRequest(token, distinctId.value, p.value, None, true)))
  {
    d := SendKeyed(token, distinctId, prop, to, SetOnceAction, "set_once", "prop");
  }

  /** `append`. */
  method Append(token: string, distinctId: Option<string>, listName: Json, value: Option<Json>) returns (d: Decision)
    ensures var p := KeyedProps(listName, value, "append", "list_name");
      && (p.Err? ==> d == Fail(p.error))
      && (p.Ok? && (p.value == map[] || !IdentifyCalled(distinctId)) ==> d == Skip)
      && (p.Ok? && p.value != map[] && IdentifyCalled(distinctId) ==>
            d == Send(ProfileRequests.AppendRequest(token, distinctId.value, p.value, None)))
  {
    d := SendKeyed(token, distinctId, listName, value, AppendAction, "append", "list_name");
  }

  /** `remove`. */
  method Remove(token: string, distinctId: Option<string>, listName: Json, value: Option<Json>) returns (d: Decision)
    ensures var p := KeyedProps(listName, value, "remove", "list_name");
      && (p.Err? ==> d == Fail(p.error))
      && (p.Ok? && (p.value == map[] || !IdentifyCalled(distinctId)) ==> d == Skip)
      && (p.Ok? && p.value != map[] && IdentifyCalled(distinctId) ==>
            d == Send(ProfileRequests.RemoveRequest(token, distinctId.value, p.value, None)))
  {
    d := SendKeyed(token, distinctId, listName, value, RemoveAction, "remove", "list_name");
  }

  /** The object form of `increment`: reserved keys are skipped, and any other non-number fails the call. */
  method IncrementProps(m: map<string, Json>) returns (r: Result<map<string, Json>, PluginError>)
    ensures r.Ok? <==> NumericWhereUnreserved(m)
    ensures r.Ok? ==> r.value == Unreserved(m)
    ensures r.Err? ==> exists k :: k in m && !IsReserved(k) && !IsNumber(m[k]) && r.error == InvalidIncrement(k)
  {
    var filtered: map<string, Json> := map[];
    var todo := m.Keys;
    while todo != {}
      invariant todo <= m.Keys
      invariant filtered == Unreserved(m - todo)
      invariant forall k :: k in m && k !in todo && !IsReserved(k) ==> IsNumber(m[k])
      decreases todo
    {
      var k :| k in todo;
      todo := todo - {k};
      if IsReserved(k) {
        continue;
      }
      if !IsNumber(m[k]) {
        return Err(InvalidIncrement(k));
      }
      filtered := filtered[k := m[k]];
    }
    assert m - todo == m;
    r := Ok(filtered);
  }

  /** Every value of `m` under a non-reserved key is a number. */
  predicate NumericWhereUnreserved(m: map<string, Json>) {
    forall k :: k in m && !IsReserved(k) ==> IsNumber(m[k])
  }

  /**
   * The amounts `increment` hands on, or None when it refuses its
   * arguments: an object loses its reserved keys and must hold only numbers
   * otherwise; one key takes `by`, 1 when missing, which must be a number;
   * a reserved key leaves nothing to send.
   */
  function IncrementArgsOf(prop: Json, amountArg: Option<Json>): (r: Option<map<string, Json>>)
    ensures r.Some? ==> r.value.Keys !! ReservedKeys && forall k :: k in r.value ==> IsNumber(r.value[k])
    ensures prop.Obj? ==> (r.Some? <==> NumericWhereUnreserved(prop.fields))
    ensures prop.Str? && !IsReserved(prop.s) ==>
      (r.Some? <==> amountArg.None? || IsNumber(amountArg.value))
    ensures prop.Str? && !IsReserved(prop.s) && r.Some? ==>
      r.value == map[prop.s := if amountArg.Some? then amountArg.value else Int(1)]
    ensures !prop.Obj? && !prop.Str? ==> r.None?
  {
    if prop.Obj? then
      (if NumericWhereUnreserved(prop.fields)
       then Some(Unreserved(prop.fields)) else None)
    else if prop.Str? then
      (if IsReserved(prop.s) then Some(map[])
       else
         var amount := if amountArg.Some? then amountArg.value else Int(1);
         if IsNumber(amount) then Some(map[prop.s := amount]) else None)
    else None
  }

  /** The error `increment` refuses its arguments with: the offending key, the `by` argument, or the `prop` argument. */
  predicate IncrementError(prop: Json, amountArg: Option<Json>, e: PluginError) {
    if prop.Obj? then
      exists k :: k in prop.fields && !IsReserved(k) && !IsNumber(prop.fields[k]) && e == InvalidIncrement(k)
    else if prop.Str? then
      e == MixpanelError("Invalid 'by' argument for people.increment. Must be a number.")
    else
      e == MixpanelError("Invalid 'prop' argument for people.increment. Must be String or Object.")
  }

  /** The props `increment` sends for its object or one-key form, before the identify gate. */
  method IncrementArgs(prop: Json, amountArg: Option<Json>) returns (r: Result<map<string, Json>, PluginError>)
    ensures r.Ok? <==> IncrementArgsOf(prop, amountArg).Some?
    ensures r.Ok? ==> r.value == IncrementArgsOf(prop, amountArg).value
    ensures r.Err? ==> IncrementError(prop, amountArg, r.error)
    ensures r.Ok? ==> r.value.Keys !! ReservedKeys && forall k :: k in r.value ==> IsNumber(r.value[k])
    ensures prop.Obj? ==> (r.Ok? <==> NumericWhereUnreserved(prop.fields))
    ensures prop.Obj? && r.Ok? ==> r.value == Unreserved(prop.fields)
    ensures prop.Str? && IsReserved(prop.s) ==> r == Ok(map[])
    ensures prop.Str? && !IsReserved(prop.s) && amountArg.None? ==> r == Ok(map[prop.s := Int(1)])
    ensures prop.Str? && !IsReserved(prop.s) && amountArg.Some? && IsNumber(amountArg.value) ==> r == Ok(map[prop.s := amountArg.value])
    ensures prop.Str? && !IsReserved(prop.s) && amountArg.Some? && !IsNumber(amountArg.value) ==>
      r == Err(MixpanelError("Invalid 'by' argument for people.increment. Must be a number."))
    ensures !prop.Obj? && !prop.Str? ==>
      r == Err(MixpanelError("Invalid 'prop' argument for people.increment. Must be String or Object."))
  {
    if prop.Obj? {
      r := IncrementProps(prop.fields);
      assert r.Ok? ==> IncrementArgsOf(prop, amountArg) == Some(r.value);
    } else if prop.Str? {
      if IsReserved(prop.s) {
        assert IncrementArgsOf(prop, amountArg) == Some(map[]);
        return Ok(map[]);
      }
      var amount := if amountArg.Some? then amountArg.value else Int(1);
      if !IsNumber(amount) {
        assert IncrementArgsOf(prop, amountArg) == None;
        return Err(MixpanelError("Invalid 'by' argument for people.increment. Must be a number."));
      }
      r := Ok(map[prop.s := amount]);
    } else {
      assert IncrementArgsOf(prop, amountArg) == None;
      r := Err(MixpanelError("Invalid 'prop' argument for people.increment. Must be String or Object."));
    }
  }

  /**
   * `increment`: numbers are checked here, and whether they fit a signed
   * 64-bit integer is checked by `send_request` after the identify gate.
   */
  method Increment(token: string, distinctId: Option<string>, prop: Json, amountArg: Option<Json>) returns (d: Decision)
    ensures var m := IncrementArgsOf(prop, amountArg);
      && (m.None? ==> d.Fail? && IncrementError(prop, amountArg, d.error))
      && (m.Some? && (m.value == map[] || !IdentifyCalled(distinctId)) ==> d == Skip)
      && (m.Some? && m.value != map[] && IdentifyCalled(distinctId) ==>
            (d.Fail? <==> exists k :: k in m.value && AsI64(m.value[k]).None?))
      && (m.Some? && d.Fail? ==> exists k :: k in m.value && AsI64(m.value[k]).None? && d.error == InvalidIncrement(k))
      && (m.Some? && d.Send? ==> ProfileRequests.ProfileUpdate(d.request, token, distinctId.value, "$add", Obj(m.value)))
    ensures var m := IncrementArgsOf(prop, amountArg);
      m.Some? && m.value != map[] && IdentifyCalled(distinctId) && (forall k :: k in m.value ==> AsI64(m.value[k]).Some?) ==>
        d == Send(ProfileRequests.IncrementRequest(token, distinctId.value, I64Amounts(m.value), None))
  {
    var p := IncrementArgs(prop, amountArg);
    if p.Err? {
      return Fail(p.error);
    }
    if p.value == map[] {
      return Skip;
    }
    d := SendRequest(token, distinctId, AddAction, p.value);
  }

  /** A union value: a list stays, anything else becomes a one-element list. */
  function AsList(v: Json): (l: Json)
    ensures l.Arr?
    ensures v.Arr? ==> l == v
    ensures !v.Arr? ==> l == Arr([v])
  {
    if v.Arr? then v else Arr([v])
  }

  /** The object form of `union` as a value: reserved keys dropped, every other value made a list. */
  function UnionOf(m: map<string, Json>): (r: map<string, Json>)
    ensures r.Keys == m.Keys - ReservedKeys
    ensures forall k :: k in r ==> r[k] == AsList(m[k]) && r[k].Arr?
  {
    map k | k in m && !IsReserved(k) :: AsList(m[k])
  }

  /** The object form of `union`: the loop over the object's keys that builds `UnionOf`. */
  method UnionProps(m: map<string, Json>) returns (r: map<string, Json>)
    ensures r == UnionOf(m)
  {
    r := map[];
    var todo := m.Keys;
    while todo != {}
      invariant todo <= m.Keys
      invariant r.Keys == (m.Keys - todo) - ReservedKeys
      invariant forall k :: k in r ==> r[k] == AsList(m[k])
      decreases todo
    {
      var k :| k in todo;
      todo := todo - {k};
      if IsReserved(k) {
        continue;
      }
      r := r[k := AsList(m[k])];
    }
    assert r.Keys == UnionOf(m).Keys;
  }

  /** `union`: lists are sent as they are, single values wrapped, a missing value becomes the empty list. */
  method Union(token: string, distinctId: Option<string>, listName: Json, values: Option<Json>) returns (d: Decision)
    ensures !listName.Obj? && !listName.Str? ==>
      d == Fail(MixpanelError("Invalid 'list_name' argument for people.union. Must be String or Object."))
    ensures listName.Obj? || listName.Str? ==> !d.Fail?
    ensures listName.Obj? && UnionOf(listName.fields) == map[] ==> d == Skip
    ensures listName.Obj? && UnionOf(listName.fields) != map[] && IdentifyCalled(distinctId) ==>
      d == Send(ProfileRequests.UnionRequest(token, distinctId.value, UnionOf(listName.fields), None))
    ensures !IdentifyCalled(distinctId) ==> !d.Send?
    ensures listName.Str? && IsReserved(listName.s) ==> d == Skip
    ensures listName.Str? && !IsReserved(listName.s) && IdentifyCalled(distinctId) ==>
      d == Send(ProfileRequests.UnionRequest(token, distinctId.value,
                 map[listName.s := AsList(if values.Some? then values.value else Arr([]))], None))
  {
    var props: map<string, Json>;
    if listName.Obj? {
      props := UnionProps(listName.fields);
    } else if listName.Str? {
      if IsReserved(listName.s) {
        return Skip;
      }
      props := map[listName.s := AsList(if values.Some? then values.value else Arr([]))];
      assert listName.s in props;
    } else {
      return Fail(MixpanelError("Invalid 'list_name' argument for people.union. Must be String or Object."));
    }
    d := SendProps(token, distinctId, UnionAction, props);
  }

  /** The array form of `unset`: every element must be a string; reserved keys are skipped. */
  method UnsetKeys(elements: seq<Json>) returns (r: Result<map<string, Json>, PluginError>)
    ensures r.Ok? <==> AllStrings(elements)
    ensures r.Ok? ==> forall k :: k in r.value <==> !IsReserved(k) && Str(k) in elements
    ensures r.Ok? ==> forall k :: k in r.value ==> r.value[k] == Null
    ensures r.Err? ==> r.error == MixpanelError("Invalid array element in people.unset. Must be strings.")
  {
    var keys: map<string, Json> := map[];
    var i := 0;
    while i < |elements|
      invariant 0 <= i <= |elements|
      invariant forall j :: 0 <= j < i ==> elements[j].Str?
      invariant forall k :: k in keys <==> !IsReserved(k) && Str(k) in elements[..i]
      invariant forall k :: k in keys ==> keys[k] == Null
    {
      if !elements[i].Str? {
        return Err(MixpanelError("Invalid array element in people.unset. Must be strings."));
      }
      if !IsReserved(elements[i].s) {
        keys := keys[elements[i].s := Null];
      }
      assert elements[..i + 1] == elements[..i] + [elements[i]];
      i := i + 1;
    }
    assert elements[..i] == elements;
    r := Ok(keys);
  }

  predicate AllStrings(items: seq<Json>) {
    forall i :: 0 <= i < |items| ==> items[i].Str?
  }

  /** The keys `unset` sends: one non-reserved key, or the non-reserved strings of a list made only of strings. */
  function UnsetKeySet(prop: Json): (r: Result<set<string>, PluginError>)
    ensures r.Ok? <==> prop.Str? || (prop.Arr? && AllStrings(prop.items))
    ensures r.Ok? ==> r.value !! ReservedKeys
  {
    if prop.Str? then Ok(if IsReserved(prop.s) then {} else {prop.s})
    else if prop.Arr? then
      (if AllStrings(prop.items) then
         Ok(set i | 0 <= i < |prop.items| && !IsReserved(prop.items[i].s) :: prop.items[i].s)
       else Err(MixpanelError("Invalid array element in people.unset. Must be strings.")))
    else Err(MixpanelError("Invalid 'prop' argument for people.unset. Must be String or Array of Strings."))
  }

  /** The map of keys `unset` builds, before the identify gate. */
  method UnsetArgs(prop: Json) returns (r: Result<map<string, Json>, PluginError>)
    ensures r.Err? <==> UnsetKeySet(prop).Err?
    ensures r.Err? ==> r.error == UnsetKeySet(prop).error
    ensures r.Ok? ==> r.value.Keys == UnsetKeySet(prop).value
  {
    if prop.Str? {
      var key := prop.s;
      r := Ok(if IsReserved(key) then map[] else map[key := Null]);
      assert r.value.Keys == UnsetKeySet(prop).value;
    } else if prop.Arr? {
      r := UnsetKeys(prop.items);
      if r.Ok? {
        UnsetKeysMatch(prop.items, r.value.Keys);
      }
    } else {
      r := Err(MixpanelError("Invalid 'prop' argument for people.unset. Must be String or Array of Strings."));
    }
  }

  /** The keys collected from a list of strings are the set `UnsetKeySet` describes. */
  lemma UnsetKeysMatch(elements: seq<Json>, keys: set<string>)
    requires AllStrings(elements)
    requires forall k :: k in keys <==> !IsReserved(k) && Str(k) in elements
    ensures keys == UnsetKeySet(Arr(elements)).value
  {
    var listed := UnsetKeySet(Arr(elements)).value;
    forall k | k in listed ensures k in keys {
      var i :| 0 <= i < |elements| && !IsReserved(elements[i].s) && elements[i].s == k;
      assert elements[i] == Str(k);
    }
    forall k | k in keys ensures k in listed {
      var i :| 0 <= i < |elements| && elements[i] == Str(k);
      assert elements[i].s == k;
    }
  }

  /** `unset`: one key or a list of keys; the keys left after filtering are sent under `$unset`. */
  method Unset(token: string, distinctId: Option<string>, prop: Json) returns (d: Decision)
    ensures UnsetKeySet(prop).Err? ==> d == Fail(UnsetKeySet(prop).error)
    ensures UnsetKeySet(prop).Ok? && (UnsetKeySet(prop).value == {} || !IdentifyCalled(distinctId)) ==> d == Skip
    ensures UnsetKeySet(prop).Ok? && UnsetKeySet(prop).value != {} && IdentifyCalled(distinctId) ==> d.Send?
    ensures !IdentifyCalled(distinctId) ==> !d.Send?
    ensures prop.Str? && IsReserved(prop.s) ==> d == Skip
    ensures prop.Str? && !IsReserved(prop.s) && IdentifyCalled(distinctId) ==>
      d == Send(ProfileRequests.UnsetRequest(token, distinctId.value, [prop.s], None))
    ensures d.Send? ==> exists keys ::
      && Enumerates(keys, UnsetKeySet(prop).value)
      && d.request == ProfileRequests.UnsetRequest(token, distinctId.value, keys, None)
  {
    var keys := UnsetArgs(prop);
    if keys.Err? {
      return Fail(keys.error);
    }
    if keys.value == map[] {
      return Skip;
    }
    assert keys.value.Keys != {} by {
      var k :| k in keys.value;
    }
    d := SendRequest(token, distinctId, UnsetAction, keys.value);
    if prop.Str? && d.Send? {
      var ks :| Enumerates(ks, keys.value.Keys) && d.request == ProfileRequests.UnsetRequest(token, distinctId.value, ks, None);
      assert keys.value.Keys == {prop.s};
      SingleKeyEnumeration(prop.s, ks);
    }
  }

  /** The only listing of a one-key set is that key alone. */
  lemma SingleKeyEnumeration(k: string, keys: seq<string>)
    requires Enumerates(keys, {k})
    ensures keys == [k]
  {
    assert keys[0] == k;
  }

  /** `delete_user`: only for an identified user, then `$delete`. */
  method DeleteUser(token: string, distinctId: Option<string>) returns (d: Decision)
    ensures !IdentifyCalled(distinctId) ==> d == Skip
    ensures IdentifyCalled(distinctId) ==> d == Send(ProfileRequests.DeleteUserRequest(token, distinctId.value, None))
  {
    if !IdentifyCalled(distinctId) {
      return Skip;
    }
    d := SendRequest(token, distinctId, DeleteAction, map[]);
  }

  /** What the caller sees: nothing sent is success, and a sent request fails as the client does. */
  function Settle(d: Decision, delivered: Client.Outcome): (r: Result<(), PluginError>)
    ensures d.Skip? ==> r.Ok?
    ensures d.Fail? ==> r == Err(d.error)
    ensures d.Send? ==> (r.Ok? <==> delivered.Ok?)
    ensures d.Send? && delivered.Err? ==> r == Err(MixpanelClient(delivered.error))
  {
    match d
    case Skip => Ok(())
    case Fail(e) => Err(e)
    case Send(_) => if delivered.Ok? then Ok(()) else Err(MixpanelClient(delivered.error))
  }

  /** No request the facade sends ever carries a reserved key in its property object. */
  lemma KeyedNeverSendsReserved(token: string, distinctId: Option<string>, prop: Json, value: Option<Json>, action: Action, op: string, arg: string)
    requires CarriesProps(action)
    requires KeyedProps(prop, value, op, arg).Ok? && IdentifyCalled(distinctId)
    ensures var sent := PropsRequest(token, distinctId.value, action, KeyedProps(prop, value, op, arg).value);
      sent.data.fields[ActionKey(action)].Obj? &&
      sent.data.fields[ActionKey(action)].fields.Keys !! ReservedKeys
  {
  }
}
