/**
 The session record kept in the store and the updates AuthSessionService makes to it, down to
 object spread and the JSON round trip, with the simple session they amount to.
 */
module SessionRecord {
  import opened Prelude

  datatype UserPermission = OtpVerified | UploadImagePrivate | ForgotPassword

  datatype FlowPermission =
    | OtpRequested | FlowOtpVerified | SelfieVerified | InitContract
    | InquiryAccount | RequestWithdrawalDeposit | VerifiedOtpWithdrawalDeposit

  datatype FlowType =
    | SignContract | FundTransfer | InquiryStatus | WithdrawalDeposit | ActiveBiometric
    | VerifyBiometric | CreateAccount | ForgotPasswordFlow | LinkType3

  /** One flow of a session. A field that is present with value None is `undefined`. */
  datatype FlowValue = FlowValue(permissions: Prop<seq<FlowPermission>>, fields: map<string, Option<string>>)

  /** A session as a JavaScript object; `rest` are the fields no update looks at. */
  datatype SessionValue = SessionValue(
    exp: Prop<int>,
    iat: Prop<int>,
    key: string,
    permissions: Prop<seq<UserPermission>>,
    flows: map<FlowType, Option<FlowValue>>,
    rest: map<string, string>)

  /** What a caller passes to addFlowSession. */
  datatype FlowPatch = FlowPatch(
    flow: Option<FlowType>, permissions: Prop<seq<FlowPermission>>, fields: map<string, Option<string>>)

  datatype Op =
    | AddPermissions(permissions: seq<UserPermission>)
    | AddFlow(patch: FlowPatch)
    | ClearFlow(flow: FlowType)
    | AddFlowPermissions(flow: FlowType, granted: seq<FlowPermission>)

  datatype Error = SessionNotAvailable | SorrySomethingWentWrong | Unauthorized | TypeError | StoreError

  // ---- JSON.parse(JSON.stringify(..)) ----

  function JsonProp<T>(p: Prop<T>): Prop<T> {
    if p.Undefined? then Missing else p
  }

  function JsonFields(fields: map<string, Option<string>>): map<string, Option<string>> {
    map k | k in fields && fields[k].Some? :: fields[k]
  }

  function JsonFlow(f: FlowValue): FlowValue {
    FlowValue(JsonProp(f.permissions), JsonFields(f.fields))
  }

  function JsonFlows(flows: map<FlowType, Option<FlowValue>>): map<FlowType, Option<FlowValue>> {
    map t | t in flows && flows[t].Some? :: Some(JsonFlow(flows[t].value))
  }

  function Json(s: SessionValue): SessionValue {
    SessionValue(JsonProp(s.exp), JsonProp(s.iat), s.key, JsonProp(s.permissions), JsonFlows(s.flows), s.rest)
  }

  // ---- Permission lists ----

  /** `list` after pushing, in order, every item it does not include yet. */
  function PushMissing<T(==)>(list: seq<T>, items: seq<T>): seq<T>
    decreases |items|
  {
    if items == [] then list
    else PushMissing(if items[0] in list then list else list + [items[0]], items[1..])
  }

  lemma {:induction false} PushMissingHolds<T>(list: seq<T>, items: seq<T>)
    ensures list <= PushMissing(list, items)
    ensures forall x :: x in PushMissing(list, items) <==> x in list || x in items
    decreases |items|
  {
    if items != [] {
      PushMissingHolds(if items[0] in list then list else list + [items[0]], items[1..]);
      assert forall x :: x in items <==> x == items[0] || x in items[1..];
    }
  }

  /**
   A grant keeps the list as a prefix and appends exactly the missing permissions, each once,
   even when the granted list repeats itself.
   */
  lemma {:induction false} PushMissingExact<T>(list: seq<T>, items: seq<T>)
    ensures list <= PushMissing(list, items)
    ensures NoDup(PushMissing(list, items)[|list|..])
    ensures forall x :: x in PushMissing(list, items)[|list|..] <==> x in items && x !in list
    decreases |items|
  {
    PushMissingHolds(list, items);
    if items != [] {
      var r := PushMissing(list, items);
      var next := if items[0] in list then list else list + [items[0]];
      PushMissingHolds(next, items[1..]);
      PushMissingExact(next, items[1..]);
      assert forall x :: x in items <==> x == items[0] || x in items[1..];
      if items[0] !in list {
        assert r[|list|] == next[|list|];
        assert r[|list|..] == [items[0]] + r[|next|..];
      }
    }
  }

  lemma GrantKeepsUnique<T>(list: seq<T>, items: seq<T>)
    requires NoDup(list)
    ensures NoDup(PushMissing(list, items))
  {
    PushMissingExact(list, items);
    var r := PushMissing(list, items);
    var tail := r[|list|..];
    assert r == list + tail;
    assert forall j :: 0 <= j < |tail| ==> tail[j] in tail;
  }

  lemma GrantIsUnion<T(!new)>(list: seq<T>, items: seq<T>)
    ensures Elements(PushMissing(list, items)) == Elements(list) + Elements(items)
  {
    PushMissingHolds(list, items);
    var r := PushMissing(list, items);
    assert forall x :: x in r ==> x in Elements(list) + Elements(items);
    assert forall x :: x in Elements(list) + Elements(items) ==> x in r;
  }

  function UserList(s: SessionValue): seq<UserPermission> {
    if s.permissions.Value? then s.permissions.value else []
  }

  function ListOf(f: FlowValue): seq<FlowPermission> {
    if f.permissions.Value? then f.permissions.value else []
  }

  function FlowList(s: SessionValue, t: FlowType): seq<FlowPermission> {
    if t in s.flows && s.flows[t].Some? then ListOf(s.flows[t].value) else []
  }

  ghost predicate UniqueLists(s: SessionValue) {
    NoDup(UserList(s)) && forall t: FlowType :: NoDup(FlowList(s, t))
  }

  // ---- The updates ----

  function SpreadProp<T>(older: Prop<T>, newer: Prop<T>): Prop<T> {
    if newer.Missing? then older else newer
  }

  /** `{...older, ...patch}`: the last writer of a field wins, `undefined` included. */
  function Spread(older: FlowValue, patch: FlowPatch): FlowValue {
    FlowValue(SpreadProp(older.permissions, patch.permissions), older.fields + patch.fields)
  }

  function FlowOrEmpty(s: SessionValue, t: FlowType): FlowValue {
    if t in s.flows && s.flows[t].Some? then s.flows[t].value else FlowValue(Missing, map[])
  }

  /** The record an update hands to addSession. */
  function ApplyOp(op: Op, s: SessionValue): Result<SessionValue, Error> {
    match op
    case AddPermissions(permissions) =>
      Ok(s.(permissions := Value(PushMissing(UserList(s), permissions))))
    case AddFlow(patch) =>
      if patch.flow.None? then Err(SorrySomethingWentWrong)
      else Ok(s.(flows := s.flows[patch.flow.value := Some(Spread(FlowOrEmpty(s, patch.flow.value), patch))]))
    case ClearFlow(t) =>
      Ok(s.(flows := s.flows[t := None]))
    case AddFlowPermissions(t, granted) =>
      if t !in s.flows || s.flows[t].None? then Err(SessionNotAvailable)
      else
        var f := s.flows[t].value;
        if granted == [] then Ok(s)
        else if !f.permissions.Value? then Err(TypeError)
        else Ok(s.(flows := s.flows[t := Some(f.(permissions := Value(PushMissing(f.permissions.value, granted))))]))
  }

  // ---- The simple session behind the record ----

  datatype SimpleFlow = SimpleFlow(permissions: set<FlowPermission>, fields: map<string, string>)

  datatype SimpleSession = SimpleSession(
    exp: Prop<int>, permissions: set<UserPermission>, flows: map<FlowType, SimpleFlow>)

  function SimplifyFlow(f: FlowValue): SimpleFlow {
    SimpleFlow(Elements(ListOf(f)), map k | k in f.fields && f.fields[k].Some? :: f.fields[k].value)
  }

  function Simplify(s: SessionValue): SimpleSession {
    SimpleSession(JsonProp(s.exp), Elements(UserList(s)),
                  map t | t in s.flows && s.flows[t].Some? :: SimplifyFlow(s.flows[t].value))
  }

  /** Field by field the patch wins where it says something; `undefined` removes. */
  function Merge(f: SimpleFlow, patch: FlowPatch): SimpleFlow {
    SimpleFlow(
      (match patch.permissions case Missing => f.permissions case Undefined => {} case Value(list) => Elements(list)),
      map k | k in f.fields.Keys + patch.fields.Keys && (k in patch.fields ==> patch.fields[k].Some?) ::
        if k in patch.fields then patch.fields[k].value else f.fields[k])
  }

  /** The updates on the simple session: set union, merge, removal, set union. */
  function SimpleOp(op: Op, a: SimpleSession): Option<SimpleSession> {
    match op
    case AddPermissions(permissions) => Some(a.(permissions := a.permissions + Elements(permissions)))
    case AddFlow(patch) =>
      if patch.flow.None? then None
      else
        var t := patch.flow.value;
        Some(a.(flows := a.flows[t := Merge(if t in a.flows then a.flows[t] else SimpleFlow({}, map[]), patch)]))
    case ClearFlow(t) => Some(a.(flows := a.flows - {t}))
    case AddFlowPermissions(t, granted) =>
      if t !in a.flows then None
      else Some(a.(flows := a.flows[t := a.flows[t].(permissions := a.flows[t].permissions + Elements(granted))]))
  }

  lemma JsonKeepsSimple(s: SessionValue)
    ensures Simplify(Json(s)) == Simplify(s)
  {
    forall t | t in s.flows && s.flows[t].Some?
      ensures SimplifyFlow(JsonFlow(s.flows[t].value)) == SimplifyFlow(s.flows[t].value)
    {
    }
  }

  lemma JsonIdempotent(s: SessionValue)
    ensures Json(Json(s)) == Json(s)
  {
    forall t | t in s.flows && s.flows[t].Some?
      ensures JsonFlow(JsonFlow(s.flows[t].value)) == JsonFlow(s.flows[t].value)
    {
    }
  }

  lemma SpreadIsMerge(f: FlowValue, patch: FlowPatch)
    ensures SimplifyFlow(Spread(f, patch)) == Merge(SimplifyFlow(f), patch)
  {
  }

  lemma AddFlowRefines(patch: FlowPatch, s: SessionValue)
    requires patch.flow.Some?
    ensures SimpleOp(AddFlow(patch), Simplify(s)) == Some(Simplify(ApplyOp(AddFlow(patch), s).value))
  {
    var t := patch.flow.value;
    var v := ApplyOp(AddFlow(patch), s).value;
    SpreadIsMerge(FlowOrEmpty(s, t), patch);
    assert SimplifyFlow(FlowValue(Missing, map[])) == SimpleFlow({}, map[]);
    assert Simplify(v).flows == Simplify(s).flows[t := SimplifyFlow(Spread(FlowOrEmpty(s, t), patch))];
  }

  lemma GrantRefines(t: FlowType, granted: seq<FlowPermission>, s: SessionValue)
    requires ApplyOp(AddFlowPermissions(t, granted), s).Ok?
    ensures SimpleOp(AddFlowPermissions(t, granted), Simplify(s)) ==
            Some(Simplify(ApplyOp(AddFlowPermissions(t, granted), s).value))
  {
    var v := ApplyOp(AddFlowPermissions(t, granted), s).value;
    var f, a := s.flows[t].value, Simplify(s);
    GrantIsUnion(ListOf(f), granted);
    assert SimplifyFlow(v.flows[t].value) == a.flows[t].(permissions := a.flows[t].permissions + Elements(granted));
    assert Simplify(v).flows == a.flows[t := SimplifyFlow(v.flows[t].value)];
  }

  /** What is stored by an update that succeeds is the simple update of what was stored. */
  lemma UpdateRefines(op: Op, s: SessionValue)
    ensures ApplyOp(op, s).Ok? ==>
              var v := ApplyOp(op, s).value;
              && SimpleOp(op, Simplify(s)) == Some(Simplify(Json(v)))
              && v.exp == s.exp && v.iat == s.iat && v.key == s.key && v.rest == s.rest
  {
    if ApplyOp(op, s).Ok? {
      var v := ApplyOp(op, s).value;
      JsonKeepsSimple(v);
      match op
      case AddPermissions(permissions) => GrantIsUnion(UserList(s), permissions);
      case AddFlow(patch) =>
        AddFlowRefines(patch, s);
      case ClearFlow(t) => assert Simplify(v).flows == Simplify(s).flows - {t};
      case AddFlowPermissions(t, granted) => GrantRefines(t, granted, s);
    }
  }

  /** An update fails exactly when it names no flow type, or grants on a flow that is not there or has lost its list. */
  lemma UpdateFails(op: Op, s: SessionValue)
    ensures ApplyOp(op, s).Err? <==>
              || (op.AddFlow? && op.patch.flow.None?)
              || (op.AddFlowPermissions? && op.flow !in Simplify(s).flows)
              || (op.AddFlowPermissions? && op.granted != [] && !FlowOrEmpty(s, op.flow).permissions.Value?)
  {
  }

  /** No update puts a permission into a list twice, unless the caller's patch does. */
  lemma UpdateKeepsUnique(op: Op, s: SessionValue)
    requires UniqueLists(s) && ApplyOp(op, s).Ok?
    requires op.AddFlow? && op.patch.permissions.Value? ==> NoDup(op.patch.permissions.value)
    ensures UniqueLists(Json(ApplyOp(op, s).value))
  {
    var v := ApplyOp(op, s).value;
    if op.AddPermissions? {
      GrantKeepsUnique(UserList(s), op.permissions);
    }
    forall t: FlowType ensures NoDup(FlowList(Json(v), t)) {
      FlowListStaysUnique(op, s, t);
    }
  }

  lemma FlowListStaysUnique(op: Op, s: SessionValue, t: FlowType)
    requires UniqueLists(s) && ApplyOp(op, s).Ok?
    requires op.AddFlow? && op.patch.permissions.Value? ==> NoDup(op.patch.permissions.value)
    ensures NoDup(FlowList(Json(ApplyOp(op, s).value), t))
  {
    var v := ApplyOp(op, s).value;
    assert FlowList(Json(v), t) == FlowList(v, t);
    assert NoDup(FlowList(s, t));
    if op.AddFlowPermissions? {
      GrantKeepsUnique(FlowList(s, t), op.granted);
    }
  }

  // ---- Who holds what ----

  /** A permission of the session itself or of one of its flows. */
  datatype Perm = User(permission: UserPermission) | Flow(flow: FlowType, flowPermission: FlowPermission)

  predicate Has(s: SessionValue, p: Perm) {
    match p
    case User(u) => u in UserList(s)
    case Flow(t, q) => q in FlowList(s, t)
  }

  /** The permissions an update puts into the record. */
  predicate Puts(op: Op, p: Perm) {
    match op
    case AddPermissions(permissions) => p.User? && p.permission in permissions
    case AddFlow(patch) =>
      p.Flow? && patch.flow == Some(p.flow) && patch.permissions.Value? && p.flowPermission in patch.permissions.value
    case ClearFlow(_) => false
    case AddFlowPermissions(t, granted) => p.Flow? && p.flow == t && p.flowPermission in granted
  }

  /** An update adds no permission but those it puts, and a granted permission is held afterwards. */
  lemma UpdateAddsOnly(op: Op, s: SessionValue, p: Perm)
    requires ApplyOp(op, s).Ok?
    ensures Has(Json(ApplyOp(op, s).value), p) ==> Has(s, p) || Puts(op, p)
    ensures Puts(op, p) ==> Has(Json(ApplyOp(op, s).value), p)
    ensures Has(s, p) && !op.AddFlow? && !op.ClearFlow? ==> Has(Json(ApplyOp(op, s).value), p)
  {
    match op
    case AddPermissions(permissions) =>
      PushMissingHolds(UserList(s), permissions);
    case AddFlow(patch) =>
    case ClearFlow(t) =>
    case AddFlowPermissions(t, granted) =>
      PushMissingHolds(FlowList(s, t), granted);
  }
}
