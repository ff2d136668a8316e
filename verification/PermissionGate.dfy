/** PermissionInterceptor: what an endpoint requires of the session snapshot and what it grants. */
module PermissionGate {
  import opened Prelude
  import opened SessionRecord

  datatype FlowMeta = FlowMeta(flow: FlowType, required: seq<FlowPermission>, provided: seq<FlowPermission>)

  /** The permission metadata of an endpoint; no metadata is an endpoint with empty lists. */
  datatype Endpoint = Endpoint(required: seq<UserPermission>, provided: seq<UserPermission>, flowMeta: Option<FlowMeta>)

  const NO_METADATA := Endpoint([], [], None)

  predicate Requires(e: Endpoint, p: Perm) {
    match p
    case User(u) => u in e.required
    case Flow(t, q) => e.flowMeta.Some? && e.flowMeta.value.flow == t && q in e.flowMeta.value.required
  }

  predicate Provides(e: Endpoint, p: Perm) {
    match p
    case User(u) => u in e.provided
    case Flow(t, q) => e.flowMeta.Some? && e.flowMeta.value.flow == t && q in e.flowMeta.value.provided
  }

  predicate AllIn<T(==)>(wanted: seq<T>, list: seq<T>) {
    forall x | x in wanted :: x in list
  }

  /** The session-level check: an empty requirement looks at nothing. */
  predicate UserCheck(e: Endpoint, s: SessionValue) {
    e.required == [] || (s.permissions.Value? && AllIn(e.required, s.permissions.value))
  }

  predicate FlowCheck(m: FlowMeta, s: SessionValue) {
    m.required == [] ||
    (m.flow in s.flows && s.flows[m.flow].Some? && s.flows[m.flow].value.permissions.Value? &&
     AllIn(m.required, s.flows[m.flow].value.permissions.value))
  }

  predicate Check(e: Endpoint, s: SessionValue) {
    UserCheck(e, s) && (e.flowMeta.Some? ==> FlowCheck(e.flowMeta.value, s))
  }

  /** The check passes if and only if the snapshot holds every required permission. */
  lemma CheckIff(e: Endpoint, s: SessionValue)
    ensures Check(e, s) <==> forall p :: Requires(e, p) ==> Has(s, p)
  {
    if forall p :: Requires(e, p) ==> Has(s, p) {
      forall u | u in e.required ensures s.permissions.Value? && u in s.permissions.value {
        assert Requires(e, User(u));
      }
      if e.flowMeta.Some? {
        var m := e.flowMeta.value;
        forall q | q in m.required ensures q in FlowList(s, m.flow) {
          assert Requires(e, Flow(m.flow, q));
        }
        assert m.required != [] ==> m.required[0] in FlowList(s, m.flow);
      }
      assert e.required != [] ==> e.required[0] in e.required;
    }
  }

  function UserGrants(e: Endpoint): seq<Op> {
    if e.provided != [] then [AddPermissions(e.provided)] else []
  }

  function FlowGrants(e: Endpoint): seq<Op> {
    if e.flowMeta.Some? && e.flowMeta.value.provided != []
    then [AddFlowPermissions(e.flowMeta.value.flow, e.flowMeta.value.provided)] else []
  }

  /** The store updates after a successful response, in this order; empty lists are skipped. */
  function GrantOps(e: Endpoint): seq<Op> {
    UserGrants(e) + FlowGrants(e)
  }

  /** The grants put exactly what the endpoint provides. */
  lemma GrantsProvided(e: Endpoint, p: Perm)
    ensures (exists i :: 0 <= i < |GrantOps(e)| && Puts(GrantOps(e)[i], p)) <==> Provides(e, p)
  {
    var ops := GrantOps(e);
    if Provides(e, p) {
      if p.User? {
        assert Puts(ops[0], p);
      } else {
        assert Puts(ops[|ops| - 1], p);
      }
    }
  }

  /** The first loop of the interceptor. */
  method CheckUserPermissions(required: seq<UserPermission>, s: SessionValue) returns (ok: bool)
    ensures ok <==> UserCheck(Endpoint(required, [], None), s)
  {
    for i := 0 to |required|
      invariant i > 0 ==> s.permissions.Value?
      invariant forall j :: 0 <= j < i ==> required[j] in UserList(s)
    {
      if !s.permissions.Value? || required[i] !in s.permissions.value {
        return false;
      }
    }
    return true;
  }

  /** The second loop of the interceptor. */
  method CheckFlowPermissions(m: FlowMeta, s: SessionValue) returns (ok: bool)
    ensures ok <==> FlowCheck(m, s)
  {
    if m.required == [] {
      return true;
    }
    if m.flow !in s.flows || s.flows[m.flow].None? {
      assert m.required[0] in m.required;
      return false;
    }
    var flow := s.flows[m.flow].value;
    for i := 0 to |m.required|
      invariant i > 0 ==> flow.permissions.Value?
      invariant forall j :: 0 <= j < i ==> m.required[j] in ListOf(flow)
    {
      if !flow.permissions.Value? || m.required[i] !in flow.permissions.value {
        return false;
      }
    }
    return true;
  }
}
