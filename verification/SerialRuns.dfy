/**
 The application with whole requests as single steps: login, logout, the endpoints and the clock.
 Here the order of permissions is strict and a user has one token. What interleaving does to that
 is the subject of `ChainUnderInterleaving`, `LadderUnderInterleaving` and `LoginRaces`.
 */
module SerialRuns {
  import opened Prelude
  import opened SessionKeys
  import opened SessionRecord
  import opened SessionStore
  import opened TokenIssue
  import opened PermissionGate
  import opened Endpoints
  import opened AuthGuard

  datatype Call =
    | RequestOtp(contractId: string, otpId: string, selfieUndefined: bool)
    | CheckOtp
    | CheckSelfie(selfieId: string)
    | AddPermission
    | AddSessionLocal

  function EndpointOf(call: Call): Endpoint {
    match call
    case RequestOtp(_, _, _) => REQUEST_OTP
    case CheckOtp => CHECK_OTP
    case CheckSelfie(_) => CHECK_SELFIE
    case AddPermission => ADD_PERMISSION
    case AddSessionLocal => ADD_SESSION_LOCAL
  }

  function HandlerOps(call: Call): seq<Op> {
    match call
    case RequestOtp(contractId, otpId, selfieUndefined) =>
      [AddFlow(RequestOtpPatch(contractId, otpId, selfieUndefined))]
    case CheckSelfie(selfieId) => [AddFlow(CheckSelfiePatch(selfieId))]
    case _ => []
  }

  /** Updates one after the other on one session; the first failure ends them. */
  function RunOps(st: Slots, id: string, ops: seq<Op>, now: int): Outcome
    decreases |ops|
  {
    if ops == [] then Outcome(st, true)
    else
      var first := Attempt(st, RunOp(st, Slot(SessionNs, id), ops[0], now));
      if first.ok then RunOps(first.store, id, ops[1..], now) else first
  }

  /** How far a request got. */
  datatype Reached = Rejected | HandlerFailed(wrote: bool) | GrantFailed | Granted

  datatype Served = Served(store: Slots, reached: Reached)

  /** Guard, check on the snapshot, handler, grants; `throws` is a handler failing after its updates. */
  function Serve(st: Slots, jwt: Jwt, call: Call, throws: bool, now: int): Served {
    if !Accepts(st, now, jwt) then Served(st, Rejected)
    else
      var user := ReadToken(st, JwtId(jwt), now).value;
      var snapshot := ReadSession(st, Slot(SessionNs, JwtId(jwt)), now).value;
      if !Check(EndpointOf(call), snapshot) then Served(st, Rejected)
      else
        var handled := RunOps(st, user, HandlerOps(call), now);
        if !handled.ok || throws then Served(handled.store, HandlerFailed(handled.ok))
        else
          var granted := RunOps(handled.store, snapshot.key, GrantOps(EndpointOf(call)), now);
          Served(granted.store, if granted.ok then Granted else GrantFailed)
  }

  datatype Token = Token(key: string, id: string)

  function TokenId(t: Token): string {
    BoundId(t.key, t.id)
  }

  /** What happened to the sign-contract flow of the session with the given id. */
  datatype Event =
    | OtpIssued(id: string, contractId: string)
    | OtpGranted(id: string)
    | OtpChecked(id: string)
    | SelfieChecked(id: string)

  /** `revoked` are the issued tokens that were logged out or replaced by a later login. */
  datatype State = State(store: Slots, now: int, issued: set<Token>, revoked: set<Token>, log: seq<Event>)

  datatype Step =
    | Tick(ms: nat)
    | LoginStep(key: string, id: string, rest: map<string, string>, expireTime: int)
    | LogoutStep(jwt: Jwt)
    | Request(jwt: Jwt, call: Call, throws: bool)

  function Events(id: string, call: Call, reached: Reached): seq<Event> {
    match call
    case RequestOtp(contractId, _, _) =>
      if reached == Rejected || reached == HandlerFailed(false) then []
      else if reached == Granted then [OtpIssued(id, contractId), OtpGranted(id)]
      else [OtpIssued(id, contractId)]
    case CheckOtp => if reached == Granted then [OtpChecked(id)] else []
    case CheckSelfie(_) => if reached == Granted then [SelfieChecked(id)] else []
    case _ => []
  }

  /** Ids are uuids: a login never reuses a bound id. */
  predicate Enabled(s: State, step: Step) {
    step.LoginStep? ==> forall t | t in s.issued :: TokenId(t) != BoundId(step.key, step.id)
  }

  function Apply(s: State, step: Step): State {
    match step
    case Tick(ms) => s.(now := s.now + ms)
    case LoginStep(key, id, rest, expireTime) =>
      s.(store := Authenticate(s.store, key, id, NewSession(rest), false, expireTime, None, s.now).store,
         issued := s.issued + {Token(key, id)},
         revoked := s.revoked + set t | t in s.issued && t.key == key)
    case LogoutStep(jwt) =>
      if !Accepts(s.store, s.now, jwt) then s
      else s.(store := Logout(s.store, ReadToken(s.store, JwtId(jwt), s.now).value),
              revoked := s.revoked + set t | t in s.issued && TokenId(t) == JwtId(jwt))
    case Request(jwt, call, throws) =>
      var served := Serve(s.store, jwt, call, throws, s.now);
      s.(store := served.store, log := s.log + Events(JwtId(jwt), call, served.reached))
  }

  ghost predicate Next(s: State, step: Step, s': State) {
    Enabled(s, step) && s' == Apply(s, step)
  }

  ghost predicate IsRun(tr: seq<State>, steps: seq<Step>) {
    && |tr| == |steps| + 1
    && (exists now :: tr[0] == State(map[], now, {}, {}, []))
    && forall i {:trigger steps[i]} :: 0 <= i < |steps| ==> Next(tr[i], steps[i], tr[i + 1])
  }

  // ---- Frames ----

  /** Updates on one session leave every other entry alone and never remove or re-key a session. */
  ghost predicate SameOutside(st: Slots, st': Slots, id: string) {
    && st'.Keys == st.Keys
    && forall slot :: slot in st && slot != Slot(SessionNs, id) ==> st'[slot] == st[slot]
  }

  lemma {:induction false} RunOpsFrame(st: Slots, id: string, ops: seq<Op>, now: int)
    requires KeyedStore(st)
    ensures SameOutside(st, RunOps(st, id, ops, now).store, id)
    ensures KeyedStore(RunOps(st, id, ops, now).store)
    decreases |ops|
  {
    if ops != [] && RunOp(st, Slot(SessionNs, id), ops[0], now).Ok? {
      RunOpRefines(st, Slot(SessionNs, id), ops[0], now);
      RunOpsFrame(RunOp(st, Slot(SessionNs, id), ops[0], now).value, id, ops[1..], now);
    }
  }

  /** On a keyed store the handler and the grants of a request both work on the token's own id. */
  lemma ServeFrame(st: Slots, jwt: Jwt, call: Call, throws: bool, now: int)
    requires KeyedStore(st)
    ensures KeyedStore(Serve(st, jwt, call, throws, now).store)
    ensures SameOutside(st, Serve(st, jwt, call, throws, now).store, JwtId(jwt))
    ensures Accepts(st, now, jwt) ==>
              ReadToken(st, JwtId(jwt), now) == Some(JwtId(jwt)) &&
              ReadSession(st, Slot(SessionNs, JwtId(jwt)), now).value.key == JwtId(jwt)
  {
    if Accepts(st, now, jwt) {
      RunOpsFrame(st, JwtId(jwt), HandlerOps(call), now);
      RunOpsFrame(RunOps(st, JwtId(jwt), HandlerOps(call), now).store, JwtId(jwt), GrantOps(EndpointOf(call)), now);
    }
  }

  ghost predicate Owned(issued: set<Token>, id: string) {
    exists t :: t in issued && TokenId(t) == id
  }

  /** Entries belong to issued tokens, and only theirs have a history. */
  ghost predicate Known(s: State) {
    && KeyedStore(s.store)
    && (forall slot :: slot in s.store ==> Owned(s.issued, slot.id))
    && (forall i :: 0 <= i < |s.log| ==> Owned(s.issued, s.log[i].id))
  }

  lemma LoginKeyed(st: Slots, key: string, id: string, rest: map<string, string>, expireTime: int, now: int)
    requires KeyedStore(st)
    ensures KeyedStore(Authenticate(st, key, id, NewSession(rest), false, expireTime, None, now).store)
    ensures forall slot :: slot in Authenticate(st, key, id, NewSession(rest), false, expireTime, None, now).store ==>
              slot in st || slot.id == BoundId(key, id)
  {
  }

  lemma LoginKeepsKnown(s: State, step: Step)
    requires Known(s) && step.LoginStep?
    ensures Known(Apply(s, step))
  {
    var s' := Apply(s, step);
    var t := Token(step.key, step.id);
    assert t in s'.issued && TokenId(t) == BoundId(step.key, step.id);
    LoginKeyed(s.store, step.key, step.id, step.rest, step.expireTime, s.now);
    forall id | Owned(s.issued, id)
      ensures Owned(s'.issued, id)
    {
      var u :| u in s.issued && TokenId(u) == id;
      assert u in s'.issued;
    }
    assert Owned(s'.issued, BoundId(step.key, step.id));
  }

  lemma EventsOwn(id: string, call: Call, reached: Reached)
    ensures forall i :: 0 <= i < |Events(id, call, reached)| ==> Events(id, call, reached)[i].id == id
    ensures reached == Rejected ==> Events(id, call, reached) == []
  {
  }

  lemma RequestKeepsKnown(s: State, jwt: Jwt, call: Call, throws: bool)
    requires Known(s)
    ensures Known(Apply(s, Request(jwt, call, throws)))
  {
    var served := Serve(s.store, jwt, call, throws, s.now);
    ServeFrame(s.store, jwt, call, throws, s.now);
    EventsOwn(JwtId(jwt), call, served.reached);
    if served.reached != Rejected {
      assert Slot(SessionNs, JwtId(jwt)) in s.store;
    }
  }

  lemma LogoutKeepsKnown(s: State, jwt: Jwt)
    requires Known(s)
    ensures Known(Apply(s, LogoutStep(jwt)))
  {
  }

  lemma KnownPreserved(s: State, step: Step)
    requires Known(s) && Enabled(s, step)
    ensures Known(Apply(s, step))
  {
    match step
    case Tick(_) =>
    case LoginStep(_, _, _, _) => LoginKeepsKnown(s, step);
    case LogoutStep(jwt) => LogoutKeepsKnown(s, jwt);
    case Request(jwt, call, throws) => RequestKeepsKnown(s, jwt, call, throws);
  }

  lemma {:induction false} KnownInRun(tr: seq<State>, steps: seq<Step>, n: nat)
    requires IsRun(tr, steps) && n < |tr|
    ensures Known(tr[n])
  {
    if n > 0 {
      KnownInRun(tr, steps, n - 1);
      assert Next(tr[n - 1], steps[n - 1], tr[n]);
      KnownPreserved(tr[n - 1], steps[n - 1]);
    }
  }

  // ---- One update at a time ----

  lemma RunOne(st: Slots, id: string, op: Op, now: int)
    ensures RunOps(st, id, [op], now) == Attempt(st, RunOp(st, Slot(SessionNs, id), op, now))
  {
    assert [op][1..] == [];
  }

  /** A successful update stores the JSON of the updated record; a failed one changes nothing. */
  lemma RunOneEffect(st: Slots, id: string, op: Op, now: int)
    ensures var r := RunOps(st, id, [op], now);
            if r.ok then
              && Stored(st, id) && Stored(r.store, id) && ApplyOp(op, SessionAt(st, id)).Ok?
              && SessionAt(r.store, id).flows == JsonFlows(ApplyOp(op, SessionAt(st, id)).value.flows)
              && SessionAt(r.store, id).permissions == JsonProp(ApplyOp(op, SessionAt(st, id)).value.permissions)
            else r.store == st
  {
    RunOne(st, id, op, now);
  }

  lemma {:induction false} RunOpsAppend(st: Slots, id: string, first: seq<Op>, rest: seq<Op>, now: int)
    ensures var r := RunOps(st, id, first, now);
            RunOps(st, id, first + rest, now) == if r.ok then RunOps(r.store, id, rest, now) else r
    decreases |first|
  {
    if first == [] {
      assert first + rest == rest;
    } else {
      assert (first + rest)[1..] == first[1..] + rest;
      var next := Attempt(st, RunOp(st, Slot(SessionNs, id), first[0], now));
      RunOpsAppend(next.store, id, first[1..], rest, now);
    }
  }
}
