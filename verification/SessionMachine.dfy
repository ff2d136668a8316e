/**
 Requests against the session store, interleaved at every storage operation. A request reads its
 token, takes its snapshot, runs its handler's updates and then, after a successful response,
 the grants; each update is one get and, any time later, one set. Logins, deletions and the
 clock interleave freely.
 */
module SessionMachine {
  import opened Prelude
  import opened SessionKeys
  import opened SessionRecord
  import opened SessionStore
  import opened TokenIssue
  import opened PermissionGate

  datatype Phase =
    | AtToken
    | AtSession
    | Idle(granting: bool, todo: seq<Op>)                                 // before the next get
    | Writing(granting: bool, target: string, write: Write, at: int, todo: seq<Op>)  // before the set, computed at `at`
    | Ended

  /**
   `id` is the bound id in the presented token, `user` the one in the stored token content, which
   the handler uses, and `grantKey` the key of the session snapshot, which the grants use.
   */
  datatype Process = Process(
    endpoint: Endpoint, id: string, user: string, grantKey: string, handler: seq<Op>, phase: Phase)

  /**
   `born` is the exp each session was created with, `worstDelay` the longest time any write took
   from its computation to the store.
   */
  datatype State = State(store: Slots, now: int, procs: seq<Process>, born: map<string, int>, worstDelay: int)

  datatype Step =
    | Tick(ms: nat)
    | Delete(slot: Slot)
    | WriteToken(key: string, id: string, ttl: int)
    | Login(bound: string, rest: map<string, string>, lifetime: int)
    | Arrive(endpoint: Endpoint, id: string, handler: seq<Op>)
    | GetToken(p: nat, valid: bool)
    | GetSession(p: nat, valid: bool)
    | Get(p: nat, at: int)
    | Set(p: nat)
    | HandlerEnds(p: nat, success: bool)

  function Init(now: int): State {
    State(map[], now, [], map[], 0)
  }

  /** An update a handler may make: a flow written without permissions, or cleared. */
  predicate HandlerOp(op: Op) {
    (op.AddFlow? && (op.patch.permissions.Value? ==> op.patch.permissions.value == [])) || op.ClearFlow?
  }

  function AfterToken(st: Slots, now: int, p: Process, valid: bool): Process {
    var slot := Slot(TokenNs, p.id);
    if valid && Live(st, slot, now) && st[slot].record.TokenRecord?
    then p.(user := BoundId(st[slot].record.key, st[slot].record.id), phase := AtSession)
    else p.(phase := Ended)
  }

  function AfterSession(st: Slots, now: int, p: Process, valid: bool): Process {
    match ReadSession(st, Slot(SessionNs, p.id), now)
    case Err(_) => p.(phase := Ended)
    case Ok(s) =>
      if valid && Check(p.endpoint, s) then p.(grantKey := s.key, phase := Idle(false, p.handler))
      else p.(phase := Ended)
  }

  function Target(p: Process): string
    requires p.phase.Idle?
  {
    if p.phase.granting then p.grantKey else p.user
  }

  /**
   The read takes place now; the clock shows `at` when the write is computed from it, which nothing
   else can see and which the set waits for.
   */
  function AfterGet(st: Slots, now: int, p: Process, at: int): Process
    requires p.phase.Idle? && p.phase.todo != []
  {
    var op, target := p.phase.todo[0], Target(p);
    if RefusedUnread(op) then p.(phase := Ended)
    else
      match ReadSession(st, Slot(SessionNs, target), now)
      case Err(_) => p.(phase := Ended)
      case Ok(s) =>
        match Prepare(op, s, at)
        case Err(_) => p.(phase := Ended)
        case Ok(w) => p.(phase := Writing(p.phase.granting, target, w, at, p.phase.todo[1..]))
  }

  function WriteOutcome(st: Slots, now: int, p: Process): Result<Slots, Error>
    requires p.phase.Writing?
  {
    SetEx(st, Slot(SessionNs, p.phase.target), p.phase.write.ttl, SessionRec(p.phase.write.session), now)
  }

  function AfterSet(st: Slots, now: int, p: Process): Process
    requires p.phase.Writing?
  {
    if WriteOutcome(st, now, p).Ok? then p.(phase := Idle(p.phase.granting, p.phase.todo)) else p.(phase := Ended)
  }

  function StoreAfterSet(st: Slots, now: int, p: Process): Slots
    requires p.phase.Writing?
  {
    Attempt(st, WriteOutcome(st, now, p)).store
  }

  /** The response went through the two interceptors; only the code SUCCESS lets the grants start. */
  function AfterHandler(p: Process, success: bool): Process {
    if success then p.(phase := Idle(true, GrantOps(p.endpoint))) else p.(phase := Ended)
  }

  function Max(a: int, b: int): int {
    if a < b then b else a
  }

  function LoginProcess(s: State, bound: string, rest: map<string, string>, lifetime: int): Process {
    Process(NO_METADATA, bound, bound, bound, [],
            Writing(true, bound, FreshWrite(NewSession(rest), bound, lifetime, s.now), s.now, []))
  }

  predicate At(s: State, p: nat) {
    p < |s.procs|
  }

  /** `table` is the set of endpoints there are; a handler can end at any point before the response. */
  predicate Enabled(table: set<Endpoint>, s: State, step: Step) {
    match step
    case Tick(_) => true
    case Delete(_) => true
    case WriteToken(_, _, _) => true
    case Login(bound, _, _) => bound !in s.born
    case Arrive(endpoint, _, handler) => endpoint in table && forall op | op in handler :: HandlerOp(op)
    case GetToken(p, _) => At(s, p) && s.procs[p].phase.AtToken?
    case GetSession(p, _) => At(s, p) && s.procs[p].phase.AtSession?
    case Get(p, at) => At(s, p) && s.procs[p].phase.Idle? && s.procs[p].phase.todo != [] && s.now <= at
    case Set(p) => At(s, p) && s.procs[p].phase.Writing? && s.procs[p].phase.at <= s.now
    case HandlerEnds(p, _) => At(s, p) && s.procs[p].phase.Idle? && !s.procs[p].phase.granting
  }

  function Apply(table: set<Endpoint>, s: State, step: Step): State
    requires Enabled(table, s, step)
  {
    match step
    case Tick(ms) => s.(now := s.now + ms)
    case Delete(slot) => s.(store := s.store - {slot})
    case WriteToken(key, id, ttl) =>
      var written := SetEx(s.store, Slot(TokenNs, BoundId(key, id)), Some(ttl), TokenRecord(key, id), s.now);
      s.(store := Attempt(s.store, written).store)
    case Login(bound, rest, lifetime) =>
      s.(procs := s.procs + [LoginProcess(s, bound, rest, lifetime)], born := s.born[bound := s.now / 1000 + lifetime])
    case Arrive(endpoint, id, handler) => s.(procs := s.procs + [Process(endpoint, id, "", "", handler, AtToken)])
    case GetToken(p, valid) => s.(procs := s.procs[p := AfterToken(s.store, s.now, s.procs[p], valid)])
    case GetSession(p, valid) => s.(procs := s.procs[p := AfterSession(s.store, s.now, s.procs[p], valid)])
    case Get(p, at) => s.(procs := s.procs[p := AfterGet(s.store, s.now, s.procs[p], at)])
    case Set(p) =>
      s.(store := StoreAfterSet(s.store, s.now, s.procs[p]),
         procs := s.procs[p := AfterSet(s.store, s.now, s.procs[p])],
         worstDelay := Max(s.worstDelay, s.now - s.procs[p].phase.at))
    case HandlerEnds(p, success) => s.(procs := s.procs[p := AfterHandler(s.procs[p], success)])
  }

  ghost predicate Next(table: set<Endpoint>, s: State, step: Step, s': State) {
    Enabled(table, s, step) && s' == Apply(table, s, step)
  }

  /** `tr` are the states and `steps` the transitions of a run from the empty store. */
  ghost predicate IsRun(table: set<Endpoint>, tr: seq<State>, steps: seq<Step>) {
    && |tr| == |steps| + 1
    && (exists now :: tr[0] == Init(now))
    && forall i {:trigger steps[i]} :: 0 <= i < |steps| ==> Next(table, tr[i], steps[i], tr[i + 1])
  }

  // ---- Extending runs ----

  datatype Run = Run(tr: seq<State>, steps: seq<Step>)

  ghost predicate Valid(table: set<Endpoint>, r: Run) {
    IsRun(table, r.tr, r.steps)
  }

  function Last(r: Run): State
    requires |r.tr| > 0
  {
    r.tr[|r.tr| - 1]
  }

  lemma Extend(table: set<Endpoint>, r: Run, step: Step) returns (r': Run)
    requires Valid(table, r) && Enabled(table, Last(r), step)
    ensures Valid(table, r') && Last(r') == Apply(table, Last(r), step)
  {
    r' := Run(r.tr + [Apply(table, Last(r), step)], r.steps + [step]);
  }

  /** A get with its set right after it is one uninterrupted update. */
  lemma GetThenSet(st: Slots, now: int, p: Process)
    requires p.phase.Idle? && p.phase.todo != []
    ensures var r := RunOp(st, Slot(SessionNs, Target(p)), p.phase.todo[0], now);
            var p' := AfterGet(st, now, p, now);
            if p'.phase.Writing? then
              && p'.phase.at == now
              && StoreAfterSet(st, now, p') == Attempt(st, r).store
              && AfterSet(st, now, p') ==
                 p.(phase := if r.Ok? then Idle(p.phase.granting, p.phase.todo[1..]) else Ended)
            else p'.phase.Ended? && r.Err?
  {
  }

  // ---- Sessions in a store ----

  /** A stored session is the one stored before, or the one a Set step has just put there. */
  lemma StoredAfter(table: set<Endpoint>, s: State, step: Step, id: string)
    requires Enabled(table, s, step) && Stored(Apply(table, s, step).store, id)
    ensures var st' := Apply(table, s, step).store;
            || (Stored(s.store, id) && SessionAt(st', id) == SessionAt(s.store, id) &&
                DeadlineAt(st', id) == DeadlineAt(s.store, id))
            || (step.Set? &&
                var phase := s.procs[step.p].phase;
                phase.target == id && SessionAt(st', id) == phase.write.session &&
                phase.write.ttl.Some? && DeadlineAt(st', id) == s.now + 1000 * phase.write.ttl.value)
  {
  }

  // ---- What a process is up to ----

  /** A process only ever has updates to make that its kind of code makes. */
  ghost predicate Proper(table: set<Endpoint>, p: Process) {
    && (p.endpoint in table || p.endpoint == NO_METADATA)
    && (forall op | op in p.handler :: HandlerOp(op))
    && (p.phase.Idle? || p.phase.Writing? ==>
          forall op | op in p.phase.todo :: if p.phase.granting then op in GrantOps(p.endpoint) else HandlerOp(op))
  }

  ghost predicate AllProper(table: set<Endpoint>, s: State) {
    forall i :: 0 <= i < |s.procs| ==> Proper(table, s.procs[i])
  }

  lemma ProperPreserved(table: set<Endpoint>, s: State, step: Step)
    requires AllProper(table, s) && Enabled(table, s, step)
    ensures AllProper(table, Apply(table, s, step))
  {
    if step.Get? {
      var todo := s.procs[step.p].phase.todo;
      assert forall op :: op in todo[1..] ==> op in todo;
    }
  }

  // ---- Keys ----

  /** The guard, the handler and the grants of one request all work on the same id. */
  ghost predicate Keyed(p: Process) {
    && (p.phase.AtSession? || p.phase.Idle? || p.phase.Writing? ==> p.user == p.id)
    && (p.phase.Idle? || p.phase.Writing? ==> p.grantKey == p.id)
    && (p.phase.Writing? ==> p.phase.target == p.id && p.phase.write.session.key == p.id)
  }

  ghost predicate AllKeyed(s: State) {
    KeyedStore(s.store) && forall i :: 0 <= i < |s.procs| ==> Keyed(s.procs[i])
  }

  lemma GetKeepsKeys(st: Slots, now: int, p: Process, at: int)
    requires KeyedStore(st) && Keyed(p) && p.phase.Idle? && p.phase.todo != []
    ensures Keyed(AfterGet(st, now, p, at))
  {
    var op := p.phase.todo[0];
    if ReadSession(st, Slot(SessionNs, p.id), now).Ok? {
      UpdateRefines(op, ReadSession(st, Slot(SessionNs, p.id), now).value);
    }
  }

  lemma KeyedPreserved(table: set<Endpoint>, s: State, step: Step)
    requires AllKeyed(s) && Enabled(table, s, step)
    ensures AllKeyed(Apply(table, s, step))
  {
    if step.Get? {
      GetKeepsKeys(s.store, s.now, s.procs[step.p], step.at);
    }
  }

  lemma {:induction false} KeyedInRun(table: set<Endpoint>, tr: seq<State>, steps: seq<Step>, n: nat)
    requires IsRun(table, tr, steps) && n < |tr|
    ensures AllKeyed(tr[n]) && AllProper(table, tr[n])
  {
    if n > 0 {
      KeyedInRun(table, tr, steps, n - 1);
      assert Next(table, tr[n - 1], steps[n - 1], tr[n]);
      KeyedPreserved(table, tr[n - 1], steps[n - 1]);
      ProperPreserved(table, tr[n - 1], steps[n - 1]);
    }
  }

  /** In every interleaved run: a stored session's key is its id, and every write goes to the record the guard read. */
  lemma KeyConsistency(table: set<Endpoint>, tr: seq<State>, steps: seq<Step>, n: nat)
    requires IsRun(table, tr, steps) && n < |tr|
    ensures forall id :: Slot(SessionNs, id) in tr[n].store ==>
              Stored(tr[n].store, id) && SessionAt(tr[n].store, id).key == id
    ensures forall i :: 0 <= i < |tr[n].procs| && tr[n].procs[i].phase.Idle? ==>
              Target(tr[n].procs[i]) == tr[n].procs[i].id
    ensures forall i :: 0 <= i < |tr[n].procs| && tr[n].procs[i].phase.Writing? ==>
              tr[n].procs[i].phase.target == tr[n].procs[i].id
  {
    KeyedInRun(table, tr, steps, n);
  }

  // ---- Permission lists ----

  ghost predicate UniqueStore(st: Slots) {
    forall id :: Stored(st, id) ==> UniqueLists(SessionAt(st, id))
  }

  ghost predicate UniqueWrite(p: Process) {
    p.phase.Writing? ==> UniqueLists(p.phase.write.session)
  }

  ghost predicate AllUnique(s: State) {
    UniqueStore(s.store) && forall i :: 0 <= i < |s.procs| ==> UniqueWrite(s.procs[i])
  }

  lemma GetKeepsUnique(table: set<Endpoint>, st: Slots, now: int, p: Process, at: int)
    requires UniqueStore(st) && Proper(table, p) && p.phase.Idle? && p.phase.todo != []
    ensures UniqueWrite(AfterGet(st, now, p, at))
  {
    var op := p.phase.todo[0];
    var r := ReadSession(st, Slot(SessionNs, Target(p)), now);
    assert op in p.phase.todo;
    if r.Ok? && ApplyOp(op, r.value).Ok? {
      assert Stored(st, Target(p));
      UpdateKeepsUnique(op, r.value);
      StampKeepsLists(ApplyOp(op, r.value).value, at, UpdateTtl(r.value, at));
    }
  }

  /** exp and iat aside, stamping is the JSON round trip. */
  lemma StampKeepsLists(v: SessionValue, now: int, ttl: Option<int>)
    ensures UniqueLists(Json(v)) ==> UniqueLists(Stamp(v, now, ttl))
    ensures forall p :: Has(Stamp(v, now, ttl), p) <==> Has(Json(v), p)
  {
    var w := Stamp(v, now, ttl);
    assert w.permissions == Json(v).permissions && w.flows == Json(v).flows;
    assert forall t: FlowType :: FlowList(w, t) == FlowList(Json(v), t);
  }

  lemma UniquePreserved(table: set<Endpoint>, s: State, step: Step)
    requires AllUnique(s) && AllProper(table, s) && Enabled(table, s, step)
    ensures AllUnique(Apply(table, s, step))
  {
    var s' := Apply(table, s, step);
    forall id | Stored(s'.store, id)
      ensures UniqueLists(SessionAt(s'.store, id))
    {
      StoredAfter(table, s, step, id);
    }
    match step
    case Get(p, at) => GetKeepsUnique(table, s.store, s.now, s.procs[p], at);
    case _ =>
  }

  /** In every interleaved run no stored permission list repeats a permission. */
  lemma {:induction false} NoDuplicates(table: set<Endpoint>, tr: seq<State>, steps: seq<Step>, n: nat)
    requires IsRun(table, tr, steps) && n < |tr|
    ensures AllUnique(tr[n])
  {
    if n > 0 {
      NoDuplicates(table, tr, steps, n - 1);
      KeyedInRun(table, tr, steps, n - 1);
      assert Next(table, tr[n - 1], steps[n - 1], tr[n]);
      UniquePreserved(table, tr[n - 1], steps[n - 1]);
    }
  }
}
