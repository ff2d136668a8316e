/**
 The expiring store and the read-modify-write of one update, for any kind of key: the services
 run it on Redis key strings, the machines on slots, and rendering a slot relates the two.
 */
module SessionStore {
  import opened Prelude
  import opened SessionKeys
  import opened SessionRecord

  /** What a TOKEN entry and a SESSION entry hold. */
  datatype Record = TokenRecord(key: string, id: string) | SessionRec(session: SessionValue)

  /** Readable while the clock, in milliseconds, is before the deadline. */
  datatype Entry = Entry(record: Record, deadline: int)

  predicate Live<K(==)>(st: map<K, Entry>, k: K, now: int) {
    k in st && now < st[k].deadline
  }

  /** SETEX: fails and changes nothing unless the time to live is a positive number of seconds. */
  function SetEx<K>(st: map<K, Entry>, k: K, ttl: Option<int>, record: Record, now: int): Result<map<K, Entry>, Error> {
    if ttl.Some? && ttl.value > 0 then Ok(st[k := Entry(record, now + 1000 * ttl.value)]) else Err(StoreError)
  }

  /** getSessionValue of the SESSION service. */
  function ReadSession<K>(st: map<K, Entry>, k: K, now: int): Result<SessionValue, Error> {
    if Live(st, k, now) && st[k].record.SessionRec? then Ok(st[k].record.session) else Err(Unauthorized)
  }

  /** The JSON text addSession writes: its own exp and iat unless the value brings them. */
  function Stamp(v: SessionValue, now: int, ttl: Option<int>): SessionValue {
    Json(v.(
      exp := if v.exp.Missing? then (if ttl.Some? then Value(now / 1000 + ttl.value) else Undefined) else v.exp,
      iat := if v.iat.Missing? then Value(now / 1000) else v.iat))
  }

  /** `session.exp - Math.floor(Date.now() / 1000)`; no number without an exp. */
  function UpdateTtl(s: SessionValue, now: int): Option<int> {
    if s.exp.Value? then Some(s.exp.value - now / 1000) else None
  }

  /** A write computed from what was read, on its way to the store. */
  datatype Write = Write(session: SessionValue, ttl: Option<int>)

  function Prepare(op: Op, s: SessionValue, now: int): Result<Write, Error> {
    match ApplyOp(op, s)
    case Err(e) => Err(e)
    case Ok(v) => Ok(Write(Stamp(v, now, UpdateTtl(s, now)), UpdateTtl(s, now)))
  }

  /** addFlowSession looks at the type before it reads. */
  predicate RefusedUnread(op: Op) {
    op.AddFlow? && op.patch.flow.None?
  }

  /** One update with nothing in between: read, compute, write. */
  function RunOp<K>(st: map<K, Entry>, k: K, op: Op, now: int): Result<map<K, Entry>, Error> {
    if RefusedUnread(op) then Err(SorrySomethingWentWrong)
    else
      match ReadSession(st, k, now)
      case Err(e) => Err(e)
      case Ok(s) =>
        match Prepare(op, s, now)
        case Err(e) => Err(e)
        case Ok(w) => SetEx(st, k, w.ttl, SessionRec(w.session), now)
  }

  /** addSession of a new session under its bound id. */
  function FreshWrite(session: SessionValue, bound: string, lifetime: int, now: int): Write {
    Write(Stamp(session.(key := bound), now, Some(lifetime)), Some(lifetime))
  }

  /**
   The service on an expiring store is the simple session map: a successful update performs the
   simple update on one session, keeps its exp, iat, key and other fields, puts the deadline within a
   second after exp, and touches no other entry.
   */
  lemma RunOpRefines<K>(st: map<K, Entry>, k: K, op: Op, now: int)
    requires RunOp(st, k, op, now).Ok?
    ensures var st' := RunOp(st, k, op, now).value;
            && st'.Keys == st.Keys
            && (forall j :: j in st && j != k ==> st'[j] == st[j])
            && ReadSession(st, k, now).Ok? && ReadSession(st', k, now).Ok?
            && var s, s' := ReadSession(st, k, now).value, ReadSession(st', k, now).value;
            && SimpleOp(op, Simplify(s)) == Some(Simplify(s'))
            && s'.exp == s.exp && s'.key == s.key && s'.rest == s.rest && (s.iat.Value? ==> s'.iat == s.iat)
            && s.exp.Value? && 0 <= st'[k].deadline - 1000 * s.exp.value < 1000
  {
    var s := ReadSession(st, k, now).value;
    var v := ApplyOp(op, s).value;
    UpdateRefines(op, s);
    JsonKeepsSimple(v);
    JsonKeepsSimple(v.(iat := if v.iat.Missing? then Value(now / 1000) else v.iat));
  }

  /** An update fails, changing nothing, exactly when one of its four steps does. */
  lemma RunOpFails<K>(st: map<K, Entry>, k: K, op: Op, now: int)
    ensures RunOp(st, k, op, now).Err? <==>
              || RefusedUnread(op)
              || ReadSession(st, k, now).Err?
              || ApplyOp(op, ReadSession(st, k, now).value).Err?
              || !ReadSession(st, k, now).value.exp.Value?
              || ReadSession(st, k, now).value.exp.value <= now / 1000
  {
  }

  /** Which error an update fails with. */
  lemma RunOpErrors<K>(st: map<K, Entry>, k: K, op: Op, now: int)
    requires RunOp(st, k, op, now).Err?
    ensures RunOp(st, k, op, now).error ==
            if op.AddFlow? && op.patch.flow.None? then SorrySomethingWentWrong
            else if !(k in st && now < st[k].deadline && st[k].record.SessionRec?) then Unauthorized
            else if op.AddFlowPermissions? && op.flow !in Simplify(st[k].record.session).flows then SessionNotAvailable
            else if ApplyOp(op, st[k].record.session).Err? then TypeError
            else StoreError
  {
    if ReadSession(st, k, now).Ok? {
      UpdateFails(op, st[k].record.session);
    }
  }

  /** clearFlowSession takes out that one flow, whether there was one or not, and leaves the rest of the session. */
  lemma ClearedFlowIsGone<K>(st: map<K, Entry>, k: K, flow: FlowType, now: int)
    requires RunOp(st, k, ClearFlow(flow), now).Ok?
    ensures var st' := RunOp(st, k, ClearFlow(flow), now).value;
            && k in st && st[k].record.SessionRec? && k in st' && st'[k].record.SessionRec?
            && var s, s' := Simplify(st[k].record.session), Simplify(st'[k].record.session);
            && flow !in s'.flows && s'.permissions == s.permissions && s'.exp == s.exp
            && forall t :: t != flow ==>
                 (t in s'.flows <==> t in s.flows) && (t in s.flows ==> s'.flows[t] == s.flows[t])
  {
    RunOpRefines(st, k, ClearFlow(flow), now);
  }

  // ---- Key strings and slots ----

  /** The string store holds exactly the rendered slots. */
  ghost predicate Represents(strings: map<string, Entry>, slots: map<Slot, Entry>) {
    && strings.Keys == RenderAll(slots.Keys)
    && forall slot :: slot in slots ==> Render(slot) in strings && strings[Render(slot)] == slots[slot]
  }

  lemma RenderedKey(strings: map<string, Entry>, slots: map<Slot, Entry>, slot: Slot)
    requires Represents(strings, slots)
    ensures Render(slot) in strings <==> slot in slots
  {
    if Render(slot) in strings {
      var other :| other in slots.Keys && Render(other) == Render(slot);
      RenderInjective(other, slot);
    }
  }

  /** The slots determine the string store. */
  lemma RepresentsUnique(a: map<string, Entry>, b: map<string, Entry>, slots: map<Slot, Entry>)
    requires Represents(a, slots) && Represents(b, slots)
    ensures a == b
  {
    forall k | k in a
      ensures k in b && a[k] == b[k]
    {
      var slot :| slot in slots.Keys && Render(slot) == k;
    }
  }

  lemma RepresentsUpdate(strings: map<string, Entry>, slots: map<Slot, Entry>, slot: Slot, e: Entry)
    requires Represents(strings, slots)
    ensures Represents(strings[Render(slot) := e], slots[slot := e])
  {
    var strings', slots' := strings[Render(slot) := e], slots[slot := e];
    forall other | other in slots'
      ensures Render(other) in strings' && strings'[Render(other)] == slots'[other]
    {
      if Render(other) == Render(slot) {
        RenderInjective(other, slot);
      }
    }
    assert strings'.Keys == strings.Keys + {Render(slot)};
    assert RenderAll(slots'.Keys) == RenderAll(slots.Keys) + {Render(slot)} by {
      assert slot in slots'.Keys;
      assert forall x :: x in slots.Keys ==> x in slots'.Keys;
    }
  }

  lemma RepresentsDelete(strings: map<string, Entry>, slots: map<Slot, Entry>, slot: Slot)
    requires Represents(strings, slots)
    ensures Represents(strings - {Render(slot)}, slots - {slot})
  {
    var strings', slots' := strings - {Render(slot)}, slots - {slot};
    forall other | other in slots'
      ensures Render(other) in strings' && strings'[Render(other)] == slots'[other]
    {
      if Render(other) == Render(slot) {
        RenderInjective(other, slot);
      }
    }
    assert strings'.Keys == strings.Keys - {Render(slot)};
    forall k | k in strings'.Keys
      ensures k in RenderAll(slots'.Keys)
    {
      var other :| other in slots.Keys && Render(other) == k;
      assert other in slots'.Keys;
    }
  }

  /** On represented stores an update through its Redis key is the update of its slot. */
  lemma RunOpOnStrings(strings: map<string, Entry>, slots: map<Slot, Entry>, slot: Slot, op: Op, now: int)
    requires Represents(strings, slots)
    ensures RunOp(strings, Render(slot), op, now).Ok? <==> RunOp(slots, slot, op, now).Ok?
    ensures RunOp(slots, slot, op, now).Ok? ==>
              Represents(RunOp(strings, Render(slot), op, now).value, RunOp(slots, slot, op, now).value)
    ensures RunOp(slots, slot, op, now).Err? ==>
              RunOp(strings, Render(slot), op, now).error == RunOp(slots, slot, op, now).error
  {
    RenderedKey(strings, slots, slot);
    assert ReadSession(strings, Render(slot), now) == ReadSession(slots, slot, now);
    if RunOp(slots, slot, op, now).Ok? {
      RepresentsUpdate(strings, slots, slot, RunOp(slots, slot, op, now).value[slot]);
    }
  }

  // ---- Sessions by slot ----

  type Slots = map<Slot, Entry>

  /** What login passes to authenticate: no permissions, no flows. */
  function NewSession(rest: map<string, string>): SessionValue {
    SessionValue(Missing, Missing, "", Value([]), map[], rest)
  }

  predicate Stored(st: Slots, id: string) {
    Slot(SessionNs, id) in st && st[Slot(SessionNs, id)].record.SessionRec?
  }

  function SessionAt(st: Slots, id: string): SessionValue
    requires Stored(st, id)
  {
    st[Slot(SessionNs, id)].record.session
  }

  /** The session stored under `id` holds the permission. */
  predicate Holds(st: Slots, id: string, p: Perm) {
    Stored(st, id) && Has(SessionAt(st, id), p)
  }

  function DeadlineAt(st: Slots, id: string): int
    requires Stored(st, id)
  {
    st[Slot(SessionNs, id)].deadline
  }

  /** A session stored under an id carries that id as its key; a token's content is bound to its own slot. */
  ghost predicate KeyedStore(st: Slots) {
    && (forall id :: Slot(SessionNs, id) in st ==>
          st[Slot(SessionNs, id)].record.SessionRec? && st[Slot(SessionNs, id)].record.session.key == id)
    && (forall id :: Slot(TokenNs, id) in st ==>
          && st[Slot(TokenNs, id)].record.TokenRecord?
          && BoundId(st[Slot(TokenNs, id)].record.key, st[Slot(TokenNs, id)].record.id) == id)
  }
}
