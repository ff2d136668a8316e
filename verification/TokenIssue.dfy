/**
 Issuing and revoking tokens on the store. createToken does not wait for the deletion of the
 user's older entries; the theorem is that, for a fresh id, no interleaving of those deletions
 with the two new writes is visible in the end.
 */
module TokenIssue {
  import opened Prelude
  import opened SessionKeys
  import opened SessionRecord
  import opened SessionStore

  function LiveSlots(st: Slots, now: int): set<Slot> {
    set slot | slot in st && Live(st, slot, now)
  }

  /** The ids createToken finds for a user. */
  function ExistingIds(st: Slots, key: string, id: string, now: int): set<string> {
    LookupKeys(RenderAll(LiveSlots(st, now)), LookupPattern(key, id))
  }

  /** clearSession for all the given ids: both namespaces. */
  function ClearIds(st: Slots, ids: set<string>): Slots {
    map slot | slot in st && slot.id !in ids :: st[slot]
  }

  /** The store after a call, and whether the call succeeded. */
  datatype Outcome = Outcome(store: Slots, ok: bool)

  function Attempt(st: Slots, r: Result<Slots, Error>): Outcome {
    if r.Ok? then Outcome(r.value, true) else Outcome(st, false)
  }

  function CreateToken(st: Slots, key: string, id: string, multiple: bool, expireTime: int, now: int): Outcome {
    var cleared := if multiple then st else ClearIds(st, ExistingIds(st, key, id, now));
    Attempt(cleared, SetEx(cleared, Slot(TokenNs, BoundId(key, id)), Some(expireTime), TokenRecord(key, id), now))
  }

  /** `sessionLifeTime || expireTime` */
  function Lifetime(sessionLifeTime: Option<int>, expireTime: int): int {
    if sessionLifeTime.Some? && sessionLifeTime.value != 0 then sessionLifeTime.value else expireTime
  }

  function Authenticate(
    st: Slots, key: string, id: string, session: SessionValue, multiple: bool,
    expireTime: int, sessionLifeTime: Option<int>, now: int): Outcome
  {
    var issued := CreateToken(st, key, id, multiple, expireTime, now);
    if !issued.ok then issued
    else
      var bound := BoundId(key, id);
      var w := FreshWrite(session, bound, Lifetime(sessionLifeTime, expireTime), now);
      Attempt(issued.store, SetEx(issued.store, Slot(SessionNs, bound), w.ttl, SessionRec(w.session), now))
  }

  /** What authenticate leaves: token and session of the new id, each with its lifetime, and what is not cleared. */
  lemma AuthenticateLeaves(
    st: Slots, key: string, id: string, session: SessionValue, multiple: bool,
    expireTime: int, sessionLifeTime: Option<int>, now: int)
    requires session.exp.Missing? && session.iat.Missing?
    ensures var o := Authenticate(st, key, id, session, multiple, expireTime, sessionLifeTime, now);
            var life :=
              if sessionLifeTime == None || sessionLifeTime == Some(0) then expireTime else sessionLifeTime.value;
            var token, slot := Slot(TokenNs, BoundId(key, id)), Slot(SessionNs, BoundId(key, id));
            && (o.ok <==> expireTime > 0 && life > 0)
            && (expireTime > 0 ==>
                  token in o.store && o.store[token] == Entry(TokenRecord(key, id), now + 1000 * expireTime))
            && (o.ok ==>
                  && slot in o.store && o.store[slot].deadline == now + 1000 * life && o.store[slot].record.SessionRec?
                  && var stored := o.store[slot].record.session;
                  && stored.exp == Value(now / 1000 + life) && stored.iat == Value(now / 1000)
                  && stored.key == BoundId(key, id) && stored.rest == session.rest
                  && UserList(stored) == UserList(session) && Simplify(stored).flows == Simplify(session).flows)
            && (forall other: Slot :: other !in {token, slot} ==>
                  && (other in o.store <==> other in st && (multiple || other.id !in ExistingIds(st, key, id, now)))
                  && (other in o.store ==> o.store[other] == st[other]))
  {
    JsonKeepsSimple(session);
  }

  function Logout(st: Slots, bound: string): Slots {
    ClearIds(st, {bound})
  }

  // ---- Interleaving ----

  datatype StoreOp = Del(slot: Slot) | Put(slot: Slot, entry: Entry)

  function Do(st: Slots, op: StoreOp): Slots {
    match op
    case Del(slot) => st - {slot}
    case Put(slot, e) => st[slot := e]
  }

  function Exec(st: Slots, ops: seq<StoreOp>): Slots
    decreases |ops|
  {
    if ops == [] then st else Exec(Do(st, ops[0]), ops[1..])
  }

  lemma ExecTwo(st: Slots, a: StoreOp, b: StoreOp, rest: seq<StoreOp>)
    ensures Exec(st, [a, b] + rest) == Exec(Do(Do(st, a), b), rest)
  {
    var ops := [a, b] + rest;
    assert ops[1..] == [b] + rest;
    assert ops[1..][1..] == rest;
  }

  /** `ops` is some interleaving of the tasks, each of which runs in its own order. */
  ghost predicate Interleaves(ops: seq<StoreOp>, tasks: seq<seq<StoreOp>>) {
    if ops == [] then forall j :: 0 <= j < |tasks| ==> tasks[j] == []
    else exists j :: 0 <= j < |tasks| && tasks[j] != [] && tasks[j][0] == ops[0] &&
           Interleaves(ops[1..], tasks[j := tasks[j][1..]])
  }

  /** The task of clearing one id: its TOKEN entry, then its SESSION entry. */
  function ClearTask(id: string): seq<StoreOp> {
    [Del(Slot(TokenNs, id)), Del(Slot(SessionNs, id))]
  }

  function ClearTasks(ids: seq<string>): seq<seq<StoreOp>> {
    seq(|ids|, i requires 0 <= i < |ids| => ClearTask(ids[i]))
  }

  ghost predicate OnlyDeletes(tasks: seq<seq<StoreOp>>) {
    forall j, i :: 0 <= j < |tasks| && 0 <= i < |tasks[j]| ==> tasks[j][i].Del?
  }

  function Touched(tasks: seq<seq<StoreOp>>): set<Slot> {
    set j, i | 0 <= j < |tasks| && 0 <= i < |tasks[j]| :: tasks[j][i].slot
  }

  function SlotsOf(ops: seq<StoreOp>): set<Slot> {
    set i | 0 <= i < |ops| :: ops[i].slot
  }

  lemma TouchedAfter(tasks: seq<seq<StoreOp>>, j: nat)
    requires j < |tasks| && tasks[j] != []
    ensures Touched(tasks) == Touched(tasks[j := tasks[j][1..]]) + {tasks[j][0].slot}
  {
    var rest := tasks[j := tasks[j][1..]];
    forall slot | slot in Touched(tasks)
      ensures slot in Touched(rest) + {tasks[j][0].slot}
    {
      var k, i :| 0 <= k < |tasks| && 0 <= i < |tasks[k]| && tasks[k][i].slot == slot;
      if k != j {
        assert rest[k][i].slot == slot;
      } else if i > 0 {
        assert rest[j][i - 1].slot == slot;
      }
    }
    forall slot | slot in Touched(rest)
      ensures slot in Touched(tasks)
    {
      var k, i :| 0 <= k < |rest| && 0 <= i < |rest[k]| && rest[k][i].slot == slot;
      if k == j {
        assert tasks[j][i + 1].slot == slot;
      } else {
        assert tasks[k][i].slot == slot;
      }
    }
  }

  /** Deleting tasks that touch none of the written slots might as well have run first. */
  lemma {:induction false} DeletesCommute(st: Slots, writes: seq<StoreOp>, clears: seq<seq<StoreOp>>, ops: seq<StoreOp>)
    requires Interleaves(ops, [writes] + clears)
    requires OnlyDeletes(clears) && Touched(clears) !! SlotsOf(writes)
    ensures Exec(st, ops) == Exec(st - Touched(clears), writes)
    decreases |ops|
  {
    var tasks := [writes] + clears;
    if ops == [] {
      assert tasks[0] == writes;
      assert forall j :: 0 <= j < |clears| ==> tasks[j + 1] == clears[j];
      assert Touched(clears) == {};
    } else {
      var j :| 0 <= j < |tasks| && tasks[j] != [] && tasks[j][0] == ops[0] &&
               Interleaves(ops[1..], tasks[j := tasks[j][1..]]);
      if j == 0 {
        WriteFirst(st, writes, clears, ops);
      } else {
        DeleteFirst(st, writes, clears, ops, j - 1);
      }
    }
  }

  lemma WriteFirst(st: Slots, writes: seq<StoreOp>, clears: seq<seq<StoreOp>>, ops: seq<StoreOp>)
    requires ops != [] && writes != [] && writes[0] == ops[0]
    requires Interleaves(ops[1..], ([writes] + clears)[0 := writes[1..]])
    requires OnlyDeletes(clears) && Touched(clears) !! SlotsOf(writes)
    ensures Exec(st, ops) == Exec(st - Touched(clears), writes)
    decreases |ops|, 0
  {
    assert ([writes] + clears)[0 := writes[1..]] == [writes[1..]] + clears;
    assert SlotsOf(writes[1..]) <= SlotsOf(writes);
    assert writes[0].slot in SlotsOf(writes);
    var next := Do(st, ops[0]);
    DeletesCommute(next, writes[1..], clears, ops[1..]);
    assert next - Touched(clears) == Do(st - Touched(clears), ops[0]);
  }

  lemma DeleteFirst(st: Slots, writes: seq<StoreOp>, clears: seq<seq<StoreOp>>, ops: seq<StoreOp>, j: nat)
    requires ops != [] && j < |clears| && clears[j] != [] && clears[j][0] == ops[0]
    requires Interleaves(ops[1..], ([writes] + clears)[j + 1 := clears[j][1..]])
    requires OnlyDeletes(clears) && Touched(clears) !! SlotsOf(writes)
    ensures Exec(st, ops) == Exec(st - Touched(clears), writes)
    decreases |ops|, 0
  {
    var rest := clears[j := clears[j][1..]];
    var slot := clears[j][0].slot;
    assert ([writes] + clears)[j + 1 := clears[j][1..]] == [writes] + rest;
    TouchedAfter(clears, j);
    DeletesCommute(st - {slot}, writes, rest, ops[1..]);
    assert st - {slot} - Touched(rest) == st - Touched(clears);
    assert Do(st, ops[0]) == st - {slot};
  }

  // ---- The clear of createToken ----

  /** Writes to the entries of one id, as authenticate and a renewal make them. */
  ghost predicate WritesOf(writes: seq<StoreOp>, bound: string) {
    writes != [] && forall i :: 0 <= i < |writes| ==> writes[i].Put? && writes[i].slot.id == bound
  }

  lemma TouchedByClear(ids: seq<string>)
    ensures forall slot: Slot :: slot in Touched(ClearTasks(ids)) <==> slot.id in ids
  {
    var tasks := ClearTasks(ids);
    forall slot: Slot
      ensures slot in Touched(tasks) <==> slot.id in ids
    {
      if slot.id in ids {
        var j :| 0 <= j < |ids| && ids[j] == slot.id;
        assert tasks[j][if slot.ns == TokenNs then 0 else 1].slot == slot;
      }
    }
  }

  lemma ClearTasksDelete(ids: seq<string>)
    ensures OnlyDeletes(ClearTasks(ids))
  {
  }

  lemma ClearedSlots(st: Slots, ids: seq<string>)
    ensures st - Touched(ClearTasks(ids)) == ClearIds(st, Elements(ids))
  {
    TouchedByClear(ids);
  }

  /** For a fresh id every interleaving ends where clearing everything first would have ended. */
  lemma ClearCommutes(st: Slots, ids: seq<string>, bound: string, writes: seq<StoreOp>, ops: seq<StoreOp>)
    requires Interleaves(ops, [writes] + ClearTasks(ids))
    requires WritesOf(writes, bound) && bound !in ids
    ensures Exec(st, ops) == Exec(ClearIds(st, Elements(ids)), writes)
  {
    var clears := ClearTasks(ids);
    TouchedByClear(ids);
    ClearTasksDelete(ids);
    ClearedSlots(st, ids);
    DeletesCommute(st, writes, clears, ops);
  }

  /** The writes of authenticate that SETEX accepts; a refused token write also prevents the session's. */
  function AuthWrites(
    key: string, id: string, session: SessionValue, expireTime: int, sessionLifeTime: Option<int>, now: int)
    : seq<StoreOp>
  {
    var bound, lifetime := BoundId(key, id), Lifetime(sessionLifeTime, expireTime);
    var token := Put(Slot(TokenNs, bound), Entry(TokenRecord(key, id), now + 1000 * expireTime));
    var record := SessionRec(FreshWrite(session, bound, lifetime, now).session);
    if expireTime <= 0 then []
    else if lifetime <= 0 then [token]
    else [token, Put(Slot(SessionNs, bound), Entry(record, now + 1000 * lifetime))]
  }

  lemma AuthWritesRun(
    st: Slots, key: string, id: string, session: SessionValue, expireTime: int, sessionLifeTime: Option<int>, now: int)
    ensures Exec(ClearIds(st, ExistingIds(st, key, id, now)),
                 AuthWrites(key, id, session, expireTime, sessionLifeTime, now)) ==
            Authenticate(st, key, id, session, false, expireTime, sessionLifeTime, now).store
  {
    var writes := AuthWrites(key, id, session, expireTime, sessionLifeTime, now);
    var cleared := ClearIds(st, ExistingIds(st, key, id, now));
    if |writes| == 1 {
      assert writes[1..] == [];
      assert Exec(cleared, writes) == Do(cleared, writes[0]);
    } else if |writes| == 2 {
      assert writes == [writes[0], writes[1]] + [];
      ExecTwo(cleared, writes[0], writes[1], []);
    }
  }

  /** authenticate does not wait for its clear; with a fresh id, every order of the deletions has one result. */
  lemma AuthenticateUnawaited(
    st: Slots, key: string, id: string, session: SessionValue, expireTime: int, sessionLifeTime: Option<int>, now: int,
    existing: seq<string>, ops: seq<StoreOp>)
    requires Elements(existing) == ExistingIds(st, key, id, now) && BoundId(key, id) !in existing
    requires Interleaves(ops, [AuthWrites(key, id, session, expireTime, sessionLifeTime, now)] + ClearTasks(existing))
    ensures Exec(st, ops) == Authenticate(st, key, id, session, false, expireTime, sessionLifeTime, now).store
  {
    var writes, clears := AuthWrites(key, id, session, expireTime, sessionLifeTime, now), ClearTasks(existing);
    TouchedByClear(existing);
    ClearTasksDelete(existing);
    ClearedSlots(st, existing);
    assert forall slot :: slot in SlotsOf(writes) ==> slot.id == BoundId(key, id);
    DeletesCommute(st, writes, clears, ops);
    AuthWritesRun(st, key, id, session, expireTime, sessionLifeTime, now);
  }

  function Flatten(tasks: seq<seq<StoreOp>>): seq<StoreOp> {
    if tasks == [] then [] else tasks[0] + Flatten(tasks[1..])
  }

  /** Running the tasks one after the other is an interleaving; empty tasks do not matter. */
  lemma {:induction false} SequentialInterleaves(done: nat, tasks: seq<seq<StoreOp>>)
    requires done <= |tasks| && forall j :: 0 <= j < done ==> tasks[j] == []
    ensures Interleaves(Flatten(tasks[done..]), tasks)
    decreases |Flatten(tasks[done..])|, |tasks| - done
  {
    if done < |tasks| {
      var ops := Flatten(tasks[done..]);
      if tasks[done] == [] {
        assert tasks[done..][1..] == tasks[done + 1..];
        assert ops == Flatten(tasks[done + 1..]);
        SequentialInterleaves(done + 1, tasks);
      } else {
        var rest := tasks[done := tasks[done][1..]];
        assert rest[done..][1..] == tasks[done..][1..];
        assert Flatten(rest[done..]) == ops[1..];
        SequentialInterleaves(done, rest);
        assert tasks[done][0] == ops[0];
      }
    }
  }

  lemma {:induction false} DeletedStaysDeleted(st: Slots, ops: seq<StoreOp>, slot: Slot)
    requires forall i :: 0 <= i < |ops| ==> ops[i].Del?
    requires slot !in st || slot in SlotsOf(ops)
    ensures slot !in Exec(st, ops)
  {
    if ops != [] {
      assert forall i :: 0 <= i < |ops[1..]| ==> ops[1..][i] == ops[i + 1];
      if slot in SlotsOf(ops) && slot != ops[0].slot {
        var i :| 0 <= i < |ops| && ops[i].slot == slot;
        assert ops[1..][i - 1].slot == slot;
      }
      DeletedStaysDeleted(st - {ops[0].slot}, ops[1..], slot);
    }
  }

  lemma {:induction false} FlattenOnlyDeletes(tasks: seq<seq<StoreOp>>)
    requires OnlyDeletes(tasks)
    ensures forall i :: 0 <= i < |Flatten(tasks)| ==> Flatten(tasks)[i].Del?
    ensures Touched(tasks) <= SlotsOf(Flatten(tasks))
  {
    if tasks != [] {
      assert forall j :: 0 <= j < |tasks[1..]| ==> tasks[1..][j] == tasks[j + 1];
      FlattenOnlyDeletes(tasks[1..]);
      var flat, tail := Flatten(tasks), Flatten(tasks[1..]);
      forall slot | slot in Touched(tasks)
        ensures slot in SlotsOf(flat)
      {
        var j, i :| 0 <= j < |tasks| && 0 <= i < |tasks[j]| && tasks[j][i].slot == slot;
        if j == 0 {
          assert flat[i].slot == slot;
        } else {
          assert tasks[1..][j - 1][i].slot == slot;
          assert slot in Touched(tasks[1..]);
          var k :| 0 <= k < |tail| && tail[k].slot == slot;
          assert flat[|tasks[0]| + k].slot == slot;
        }
      }
    }
  }

  lemma {:induction false} ExecAppend(st: Slots, first: seq<StoreOp>, rest: seq<StoreOp>)
    ensures Exec(st, first + rest) == Exec(Exec(st, first), rest)
    decreases |first|
  {
    if first == [] {
      assert first + rest == rest;
    } else {
      assert (first + rest)[1..] == first[1..] + rest;
      ExecAppend(Do(st, first[0]), first[1..], rest);
    }
  }

  lemma {:induction false} WrittenStays(st: Slots, writes: seq<StoreOp>, slot: Slot)
    requires forall i :: 0 <= i < |writes| ==> writes[i].Put?
    requires slot in st || slot in SlotsOf(writes)
    ensures slot in Exec(st, writes)
    decreases |writes|
  {
    if writes != [] {
      assert forall i :: 0 <= i < |writes[1..]| ==> writes[1..][i] == writes[i + 1];
      if slot in SlotsOf(writes) && slot != writes[0].slot {
        var i :| 0 <= i < |writes| && writes[i].slot == slot;
        assert writes[1..][i - 1].slot == slot;
      }
      WrittenStays(Do(st, writes[0]), writes[1..], slot);
    }
  }

  /** When the id is one of those being cleared, some interleaving loses everything just written. */
  lemma StaleIdIsLost(st: Slots, ids: seq<string>, bound: string, writes: seq<StoreOp>) returns (ops: seq<StoreOp>)
    requires WritesOf(writes, bound) && bound in ids
    ensures Interleaves(ops, [writes] + ClearTasks(ids))
    ensures forall slot: Slot :: slot.id == bound ==> slot !in Exec(st, ops)
  {
    var clears := ClearTasks(ids);
    var tasks := [writes] + clears;
    ops := Flatten(tasks);
    SequentialInterleaves(0, tasks);
    assert tasks[0..] == tasks && tasks[1..] == clears;
    TouchedByClear(ids);
    ClearTasksDelete(ids);
    FlattenOnlyDeletes(clears);
    assert ops == writes + Flatten(clears);
    ExecAppend(st, writes, Flatten(clears));
    forall slot: Slot | slot.id == bound
      ensures slot !in Exec(st, ops)
    {
      DeletedStaysDeleted(Exec(st, writes), Flatten(clears), slot);
    }
  }

  /** Not waiting for the clear is harmless if and only if the id is none of those being cleared. */
  lemma ClearIsInvisibleIff(st: Slots, ids: seq<string>, bound: string, writes: seq<StoreOp>)
    requires WritesOf(writes, bound)
    ensures (forall ops :: Interleaves(ops, [writes] + ClearTasks(ids)) ==>
               Exec(st, ops) == Exec(ClearIds(st, Elements(ids)), writes))
            <==> bound !in ids
  {
    if bound in ids {
      var ops := StaleIdIsLost(st, ids, bound, writes);
      WrittenStays(ClearIds(st, Elements(ids)), writes, writes[0].slot);
      assert Interleaves(ops, [writes] + ClearTasks(ids));
    } else {
      forall ops | Interleaves(ops, [writes] + ClearTasks(ids))
        ensures Exec(st, ops) == Exec(ClearIds(st, Elements(ids)), writes)
      {
        ClearCommutes(st, ids, bound, writes, ops);
      }
    }
  }

  /**
   A renewal writes the token again under the id it finds itself: as long as that token lives, some
   interleaving of the clear with the one write loses it.
   */
  lemma RenewalCanLoseToken(st: Slots, key: string, id: string, now: int, existing: seq<string>, token: Entry)
    returns (ops: seq<StoreOp>)
    requires GlobFree(key) && IdPosition(key, id) == |key| + 1 && Live(st, Slot(TokenNs, BoundId(key, id)), now)
    requires Elements(existing) == ExistingIds(st, key, id, now)
    ensures Interleaves(ops, [[Put(Slot(TokenNs, BoundId(key, id)), token)]] + ClearTasks(existing))
    ensures Slot(TokenNs, BoundId(key, id)) !in Exec(st, ops)
  {
    var bound := BoundId(key, id);
    LookupExact(LiveSlots(st, now), key, id);
    assert key + ":" <= bound && Slot(TokenNs, bound) in LiveSlots(st, now);
    assert bound in Elements(existing);
    ops := StaleIdIsLost(st, existing, bound, [Put(Slot(TokenNs, bound), token)]);
  }
}
