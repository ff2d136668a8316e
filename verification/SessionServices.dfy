/**
 The session services as code over one Redis storage: TokenSessionService, AuthSessionService
 and BaseAuthService. Their methods rewrite string-keyed entries; each is proved against the
 functions of `SessionStore` and `TokenIssue`.
 */
module SessionServices {
  import opened Prelude
  import opened SessionKeys
  import opened SessionRecord
  import opened SessionStore
  import TokenIssue

  function LiveKeys(st: map<string, Entry>, now: int): set<string> {
    set k | k in st && Live(st, k, now)
  }

  /** The store after a call that may have failed. */
  function Kept<K>(st: map<K, Entry>, r: Result<map<K, Entry>, Error>): map<K, Entry> {
    if r.Ok? then r.value else st
  }

  class RedisStorage {
    var entries: map<string, Entry>
    var now: int

    constructor (now: int)
      ensures entries == map[] && this.now == now
    {
      entries, this.now := map[], now;
    }

    method SetEX(key: string, expireInSeconds: Option<int>, record: Record) returns (ok: bool)
      modifies this`entries
      ensures ok <==> expireInSeconds.Some? && expireInSeconds.value > 0
      ensures entries == if ok then old(entries)[RedisKey(key) := Entry(record, now + 1000 * expireInSeconds.value)]
                         else old(entries)
      ensures entries == Kept(old(entries), SetEx(old(entries), RedisKey(key), expireInSeconds, record, now))
    {
      ok := expireInSeconds.Some? && expireInSeconds.value > 0;
      if ok {
        entries := entries[RedisKey(key) := Entry(record, now + 1000 * expireInSeconds.value)];
      }
    }

    method Get(key: string) returns (r: Option<Record>)
      ensures r.Some? <==> RedisKey(key) in entries && now < entries[RedisKey(key)].deadline
      ensures r.Some? ==> r.value == entries[RedisKey(key)].record
    {
      if RedisKey(key) in entries && now < entries[RedisKey(key)].deadline {
        return Some(entries[RedisKey(key)].record);
      }
      return None;
    }

    method Del(key: string)
      modifies this`entries
      ensures entries == old(entries) - {RedisKey(key)}
    {
      entries := entries - {RedisKey(key)};
    }

    /** The live keys that match, in any order, without the storage's own prefix. */
    method GetKeys(subPattern: string) returns (res: seq<string>)
      ensures forall r :: r in res <==>
                exists k :: k in LiveKeys(entries, now) && Glob(RedisKey(subPattern), k) &&
                            r == ReplaceFirst(k, RedisKey(""), "")
    {
      res := [];
      var matched := set k | k in LiveKeys(entries, now) && Glob(RedisKey(subPattern), k);
      var keys := matched;
      while keys != {}
        invariant keys <= matched
        invariant forall r :: r in res <==> exists k :: k in matched - keys && r == ReplaceFirst(k, RedisKey(""), "")
        decreases keys
      {
        var k :| k in keys;
        ghost var before, pushed := keys, res;
        keys := keys - {k};
        res := res + [ReplaceFirst(k, RedisKey(""), "")];
        assert matched - keys == matched - before + {k};
        assert forall r :: r in res <==> r in pushed || r == ReplaceFirst(k, RedisKey(""), "");
      }
    }
  }

  class TokenSessionService {
    const storage: RedisStorage

    constructor (storage: RedisStorage)
      ensures this.storage == storage
    {
      this.storage := storage;
    }

    method AddSession(id: string, expireInSeconds: int, key: string, tokenId: string) returns (ok: bool)
      modifies storage`entries
      ensures ok <==> expireInSeconds > 0
      ensures storage.entries == Kept(old(storage.entries), SetEx(
                old(storage.entries), Render(Slot(TokenNs, id)), Some(expireInSeconds),
                TokenRecord(key, tokenId), storage.now))
    {
      ok := storage.SetEX(CacheKey(TokenNs, id), Some(expireInSeconds), TokenRecord(key, tokenId));
    }

    /** The bound id in the stored token content. */
    method GetSessionValue(id: string) returns (r: Option<string>)
      ensures var k := Render(Slot(TokenNs, id));
              && (r.Some? <==> Live(storage.entries, k, storage.now) && storage.entries[k].record.TokenRecord?)
              && (r.Some? ==> r.value == BoundId(storage.entries[k].record.key, storage.entries[k].record.id))
    {
      var content := storage.Get(CacheKey(TokenNs, id));
      match content
      case Some(TokenRecord(key, tokenId)) => return Some(BoundId(key, tokenId));
      case _ => return None;
    }

    method GetKeys(pattern: string) returns (ids: seq<string>)
      ensures Elements(ids) == LookupKeys(LiveKeys(storage.entries, storage.now), pattern)
    {
      var found := storage.GetKeys(CacheKey(TokenNs, pattern));
      ids := seq(|found|, i requires 0 <= i < |found| => ReplaceFirst(found[i], CacheKey(TokenNs, ""), ""));
      ghost var keys := LiveKeys(storage.entries, storage.now);
      forall id | id in ids
        ensures id in LookupKeys(keys, pattern)
      {
        var i :| 0 <= i < |ids| && ids[i] == id;
        assert found[i] in found;
        var k :| k in keys && Glob(RedisKey(CacheKey(TokenNs, pattern)), k) &&
                 found[i] == ReplaceFirst(k, RedisKey(""), "");
        assert Matches(pattern, k) && StripKey(k) == id;
      }
      forall id | id in LookupKeys(keys, pattern)
        ensures id in ids
      {
        var k :| k in keys && Matches(pattern, k) && StripKey(k) == id;
        var inner := ReplaceFirst(k, RedisKey(""), "");
        assert inner in found;
        var i :| 0 <= i < |found| && found[i] == inner;
        assert ids[i] == id;
      }
    }

    method ClearSession(id: string)
      modifies storage`entries
      ensures storage.entries == old(storage.entries) - {Render(Slot(TokenNs, id))}
    {
      storage.Del(CacheKey(TokenNs, id));
    }
  }

  class AuthSessionService {
    const storage: RedisStorage

    constructor (storage: RedisStorage)
      ensures this.storage == storage
    {
      this.storage := storage;
    }

    /** What reading a session gives now. */
    ghost function Reads(id: string): Result<SessionValue, Error>
      reads storage
    {
      ReadSession(storage.entries, Render(Slot(SessionNs, id)), storage.now)
    }

    /** What an update run now without interruption would do. */
    ghost function Runs(id: string, op: Op): Result<map<string, Entry>, Error>
      reads storage
    {
      RunOp(storage.entries, Render(Slot(SessionNs, id)), op, storage.now)
    }

    /** The store has undergone the whole update, `r` being the record handed to addSession, or none, with its error. */
    twostate predicate Performed(id: string, op: Op, new r: Result<SessionValue, Error>)
      reads storage
    {
      && storage.entries == Kept(old(storage.entries), old(Runs(id, op)))
      && (r.Ok? <==> old(Runs(id, op)).Ok?)
      && (r.Ok? ==> Ok(r.value) == ApplyOp(op, old(Reads(id)).value))
      && (r.Err? ==> r.error == old(Runs(id, op)).error)
    }

    method AddSession(id: string, expireInSeconds: Option<int>, value: SessionValue)
      returns (r: Result<SessionValue, Error>)
      modifies storage`entries
      ensures r == if expireInSeconds.Some? && expireInSeconds.value > 0 then Ok(value) else Err(StoreError)
      ensures storage.entries == Kept(old(storage.entries), SetEx(
                old(storage.entries), Render(Slot(SessionNs, id)), expireInSeconds,
                SessionRec(Stamp(value, storage.now, expireInSeconds)), storage.now))
    {
      var record := SessionRec(Stamp(value, storage.now, expireInSeconds));
      var ok := storage.SetEX(CacheKey(SessionNs, id), expireInSeconds, record);
      return if ok then Ok(value) else Err(StoreError);
    }

    method GetSessionValue(id: string) returns (r: Result<SessionValue, Error>)
      ensures r == Reads(id)
      ensures var k := Render(Slot(SessionNs, id));
              if k in storage.entries && storage.now < storage.entries[k].deadline &&
                 storage.entries[k].record.SessionRec?
              then r == Ok(storage.entries[k].record.session) else r == Err(Unauthorized)
    {
      var record := storage.Get(CacheKey(SessionNs, id));
      match record
      case Some(SessionRec(session)) => return Ok(session);
      case _ => return Err(Unauthorized);
    }

    method AddPermissions(id: string, permissions: seq<UserPermission>) returns (r: Result<SessionValue, Error>)
      modifies storage`entries
      ensures Performed(id, Op.AddPermissions(permissions), r)
    {
      var read := GetSessionValue(id);
      if read.Err? {
        return Err(read.error);
      }
      var session := read.value;
      var list := [];
      if session.permissions.Value? {
        list := session.permissions.value;
      }
      for i := 0 to |permissions|
        invariant PushMissing(list, permissions[i..]) == PushMissing(UserList(session), permissions)
      {
        assert permissions[i..][1..] == permissions[i + 1..];
        if permissions[i] !in list {
          list := list + [permissions[i]];
        }
      }
      r := AddSession(id, UpdateTtl(session, storage.now), session.(permissions := Value(list)));
    }

    method AddFlowSession(id: string, patch: FlowPatch) returns (r: Result<SessionValue, Error>)
      modifies storage`entries
      ensures Performed(id, Op.AddFlow(patch), r)
    {
      if patch.flow.None? {
        return Err(SorrySomethingWentWrong);
      }
      var read := GetSessionValue(id);
      if read.Err? {
        return Err(read.error);
      }
      var session, t := read.value, patch.flow.value;
      var flow := FlowValue(Missing, map[]);
      if t in session.flows && session.flows[t].Some? {
        flow := session.flows[t].value;
      }
      flow := Spread(flow, patch);
      r := AddSession(id, UpdateTtl(session, storage.now), session.(flows := session.flows[t := Some(flow)]));
    }

    /** The stored flow, as long as the session lives and has it. */
    method GetFlowSession(id: string, t: FlowType) returns (r: Result<FlowValue, Error>)
      ensures r.Ok? <==> Reads(id).Ok? && t in Simplify(Reads(id).value).flows
      ensures r.Ok? ==> Reads(id).value.flows[t] == Some(r.value)
      ensures r.Err? ==> r.error == if Reads(id).Err? then Unauthorized else SessionNotAvailable
    {
      var read := GetSessionValue(id);
      if read.Err? {
        return Err(read.error);
      }
      if t !in read.value.flows || read.value.flows[t].None? {
        return Err(SessionNotAvailable);
      }
      return Ok(read.value.flows[t].value);
    }

    method ClearFlowSession(id: string, t: FlowType) returns (r: Result<SessionValue, Error>)
      modifies storage`entries
      ensures Performed(id, Op.ClearFlow(t), r)
    {
      var read := GetSessionValue(id);
      if read.Err? {
        return Err(read.error);
      }
      var session := read.value;
      r := AddSession(id, UpdateTtl(session, storage.now), session.(flows := session.flows[t := None]));
    }

    method AddFlowPermissions(id: string, t: FlowType, granted: seq<FlowPermission>)
      returns (r: Result<SessionValue, Error>)
      modifies storage`entries
      ensures Performed(id, Op.AddFlowPermissions(t, granted), r)
    {
      var read := GetSessionValue(id);
      if read.Err? {
        return Err(read.error);
      }
      var session := read.value;
      if t !in session.flows || session.flows[t].None? {
        return Err(SessionNotAvailable);
      }
      var flow := session.flows[t].value;
      for i := 0 to |granted|
        invariant i > 0 ==> flow.permissions.Value? && session.flows[t].value.permissions.Value?
        invariant flow == session.flows[t].value.(permissions := flow.permissions)
        invariant i == 0 ==> flow == session.flows[t].value
        invariant PushMissing(ListOf(flow), granted[i..]) == PushMissing(FlowList(session, t), granted)
      {
        assert granted[i..][1..] == granted[i + 1..];
        if !flow.permissions.Value? {
          return Err(TypeError);
        }
        if granted[i] !in flow.permissions.value {
          flow := flow.(permissions := Value(flow.permissions.value + [granted[i]]));
        }
      }
      assert session.flows[t := Some(session.flows[t].value)] == session.flows;
      r := AddSession(id, UpdateTtl(session, storage.now), session.(flows := session.flows[t := Some(flow)]));
    }

    method ClearSession(id: string)
      modifies storage`entries
      ensures storage.entries == old(storage.entries) - {Render(Slot(SessionNs, id))}
    {
      storage.Del(CacheKey(SessionNs, id));
    }
  }

  // ---- Issuing and revoking tokens ----

  lemma LiveKeysRendered(strings: map<string, Entry>, slots: Slots, now: int)
    requires Represents(strings, slots)
    ensures LiveKeys(strings, now) == RenderAll(TokenIssue.LiveSlots(slots, now))
  {
    forall k | k in LiveKeys(strings, now)
      ensures k in RenderAll(TokenIssue.LiveSlots(slots, now))
    {
      var slot :| slot in slots.Keys && Render(slot) == k;
      assert slot in TokenIssue.LiveSlots(slots, now);
    }
  }

  lemma SetExOnStrings(
    strings: map<string, Entry>, slots: Slots, slot: Slot, ttl: Option<int>, record: Record, now: int)
    requires Represents(strings, slots)
    ensures Represents(Kept(strings, SetEx(strings, Render(slot), ttl, record, now)),
                       Kept(slots, SetEx(slots, slot, ttl, record, now)))
  {
    if ttl.Some? && ttl.value > 0 {
      var e := Entry(record, now + 1000 * ttl.value);
      RepresentsUpdate(strings, slots, slot, e);
      assert Kept(strings, SetEx(strings, Render(slot), ttl, record, now)) == strings[Render(slot) := e];
    } else {
      assert Kept(strings, SetEx(strings, Render(slot), ttl, record, now)) == strings;
    }
  }

  lemma ClearOnStrings(strings: map<string, Entry>, slots: Slots, id: string)
    requires Represents(strings, slots)
    ensures Represents(strings - {Render(Slot(TokenNs, id))} - {Render(Slot(SessionNs, id))},
                       TokenIssue.ClearIds(slots, {id}))
  {
    var token, session := Slot(TokenNs, id), Slot(SessionNs, id);
    RepresentsDelete(strings, slots, token);
    RepresentsDelete(strings - {Render(token)}, slots - {token}, session);
    assert slots - {token} - {session} == TokenIssue.ClearIds(slots, {id});
  }

  lemma ClearMore(slots: Slots, ids: seq<string>, i: nat)
    requires i < |ids|
    ensures TokenIssue.ClearIds(TokenIssue.ClearIds(slots, Elements(ids[..i])), {ids[i]}) ==
            TokenIssue.ClearIds(slots, Elements(ids[..i + 1]))
  {
    assert ids[..i + 1] == ids[..i] + [ids[i]];
  }

  lemma ClearNone(slots: Slots)
    ensures TokenIssue.ClearIds(slots, Elements([])) == slots
  {
  }

  class BaseAuthService {
    const tokens: TokenSessionService
    const sessions: AuthSessionService

    constructor (tokens: TokenSessionService, sessions: AuthSessionService)
      ensures this.tokens == tokens && this.sessions == sessions
    {
      this.tokens, this.sessions := tokens, sessions;
    }

    /** The shared storage holds exactly the entries `slots`. */
    ghost predicate Holds(slots: Slots)
      reads tokens.storage
    {
      tokens.storage == sessions.storage && Represents(tokens.storage.entries, slots)
    }

    method ClearSession(ghost slots: Slots, keys: seq<string>)
      requires Holds(slots)
      modifies tokens.storage`entries
      ensures Holds(TokenIssue.ClearIds(slots, Elements(keys)))
    {
      ClearNone(slots);
      assert keys[..0] == [] && keys[..|keys|] == keys;
      for i := 0 to |keys|
        invariant Holds(TokenIssue.ClearIds(slots, Elements(keys[..i])))
      {
        ClearOnStrings(tokens.storage.entries, TokenIssue.ClearIds(slots, Elements(keys[..i])), keys[i]);
        ClearMore(slots, keys, i);
        tokens.ClearSession(keys[i]);
        sessions.ClearSession(keys[i]);
      }
    }

    /** The service does not await the clear; `TokenIssue.AuthenticateUnawaited` covers every other order. */
    method CreateToken(ghost slots: Slots, key: string, id: string, multiple: bool, expireTime: int) returns (ok: bool)
      requires Holds(slots)
      modifies tokens.storage`entries
      ensures Holds(TokenIssue.CreateToken(slots, key, id, multiple, expireTime, tokens.storage.now).store)
      ensures ok == TokenIssue.CreateToken(slots, key, id, multiple, expireTime, tokens.storage.now).ok
      ensures ok <==> expireTime > 0
      ensures multiple ==>
                forall k :: k in old(tokens.storage.entries) && k != Render(Slot(TokenNs, BoundId(key, id))) ==>
                  k in tokens.storage.entries && tokens.storage.entries[k] == old(tokens.storage.entries)[k]
    {
      ghost var left := slots;
      var bound := BoundId(key, id);
      LiveKeysRendered(tokens.storage.entries, slots, tokens.storage.now);
      var existing := tokens.GetKeys(ReplaceFirst(bound, id, "*"));
      assert Elements(existing) == TokenIssue.ExistingIds(slots, key, id, tokens.storage.now);
      if multiple && |existing| > 0 {
      } else if |existing| > 0 {
        ClearSession(slots, existing);
        left := TokenIssue.ClearIds(slots, Elements(existing));
      } else {
        assert existing == [];
        ClearNone(slots);
      }
      SetExOnStrings(tokens.storage.entries, left, Slot(TokenNs, bound), Some(expireTime),
                     TokenRecord(key, id), tokens.storage.now);
      ok := tokens.AddSession(bound, expireTime, key, id);
    }

    method Authenticate(ghost slots: Slots, key: string, id: string, session: SessionValue, multiple: bool,
                        expireTime: int, sessionLifeTime: Option<int>) returns (ok: bool)
      requires Holds(slots)
      modifies tokens.storage`entries
      ensures var outcome := TokenIssue.Authenticate(
                slots, key, id, session, multiple, expireTime, sessionLifeTime, tokens.storage.now);
              Holds(outcome.store) && ok == outcome.ok
    {
      ok := CreateToken(slots, key, id, multiple, expireTime);
      if !ok {
        return;
      }
      var bound := BoundId(key, id);
      var lifetime := expireTime;
      if sessionLifeTime.Some? && sessionLifeTime.value != 0 {
        lifetime := sessionLifeTime.value;
      }
      ghost var issued := TokenIssue.CreateToken(slots, key, id, multiple, expireTime, tokens.storage.now).store;
      ghost var stamped := Stamp(session.(key := bound), tokens.storage.now, Some(lifetime));
      SetExOnStrings(tokens.storage.entries, issued, Slot(SessionNs, bound), Some(lifetime),
                     SessionRec(stamped), tokens.storage.now);
      var added := sessions.AddSession(bound, Some(lifetime), session.(key := bound));
      ok := added.Ok?;
    }

    method Logout(ghost slots: Slots, bound: string)
      requires Holds(slots)
      modifies tokens.storage`entries
      ensures Holds(TokenIssue.Logout(slots, bound))
    {
      ClearSession(slots, [bound]);
      assert Elements([bound]) == {bound};
    }
  }
}
