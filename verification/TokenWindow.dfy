/**
 What a login and a logout leave in the store, and exactly how long a login's token is accepted.
 */
module TokenWindow {
  import opened Prelude
  import opened SessionKeys
  import opened SessionRecord
  import opened SessionStore
  import opened TokenIssue
  import opened PermissionGate
  import opened AuthGuard
  import opened SerialRuns
  import opened SingleToken
  import opened ServedRequests
  import SerialRefinement

  // ---- What logins and logouts leave ----

  /** An entry of the user with the given key whose token lives. */
  predicate OfLiveToken(st: Slots, now: int, key: string, slot: Slot) {
    var token := Slot(TokenNs, slot.id);
    key + ":" <= slot.id && token in st && now < st[token].deadline
  }

  /** The two entries of a new login. */
  predicate FreshEntries(st: Slots, now: int, step: Step)
    requires step.LoginStep?
  {
    var bound := BoundId(step.key, step.id);
    var token, session := Slot(TokenNs, bound), Slot(SessionNs, bound);
    var deadline := now + 1000 * step.expireTime;
    && token in st && st[token] == Entry(TokenRecord(step.key, step.id), deadline)
    && session in st && st[session] == Entry(SessionRec(SessionValue(
         Value(now / 1000 + step.expireTime), Value(now / 1000), bound, Value([]), map[], step.rest)), deadline)
  }

  lemma FoundAreLive(s: State, step: Step, slot: Slot)
    requires step.LoginStep? && GoodUser(step.key, step.id)
    ensures slot.id in ExistingIds(s.store, step.key, step.id, s.now) <==> OfLiveToken(s.store, s.now, step.key, slot)
  {
    LookupExact(LiveSlots(s.store, s.now), step.key, step.id);
  }

  lemma LoginWrites(s: State, step: Step)
    requires step.LoginStep? && step.expireTime > 0
    ensures FreshEntries(Apply(s, step).store, s.now, step)
  {
    assert NewSession(step.rest) == SessionValue(Missing, Missing, "", Value([]), map[], step.rest);
  }

  /**
   A login leaves exactly the entries that belong to no live token of its user, unchanged, and its
   own two, unless its lifetime is not positive.
   */
  lemma LoginLeaves(s: State, step: Step)
    requires Known(s) && Enabled(s, step) && step.LoginStep? && GoodUser(step.key, step.id)
    ensures var st, st', bound := s.store, Apply(s, step).store, BoundId(step.key, step.id);
            && (forall slot: Slot :: slot in st' <==>
                  (slot in st && !OfLiveToken(st, s.now, step.key, slot)) || (slot.id == bound && step.expireTime > 0))
            && (forall slot :: slot in st && slot in st' ==> st'[slot] == st[slot])
            && (step.expireTime > 0 ==> FreshEntries(st', s.now, step))
  {
    var st, st', bound := s.store, Apply(s, step).store, BoundId(step.key, step.id);
    assert !Owned(s.issued, bound);
    if step.expireTime > 0 {
      LoginWrites(s, step);
    }
    forall slot: Slot
      ensures slot in st' <==>
                (slot in st && !OfLiveToken(st, s.now, step.key, slot)) || (slot.id == bound && step.expireTime > 0)
      ensures slot in st && slot in st' ==> st'[slot] == st[slot]
    {
      FoundAreLive(s, step, slot);
      if slot.id != bound {
        LoginStore(s, step, slot);
      } else {
        match slot.ns
        case TokenNs =>
        case SessionNs =>
      }
    }
  }

  /** An accepted logout removes both entries of its token and nothing else; a refused one changes nothing. */
  lemma LogoutLeaves(s: State, jwt: Jwt)
    requires Known(s)
    ensures var st, st' := s.store, Apply(s, LogoutStep(jwt)).store;
            if TokenGood(st, s.now, jwt) then
              && (forall slot: Slot :: slot in st' <==> slot in st && slot.id != JwtId(jwt))
              && (forall slot :: slot in st' ==> st'[slot] == st[slot])
              && Slot(TokenNs, JwtId(jwt)) !in st' && Slot(SessionNs, JwtId(jwt)) !in st'
            else st' == st
  {
    AcceptsIff(s.store, s.now, jwt);
  }

  /** In every run: after an accepted logout no entry of its id is in either namespace, all others are unchanged. */
  lemma LogoutInRun(tr: seq<State>, steps: seq<Step>, n: nat)
    requires IsRun(tr, steps) && n < |steps| && steps[n].LogoutStep?
    ensures var st, st', id := tr[n].store, tr[n + 1].store, JwtId(steps[n].jwt);
            if TokenGood(st, tr[n].now, steps[n].jwt) then
              && (forall slot: Slot :: slot in st' <==> slot in st && slot.id != id)
              && (forall slot :: slot in st' ==> st'[slot] == st[slot])
            else st' == st
  {
    KnownInRun(tr, steps, n);
    assert Next(tr[n], steps[n], tr[n + 1]);
    LogoutLeaves(tr[n], steps[n].jwt);
  }

  // ---- A token's life ----

  /** The token entry with its deadline, and the session with its exp. */
  ghost predicate InStore(s: State, id: string, deadline: int, exp: int) {
    var token := Slot(TokenNs, id);
    && token in s.store && s.store[token].deadline == deadline
    && Stored(s.store, id) && SessionAt(s.store, id).exp == Value(exp)
  }

  lemma {:induction false} UpdatesKeepExp(st: Slots, id: string, ops: seq<Op>, now: int, other: string)
    requires Stored(st, other)
    ensures var st' := RunOps(st, id, ops, now).store;
            Stored(st', other) && SessionAt(st', other).exp == SessionAt(st, other).exp
    decreases |ops|
  {
    if ops != [] && RunOp(st, Slot(SessionNs, id), ops[0], now).Ok? {
      RunOpRefines(st, Slot(SessionNs, id), ops[0], now);
      UpdatesKeepExp(RunOp(st, Slot(SessionNs, id), ops[0], now).value, id, ops[1..], now, other);
    }
  }

  lemma RequestKeeps(s: State, jwt: Jwt, call: Call, throws: bool, id: string, deadline: int, exp: int)
    requires Known(s) && InStore(s, id, deadline, exp)
    ensures InStore(Apply(s, Request(jwt, call, throws)), id, deadline, exp)
  {
    ServeFrame(s.store, jwt, call, throws, s.now);
    if Accepts(s.store, s.now, jwt) {
      var handled := RunOps(s.store, JwtId(jwt), HandlerOps(call), s.now);
      UpdatesKeepExp(s.store, JwtId(jwt), HandlerOps(call), s.now, id);
      UpdatesKeepExp(handled.store, JwtId(jwt), GrantOps(EndpointOf(call)), s.now, id);
    }
  }

  /** A login of the token's user, or an accepted logout of the token. */
  ghost predicate Ends(s: State, step: Step, t: Token) {
    || (step.LoginStep? && step.key == t.key)
    || (step.LogoutStep? && Accepts(s.store, s.now, step.jwt) && JwtId(step.jwt) == TokenId(t))
  }

  lemma StepKeeps(s: State, step: Step, t: Token, deadline: int, exp: int)
    requires Known(s) && OnePerUser(s) && Enabled(s, step) && (step.LoginStep? ==> GoodUser(step.key, step.id))
    requires t in s.issued && !Ends(s, step, t) && InStore(s, TokenId(t), deadline, exp)
    ensures InStore(Apply(s, step), TokenId(t), deadline, exp)
  {
    match step
    case Tick(_) =>
    case LoginStep(_, _, _, _) =>
      LookupSparesOthers(s, step, t);
      LoginStore(s, step, Slot(TokenNs, TokenId(t)));
      LoginStore(s, step, Slot(SessionNs, TokenId(t)));
    case LogoutStep(jwt) => LogoutLeaves(s, jwt); AcceptsIff(s.store, s.now, jwt);
    case Request(jwt, call, throws) => RequestKeeps(s, jwt, call, throws, TokenId(t), deadline, exp);
  }

  /** None of the steps from `n + 1` up to `k` ends the token. */
  ghost predicate Undisturbed(tr: seq<State>, steps: seq<Step>, n: nat, k: nat, t: Token)
    requires k <= |steps| < |tr|
  {
    forall i :: n < i < k ==> !Ends(tr[i], steps[i], t)
  }

  function TokenFrom(step: Step): Token
    requires step.LoginStep?
  {
    Token(step.key, step.id)
  }

  /** A login's token and session as they are left right after it. */
  ghost predicate AsIssued(s: State, step: Step, now: int)
    requires step.LoginStep?
  {
    && TokenFrom(step) in s.issued
    && InStore(s, TokenId(TokenFrom(step)), now + 1000 * step.expireTime, now / 1000 + step.expireTime)
  }

  lemma StepKeepsIssued(s: State, step: Step, login: Step, now: int)
    requires Known(s) && OnePerUser(s) && Enabled(s, step) && (step.LoginStep? ==> GoodUser(step.key, step.id))
    requires login.LoginStep? && AsIssued(s, login, now) && !Ends(s, step, TokenFrom(login))
    ensures AsIssued(Apply(s, step), login, now)
  {
    StepKeeps(s, step, TokenFrom(login), now + 1000 * login.expireTime, now / 1000 + login.expireTime);
  }

  lemma JustIssued(s: State, step: Step)
    requires Known(s) && Enabled(s, step) && step.LoginStep? && step.expireTime > 0
    ensures AsIssued(Apply(s, step), step, s.now)
  {
    LoginWrites(s, step);
  }

  lemma IssuedInRun(tr: seq<State>, steps: seq<Step>, n: nat)
    requires IsRun(tr, steps) && n < |steps| && steps[n].LoginStep? && steps[n].expireTime > 0
    ensures AsIssued(tr[n + 1], steps[n], tr[n].now)
  {
    KnownInRun(tr, steps, n);
    assert Next(tr[n], steps[n], tr[n + 1]);
    JustIssued(tr[n], steps[n]);
  }

  lemma KeptOneMore(tr: seq<State>, steps: seq<Step>, k: nat, login: Step, now: int)
    requires IsRun(tr, steps) && GoodLogins(steps) && k < |steps|
    requires login.LoginStep? && AsIssued(tr[k], login, now) && !Ends(tr[k], steps[k], TokenFrom(login))
    ensures AsIssued(tr[k + 1], login, now)
  {
    OneInRun(tr, steps, k);
    assert Next(tr[k], steps[k], tr[k + 1]);
    StepKeepsIssued(tr[k], steps[k], login, now);
  }

  lemma {:induction false} KeptFrom(tr: seq<State>, steps: seq<Step>, j: nat, k: nat, login: Step, now: int)
    requires IsRun(tr, steps) && GoodLogins(steps) && j <= k < |tr|
    requires login.LoginStep? && AsIssued(tr[j], login, now)
    requires forall i :: j <= i < k ==> !Ends(tr[i], steps[i], TokenFrom(login))
    ensures AsIssued(tr[k], login, now)
    decreases k
  {
    if j < k {
      KeptFrom(tr, steps, j, k - 1, login, now);
      KeptOneMore(tr, steps, k - 1, login, now);
    }
  }

  lemma KeptInRun(tr: seq<State>, steps: seq<Step>, n: nat, k: nat)
    requires IsRun(tr, steps) && GoodLogins(steps) && n < k < |tr|
    requires steps[n].LoginStep? && steps[n].expireTime > 0 && Undisturbed(tr, steps, n, k, TokenFrom(steps[n]))
    ensures AsIssued(tr[k], steps[n], tr[n].now)
  {
    IssuedInRun(tr, steps, n);
    KeptFrom(tr, steps, n + 1, k, steps[n], tr[n].now);
  }

  // ---- Once dead ----

  lemma DeadStep(s: State, step: Step, t: Token)
    requires Known(s) && OnePerUser(s) && Enabled(s, step) && (step.LoginStep? ==> GoodUser(step.key, step.id))
    requires t in s.issued && !TokenLive(s, t)
    ensures t in Apply(s, step).issued && !TokenLive(Apply(s, step), t)
  {
    if step.LoginStep? {
      LoginStore(s, step, Slot(TokenNs, TokenId(t)));
    } else {
      NoNewToken(s, step, t);
    }
  }

  lemma {:induction false} DeadInRun(tr: seq<State>, steps: seq<Step>, j: nat, k: nat, t: Token)
    requires IsRun(tr, steps) && GoodLogins(steps) && j <= k < |tr| && t in tr[j].issued && !TokenLive(tr[j], t)
    ensures t in tr[k].issued && !TokenLive(tr[k], t)
    decreases k
  {
    if j < k {
      DeadInRun(tr, steps, j, k - 1, t);
      OneInRun(tr, steps, k - 1);
      assert Next(tr[k - 1], steps[k - 1], tr[k]);
      DeadStep(tr[k - 1], steps[k - 1], t);
    }
  }

  lemma IssuedByLogin(tr: seq<State>, steps: seq<Step>, n: nat, k: nat)
    requires IsRun(tr, steps) && n < k < |tr| && steps[n].LoginStep?
    ensures TokenFrom(steps[n]) in tr[k].issued
  {
    assert Next(tr[n], steps[n], tr[n + 1]);
    RevokedStays(tr, steps, n + 1, k);
  }

  /** What ends a token kills it. */
  lemma EndedIsDead(tr: seq<State>, steps: seq<Step>, n: nat, i: nat, k: nat)
    requires IsRun(tr, steps) && GoodLogins(steps) && n < i < k < |tr| && steps[n].LoginStep?
    requires Ends(tr[i], steps[i], TokenFrom(steps[n]))
    ensures !TokenLive(tr[k], TokenFrom(steps[n]))
  {
    var t := TokenFrom(steps[n]);
    IssuedByLogin(tr, steps, n, i);
    OneInRun(tr, steps, i + 1);
    assert Next(tr[i], steps[i], tr[i + 1]);
    assert t in tr[i + 1].revoked;
    DeadInRun(tr, steps, i + 1, k, t);
  }

  /** A login without a positive lifetime issues a token that never lives. */
  lemma StillbornIsDead(tr: seq<State>, steps: seq<Step>, n: nat, k: nat)
    requires IsRun(tr, steps) && GoodLogins(steps) && n < k < |tr|
    requires steps[n].LoginStep? && steps[n].expireTime <= 0
    ensures !TokenLive(tr[k], TokenFrom(steps[n]))
  {
    OneInRun(tr, steps, n);
    assert Next(tr[n], steps[n], tr[n + 1]);
    LoginLeaves(tr[n], steps[n]);
    assert !Owned(tr[n].issued, BoundId(steps[n].key, steps[n].id));
    DeadInRun(tr, steps, n + 1, k, TokenFrom(steps[n]));
  }

  // ---- The window ----

  /** The clock has not passed the token's signed exp, nor the deadlines of its two entries. */
  ghost predicate InWindow(tr: seq<State>, steps: seq<Step>, n: nat, k: nat)
    requires n < k <= |steps| < |tr| && steps[n].LoginStep?
  {
    var id := BoundId(steps[n].key, steps[n].id);
    && tr[k].now <= 1000 * (tr[n].now / 1000 + steps[n].expireTime)
    && tr[k].now < tr[n].now + 1000 * steps[n].expireTime
    && Stored(tr[k].store, id) && tr[k].now < DeadlineAt(tr[k].store, id)
  }

  /**
   Exactly when the token signed by a login is accepted later: its lifetime was positive, neither a
   login of its user nor its logout has come since, and the clock is within its window.
   */
  lemma AcceptedIff(tr: seq<State>, steps: seq<Step>, n: nat, k: nat)
    requires IsRun(tr, steps) && GoodLogins(steps) && n < k < |tr| && steps[n].LoginStep?
    ensures Accepts(tr[k].store, tr[k].now, Signed(steps[n], tr[n].now)) <==>
              && steps[n].expireTime > 0
              && Undisturbed(tr, steps, n, k, TokenFrom(steps[n]))
              && InWindow(tr, steps, n, k)
  {
    var t := TokenFrom(steps[n]);
    KnownInRun(tr, steps, k);
    AcceptsIff(tr[k].store, tr[k].now, Signed(steps[n], tr[n].now));
    assert JwtId(Signed(steps[n], tr[n].now)) == TokenId(t);
    if steps[n].expireTime <= 0 {
      StillbornIsDead(tr, steps, n, k);
    } else if Undisturbed(tr, steps, n, k, t) {
      KeptInRun(tr, steps, n, k);
    } else {
      var i :| n < i < k && Ends(tr[i], steps[i], t);
      EndedIsDead(tr, steps, n, i, k);
    }
  }

  ghost predicate SessionOutlives(s: State, id: string, time: int) {
    Stored(s.store, id) && DeadlineAt(s.store, id) > time
  }

  /**
   In terms of the clock alone: while undisturbed the token is accepted throughout the milliseconds
   before its exp and never after it. At the exp itself it depends on the deadlines of the entries.
   */
  lemma WindowByClock(tr: seq<State>, steps: seq<Step>, n: nat, k: nat)
    requires IsRun(tr, steps) && GoodLogins(steps) && n < k < |tr|
    requires steps[n].LoginStep? && steps[n].expireTime > 0 && Undisturbed(tr, steps, n, k, TokenFrom(steps[n]))
    ensures var exp := 1000 * (tr[n].now / 1000 + steps[n].expireTime);
            Accepts(tr[k].store, tr[k].now, Signed(steps[n], tr[n].now)) <==>
              || tr[k].now < exp
              || (tr[k].now == exp && tr[n].now % 1000 > 0 && SessionOutlives(tr[k], TokenId(TokenFrom(steps[n])), exp))
  {
    AcceptedIff(tr, steps, n, k);
    KeptInRun(tr, steps, n, k);
    SerialRefinement.SerialLifetime(tr, steps, k, TokenId(TokenFrom(steps[n])));
  }

  const ROUND := LoginStep("u", "-1", map[], 10)

  /** A login on the full second: at its exp the token is not expired for the guard, but its entry is gone. */
  lemma RefusedAtItsExp() returns (tr: seq<State>, steps: seq<Step>)
    ensures IsRun(tr, steps) && steps == [ROUND, Tick(10000)] && tr[0].now == 1000
    ensures tr[2].now <= 1000 * Signed(ROUND, tr[0].now).exp
    ensures !Accepts(tr[2].store, tr[2].now, Signed(ROUND, tr[0].now))
  {
    var s0 := State(map[], 1000, {}, {}, []);
    var s1 := Apply(s0, ROUND);
    var s2 := Apply(s1, Tick(10000));
    tr, steps := [s0, s1, s2], [ROUND, Tick(10000)];
    HashAndUuidAreGood("u", "-1");
    assert IsRun(tr, steps);
    assert Undisturbed(tr, steps, 0, 2, TokenFrom(ROUND));
    WindowByClock(tr, steps, 0, 2);
  }
}
