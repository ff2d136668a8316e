/** At most one token per user is ever let in, and a revoked one never again. */
module SingleToken {
  import opened Prelude
  import opened SessionKeys
  import opened SessionRecord
  import opened SessionStore
  import opened TokenIssue
  import opened PermissionGate
  import opened AuthGuard
  import opened SerialRuns

  /** A user key has no colons or pattern characters, and the token id does not occur in the key. */
  ghost predicate GoodUser(key: string, id: string) {
    GlobFree(key) && ':' !in key && IdPosition(key, id) == |key| + 1
  }

  /** The alphabet of the base64 digest that login makes of a user id. */
  predicate Base64(c: char) {
    'A' <= c <= 'Z' || 'a' <= c <= 'z' || '0' <= c <= '9' || c == '+' || c == '/' || c == '='
  }

  lemma {:induction false} MissingChar(s: string, pat: string, k: nat)
    requires k < |pat| && pat[k] !in s
    ensures IndexOf(s, pat) == -1
  {
    assert k < |s| ==> s[k] != pat[k];
    if s != "" {
      MissingChar(s[1..], pat, k);
    }
  }

  /** What login passes is good: a base64 hash, and a uuid, which has a dash and no colon. */
  lemma HashAndUuidAreGood(key: string, id: string)
    requires (forall i :: 0 <= i < |key| ==> Base64(key[i])) && '-' in id && ':' !in id
    ensures GoodUser(key, id)
  {
    assert forall i :: 0 <= i < |key| ==> Plain(key[i]) && key[i] != ':' && key[i] != '-';
    var k :| 0 <= k < |id| && id[k] == '-';
    MissingChar(key, id, k);
    IdNotInKey(key, id);
  }

  ghost predicate GoodLogins(steps: seq<Step>) {
    forall i :: 0 <= i < |steps| && steps[i].LoginStep? ==> GoodUser(steps[i].key, steps[i].id)
  }

  /** A key without colon ends at the first colon of its bound ids. */
  lemma FirstColon(key: string, id: string, other: string, otherId: string)
    requires ':' !in key && BoundId(key, id) == BoundId(other, otherId)
    ensures key + ":" <= other + ":"
  {
    var s := BoundId(key, id);
    assert s[|other|] == ':' && s[..|other| + 1] == other + ":";
    assert s[|key|] == ':' && s[..|key| + 1] == key + ":";
    assert forall k :: 0 <= k < |key| ==> s[k] == key[k] != ':';
  }

  lemma SameFirstColon(key: string, other: string, text: string)
    requires ':' !in key && ':' !in other && key + ":" <= text && other + ":" <= text
    ensures key == other
  {
    assert text[|key|] == ':' && text[..|key|] == key;
    assert text[|other|] == ':' && text[..|other|] == other;
    assert forall k :: 0 <= k < |key| ==> text[k] == key[k] != ':';
    assert forall k :: 0 <= k < |other| ==> text[k] == other[k] != ':';
  }

  ghost predicate TokenLive(s: State, t: Token) {
    Live(s.store, Slot(TokenNs, TokenId(t)), s.now)
  }

  /** Live tokens are issued and unrevoked, one per user. */
  ghost predicate OnePerUser(s: State) {
    && (forall t :: t in s.issued ==> ':' !in t.key)
    && s.revoked <= s.issued
    && (forall t :: t in s.revoked ==> !TokenLive(s, t))
    && (forall t, u ::
          t in s.issued && u in s.issued && t.key == u.key && TokenLive(s, t) && TokenLive(s, u) ==> t == u)
  }

  /** createToken leaves none of the user's earlier tokens. */
  lemma LoginClears(s: State, key: string, id: string, t: Token)
    requires GoodUser(key, id) && t.key == key
    ensures var cleared := ClearIds(s.store, ExistingIds(s.store, key, id, s.now));
            !Live(cleared, Slot(TokenNs, TokenId(t)), s.now)
  {
    LookupExact(LiveSlots(s.store, s.now), key, id);
    BoundToUser(key, key, t.id);
  }

  lemma LoginStore(s: State, step: Step, slot: Slot)
    requires step.LoginStep? && slot.id != BoundId(step.key, step.id)
    ensures var cleared := ClearIds(s.store, ExistingIds(s.store, step.key, step.id, s.now));
            slot in Apply(s, step).store <==> slot in cleared
    ensures slot in Apply(s, step).store ==> slot in s.store && Apply(s, step).store[slot] == s.store[slot]
  {
  }

  lemma LoginKeepsOne(s: State, step: Step)
    requires Known(s) && OnePerUser(s) && Enabled(s, step) && step.LoginStep? && GoodUser(step.key, step.id)
    ensures OnePerUser(Apply(s, step))
  {
    var s' := Apply(s, step);
    forall t | t in s.issued
      ensures TokenLive(s', t) ==> TokenLive(s, t) && t.key != step.key
    {
      LoginStore(s, step, Slot(TokenNs, TokenId(t)));
      if t.key == step.key {
        LoginClears(s, step.key, step.id, t);
      }
    }
    assert Token(step.key, step.id) !in s.issued;
  }

  /** A step that writes no TOKEN entry makes none live. */
  lemma NoNewToken(s: State, step: Step, t: Token)
    requires Known(s) && Enabled(s, step) && !step.LoginStep?
    ensures TokenLive(Apply(s, step), t) ==> TokenLive(s, t)
    ensures step.LogoutStep? && Accepts(s.store, s.now, step.jwt) && TokenId(t) == JwtId(step.jwt) ==>
              !TokenLive(Apply(s, step), t)
  {
    match step
    case Request(jwt, call, throws) => ServeFrame(s.store, jwt, call, throws, s.now);
    case _ =>
  }

  lemma OnePreserved(s: State, step: Step)
    requires Known(s) && OnePerUser(s) && Enabled(s, step)
    requires step.LoginStep? ==> GoodUser(step.key, step.id)
    ensures OnePerUser(Apply(s, step))
  {
    if step.LoginStep? {
      LoginKeepsOne(s, step);
    } else {
      forall t: Token
        ensures TokenLive(Apply(s, step), t) ==> TokenLive(s, t)
        ensures step.LogoutStep? && Accepts(s.store, s.now, step.jwt) && TokenId(t) == JwtId(step.jwt) ==>
                  !TokenLive(Apply(s, step), t)
      {
        NoNewToken(s, step, t);
      }
    }
  }

  lemma {:induction false} OneInRun(tr: seq<State>, steps: seq<Step>, n: nat)
    requires IsRun(tr, steps) && GoodLogins(steps) && n < |tr|
    ensures Known(tr[n]) && OnePerUser(tr[n])
  {
    KnownInRun(tr, steps, n);
    if n > 0 {
      OneInRun(tr, steps, n - 1);
      assert Next(tr[n - 1], steps[n - 1], tr[n]);
      OnePreserved(tr[n - 1], steps[n - 1]);
    }
  }

  lemma {:induction false} RevokedStays(tr: seq<State>, steps: seq<Step>, j: nat, n: nat)
    requires IsRun(tr, steps) && j <= n < |tr|
    ensures tr[j].revoked <= tr[n].revoked && tr[j].issued <= tr[n].issued
    decreases n
  {
    if j < n {
      RevokedStays(tr, steps, j, n - 1);
      assert Next(tr[n - 1], steps[n - 1], tr[n]);
    }
  }

  /** An accepted token is an issued one, however its bound id is split into key and id. */
  lemma AcceptedIsIssued(s: State, jwt: Jwt) returns (t: Token)
    requires Known(s) && Accepts(s.store, s.now, jwt)
    ensures t in s.issued && TokenId(t) == JwtId(jwt) && TokenLive(s, t)
  {
    var slot := Slot(TokenNs, JwtId(jwt));
    t :| t in s.issued && TokenId(t) == slot.id;
  }

  /** In every serial run at most one token of a user passes the guard. */
  lemma AtMostOneAccepted(tr: seq<State>, steps: seq<Step>, n: nat, a: Jwt, b: Jwt)
    requires IsRun(tr, steps) && GoodLogins(steps) && n < |tr|
    requires a.key == b.key
    requires Accepts(tr[n].store, tr[n].now, a) && Accepts(tr[n].store, tr[n].now, b)
    ensures a.id == b.id
  {
    OneInRun(tr, steps, n);
    var t := AcceptedIsIssued(tr[n], a);
    var u := AcceptedIsIssued(tr[n], b);
    FirstColon(t.key, t.id, a.key, a.id);
    FirstColon(u.key, u.id, b.key, b.id);
    SameFirstColon(t.key, u.key, a.key + ":");
    assert JwtId(a)[|a.key| + 1..] == a.id && JwtId(b)[|b.key| + 1..] == b.id;
  }

  /** Once revoked, by its logout or by a later login of its user, a token never passes the guard again. */
  lemma RevokedNeverAccepted(tr: seq<State>, steps: seq<Step>, j: nat, n: nat, t: Token, jwt: Jwt)
    requires IsRun(tr, steps) && GoodLogins(steps) && j <= n < |tr|
    requires t in tr[j].revoked && TokenId(t) == JwtId(jwt)
    ensures !Accepts(tr[n].store, tr[n].now, jwt)
  {
    OneInRun(tr, steps, n);
    RevokedStays(tr, steps, j, n);
    assert !TokenLive(tr[n], t);
  }

  /** What revokes: every login revokes the user's earlier tokens, and an accepted logout its own. */
  lemma LoginAndLogoutRevoke(tr: seq<State>, steps: seq<Step>, n: nat)
    requires IsRun(tr, steps) && n < |steps|
    ensures steps[n].LoginStep? ==>
              forall t :: t in tr[n].issued && t.key == steps[n].key ==> t in tr[n + 1].revoked
    ensures steps[n].LogoutStep? && Accepts(tr[n].store, tr[n].now, steps[n].jwt) ==>
              exists t :: t in tr[n + 1].revoked && TokenId(t) == JwtId(steps[n].jwt)
  {
    KnownInRun(tr, steps, n);
    assert Next(tr[n], steps[n], tr[n + 1]);
    if steps[n].LogoutStep? && Accepts(tr[n].store, tr[n].now, steps[n].jwt) {
      var t := AcceptedIsIssued(tr[n], steps[n].jwt);
      assert t in tr[n + 1].revoked;
    }
  }

  /** The token as a login signs it. */
  function Signed(step: Step, now: int): Jwt
    requires step.LoginStep?
  {
    Jwt(step.key, step.id, now / 1000 + step.expireTime, true)
  }

  /** A login's own token is accepted right after it, exactly if its lifetime is positive. */
  lemma LoginIsAccepted(tr: seq<State>, steps: seq<Step>, n: nat)
    requires IsRun(tr, steps) && n < |steps| && steps[n].LoginStep?
    ensures Accepts(tr[n + 1].store, tr[n + 1].now, Signed(steps[n], tr[n].now)) <==> steps[n].expireTime > 0
  {
    KnownInRun(tr, steps, n);
    assert Next(tr[n], steps[n], tr[n + 1]);
    assert !Owned(tr[n].issued, BoundId(steps[n].key, steps[n].id));
  }

  // ---- How long a token stays accepted ----

  /** Updates never end a session's life: as long as they succeed or change nothing, it stays readable. */
  lemma {:induction false} UpdatesKeepAlive(st: Slots, id: string, ops: seq<Op>, now: int, other: string)
    requires ReadSession(st, Slot(SessionNs, other), now).Ok?
    ensures ReadSession(RunOps(st, id, ops, now).store, Slot(SessionNs, other), now).Ok?
    decreases |ops|
  {
    if ops != [] && RunOp(st, Slot(SessionNs, id), ops[0], now).Ok? {
      RunOpRefines(st, Slot(SessionNs, id), ops[0], now);
      UpdatesKeepAlive(RunOp(st, Slot(SessionNs, id), ops[0], now).value, id, ops[1..], now, other);
    }
  }

  lemma RequestKeepsAccepted(s: State, request: Jwt, call: Call, throws: bool, jwt: Jwt)
    requires Known(s) && Accepts(s.store, s.now, jwt)
    ensures Accepts(Serve(s.store, request, call, throws, s.now).store, s.now, jwt)
  {
    ServeFrame(s.store, request, call, throws, s.now);
    if Accepts(s.store, s.now, request) {
      var handled := RunOps(s.store, JwtId(request), HandlerOps(call), s.now);
      UpdatesKeepAlive(s.store, JwtId(request), HandlerOps(call), s.now, JwtId(jwt));
      UpdatesKeepAlive(handled.store, JwtId(request), GrantOps(EndpointOf(call)), s.now, JwtId(jwt));
    }
  }

  lemma LookupSparesOthers(s: State, step: Step, t: Token)
    requires step.LoginStep? && GoodUser(step.key, step.id) && ':' !in t.key && t.key != step.key
    ensures TokenId(t) !in ExistingIds(s.store, step.key, step.id, s.now) && TokenId(t) != BoundId(step.key, step.id)
  {
    LookupExact(LiveSlots(s.store, s.now), step.key, step.id);
    BoundToUser(step.key, t.key, t.id);
    BoundToUser(step.key, step.key, step.id);
  }

  /** A login clears the entries of no other user. */
  lemma LoginSparesOthers(s: State, step: Step, t: Token, jwt: Jwt)
    requires Known(s) && OnePerUser(s) && step.LoginStep? && GoodUser(step.key, step.id)
    requires t in s.issued && t.key != step.key && TokenId(t) == JwtId(jwt) && Accepts(s.store, s.now, jwt)
    ensures Accepts(Apply(s, step).store, s.now, jwt)
  {
    LookupSparesOthers(s, step, t);
    LoginStore(s, step, Slot(TokenNs, JwtId(jwt)));
    LoginStore(s, step, Slot(SessionNs, JwtId(jwt)));
  }

  /**
   An accepted token is some issued token `t`; when it is accepted no longer, time has passed, the
   user of `t` has logged in again, or it was logged out: nothing any other user does, and no
   request, ends it.
   */
  lemma AcceptedUntil(tr: seq<State>, steps: seq<Step>, n: nat, jwt: Jwt) returns (t: Token)
    requires IsRun(tr, steps) && GoodLogins(steps) && n < |steps|
    requires Accepts(tr[n].store, tr[n].now, jwt) && !Accepts(tr[n + 1].store, tr[n + 1].now, jwt)
    ensures t in tr[n].issued && TokenId(t) == JwtId(jwt)
    ensures || steps[n].Tick?
            || (steps[n].LoginStep? && steps[n].key == t.key)
            || (steps[n].LogoutStep? && JwtId(steps[n].jwt) == JwtId(jwt))
  {
    OneInRun(tr, steps, n);
    t := AcceptedIsIssued(tr[n], jwt);
    assert Next(tr[n], steps[n], tr[n + 1]);
    match steps[n]
    case Request(request, call, throws) => RequestKeepsAccepted(tr[n], request, call, throws, jwt);
    case LoginStep(key, _, _, _) =>
      if key != t.key {
        LoginSparesOthers(tr[n], steps[n], t, jwt);
      }
    case _ =>
  }
}
