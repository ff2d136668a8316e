/**
 Logins of one user that overlap. Each looks up the user's tokens, clears what it found without
 waiting and writes its own; the steps of different logins interleave freely. Exactly the tokens
 survive after whose writing no login has looked, so two overlapping logins leave two.
 */
module LoginRaces {
  import opened Prelude
  import opened SessionKeys
  import opened SessionStore
  import opened TokenIssue
  import opened SingleToken

  /** The user's key, the token ids of the logins, and the clock, which stands still. */
  datatype Config = Config(key: string, ids: seq<string>, now: int, lifetime: int)

  datatype Phase = Waiting | Looked | Written

  /** `todo` are the entries the login has found and not yet deleted. */
  datatype Login = Login(phase: Phase, todo: set<Slot>)

  datatype State = State(store: Slots, logins: seq<Login>)

  datatype Step = Look(p: nat) | Clear(p: nat, slot: Slot) | Issue(p: nat)

  ghost predicate Proper(cfg: Config) {
    && cfg.lifetime > 0
    && (forall p :: 0 <= p < |cfg.ids| ==> GoodUser(cfg.key, cfg.ids[p]))
    && NoDup(cfg.ids)
  }

  function TokenOf(cfg: Config, p: nat): Slot
    requires p < |cfg.ids|
  {
    Slot(TokenNs, BoundId(cfg.key, cfg.ids[p]))
  }

  function BothSlots(ids: set<string>): set<Slot> {
    set id, ns | id in ids && ns in {TokenNs, SessionNs} :: Slot(ns, id)
  }

  predicate Enabled(s: State, step: Step) {
    match step
    case Look(p) => p < |s.logins| && s.logins[p].phase == Waiting
    case Clear(p, slot) => p < |s.logins| && slot in s.logins[p].todo
    case Issue(p) => p < |s.logins| && s.logins[p].phase == Looked
  }

  function Apply(cfg: Config, s: State, step: Step): State
    requires Enabled(s, step) && |s.logins| == |cfg.ids|
  {
    match step
    case Look(p) =>
      var found := BothSlots(ExistingIds(s.store, cfg.key, cfg.ids[p], cfg.now));
      s.(logins := s.logins[p := Login(Looked, found)])
    case Clear(p, slot) =>
      State(s.store - {slot}, s.logins[p := s.logins[p].(todo := s.logins[p].todo - {slot})])
    case Issue(p) =>
      State(s.store[TokenOf(cfg, p) := Entry(TokenRecord(cfg.key, cfg.ids[p]), cfg.now + 1000 * cfg.lifetime)],
            s.logins[p := s.logins[p].(phase := Written)])
  }

  /** At first nobody has looked, and the ids are fresh. */
  ghost predicate Initial(cfg: Config, s: State) {
    && |s.logins| == |cfg.ids|
    && forall p :: 0 <= p < |s.logins| ==> s.logins[p] == Login(Waiting, {}) && TokenOf(cfg, p) !in s.store
  }

  ghost predicate Next(cfg: Config, s: State, step: Step, s': State) {
    Enabled(s, step) && |s.logins| == |cfg.ids| && s' == Apply(cfg, s, step)
  }

  ghost predicate IsRun(cfg: Config, tr: seq<State>, steps: seq<Step>) {
    && Proper(cfg)
    && |tr| == |steps| + 1
    && Initial(cfg, tr[0])
    && forall i {:trigger steps[i]} :: 0 <= i < |steps| ==> Next(cfg, tr[i], steps[i], tr[i + 1])
  }

  /** A login that is not overlapped, its deletions done when it writes, is createToken. */
  lemma AloneIsCreateToken(cfg: Config, s: State, p: nat)
    requires cfg.lifetime > 0 && |s.logins| == |cfg.ids| && Enabled(s, Look(p))
    ensures var looked := Apply(cfg, s, Look(p));
            var cleared := State(looked.store - looked.logins[p].todo, looked.logins[p := Login(Looked, {})]);
            Outcome(Apply(cfg, cleared, Issue(p)).store, true) ==
            CreateToken(s.store, cfg.key, cfg.ids[p], false, cfg.lifetime, cfg.now)
  {
    var ids := ExistingIds(s.store, cfg.key, cfg.ids[p], cfg.now);
    forall slot: Slot ensures slot in BothSlots(ids) <==> slot.id in ids {
      match slot.ns
      case TokenNs => assert slot == Slot(TokenNs, slot.id);
      case SessionNs => assert slot == Slot(SessionNs, slot.id);
    }
    assert s.store - BothSlots(ids) == ClearIds(s.store, ids);
  }

  /** Some login has looked after login `p` wrote its token. */
  ghost predicate Overtaken(steps: seq<Step>, n: nat, p: nat)
    requires n <= |steps|
  {
    exists i, j :: 0 <= i < j < n && steps[i] == Issue(p) && steps[j].Look?
  }

  ghost predicate HasWritten(steps: seq<Step>, n: nat, p: nat)
    requires n <= |steps|
  {
    exists i :: 0 <= i < n && steps[i] == Issue(p)
  }

  ghost predicate Doomed(s: State, slot: Slot) {
    exists q :: 0 <= q < |s.logins| && slot in s.logins[q].todo
  }

  /** Where the token of login `p` is, given whether it has been written and overtaken. */
  ghost predicate Placed(cfg: Config, s: State, p: nat, written: bool, overtaken: bool)
    requires p < |s.logins| == |cfg.ids|
  {
    var t := TokenOf(cfg, p);
    && (forall q :: 0 <= q < |s.logins| && s.logins[q].phase == Waiting ==> s.logins[q].todo == {})
    && (s.logins[p].phase == Written <==> written)
    && (!written ==> t !in s.store && !Doomed(s, t))
    && (written && !overtaken ==> Live(s.store, t, cfg.now) && !Doomed(s, t))
    && (written && overtaken ==> t !in s.store || Doomed(s, t))
  }

  lemma DistinctTokens(cfg: Config, p: nat, q: nat)
    requires Proper(cfg) && p < |cfg.ids| && q < |cfg.ids| && p != q
    ensures TokenOf(cfg, p) != TokenOf(cfg, q)
  {
    var s, t := BoundId(cfg.key, cfg.ids[p]), BoundId(cfg.key, cfg.ids[q]);
    assert s[|cfg.key| + 1..] == cfg.ids[p] && t[|cfg.key| + 1..] == cfg.ids[q];
  }

  /** A login finds exactly the live tokens of the user. */
  lemma Finds(cfg: Config, s: State, p: nat, slot: Slot)
    requires Proper(cfg) && p < |cfg.ids| && slot.ns == TokenNs && cfg.key + ":" <= slot.id
    ensures slot in BothSlots(ExistingIds(s.store, cfg.key, cfg.ids[p], cfg.now)) <==> Live(s.store, slot, cfg.now)
  {
    LookupExact(LiveSlots(s.store, cfg.now), cfg.key, cfg.ids[p]);
  }

  lemma LookPlaces(cfg: Config, s: State, q: nat, p: nat, written: bool, overtaken: bool)
    requires Proper(cfg) && p < |s.logins| == |cfg.ids| && Enabled(s, Look(q)) && Placed(cfg, s, p, written, overtaken)
    ensures Placed(cfg, Apply(cfg, s, Look(q)), p, written, written)
  {
    var s', t := Apply(cfg, s, Look(q)), TokenOf(cfg, p);
    BoundToUser(cfg.key, cfg.key, cfg.ids[p]);
    Finds(cfg, s, q, t);
    if t in s.store && written {
      if Live(s.store, t, cfg.now) {
        assert t in s'.logins[q].todo;
      } else {
        assert Doomed(s, t);
      }
    }
    if r :| 0 <= r < |s.logins| && t in s.logins[r].todo && r != q {
      assert t in s'.logins[r].todo;
    }
  }

  lemma ClearPlaces(cfg: Config, s: State, q: nat, slot: Slot, p: nat, written: bool, overtaken: bool)
    requires Proper(cfg) && p < |s.logins| == |cfg.ids| && Enabled(s, Clear(q, slot))
    requires Placed(cfg, s, p, written, overtaken)
    ensures Placed(cfg, Apply(cfg, s, Clear(q, slot)), p, written, overtaken)
  {
    var s', t := Apply(cfg, s, Clear(q, slot)), TokenOf(cfg, p);
    if t != slot && Doomed(s, t) {
      var r :| 0 <= r < |s.logins| && t in s.logins[r].todo;
      assert t in s'.logins[r].todo;
    }
    assert t == slot ==> Doomed(s, t);
  }

  lemma IssuePlaces(cfg: Config, s: State, q: nat, p: nat, written: bool, overtaken: bool)
    requires Proper(cfg) && p < |s.logins| == |cfg.ids| && Enabled(s, Issue(q)) && Placed(cfg, s, p, written, overtaken)
    requires p == q ==> !overtaken
    ensures Placed(cfg, Apply(cfg, s, Issue(q)), p, written || p == q, overtaken)
  {
    var s', t := Apply(cfg, s, Issue(q)), TokenOf(cfg, p);
    if p != q {
      DistinctTokens(cfg, p, q);
    }
    assert Doomed(s', t) ==> Doomed(s, t);
    if Doomed(s, t) {
      var r :| 0 <= r < |s.logins| && t in s.logins[r].todo;
      assert t in s'.logins[r].todo;
    }
  }

  lemma HistoryStep(steps: seq<Step>, n: nat, p: nat)
    requires n < |steps|
    ensures HasWritten(steps, n + 1, p) <==> HasWritten(steps, n, p) || steps[n] == Issue(p)
    ensures Overtaken(steps, n + 1, p) <==> Overtaken(steps, n, p) || (steps[n].Look? && HasWritten(steps, n, p))
    ensures Overtaken(steps, n, p) ==> HasWritten(steps, n, p)
  {
    if steps[n].Look? && HasWritten(steps, n, p) {
      var i :| 0 <= i < n && steps[i] == Issue(p);
      assert steps[n].Look?;
    }
  }

  lemma {:induction false} PlacedInRun(cfg: Config, tr: seq<State>, steps: seq<Step>, n: nat, p: nat)
    requires IsRun(cfg, tr, steps) && n < |tr| && p < |cfg.ids|
    ensures |tr[n].logins| == |cfg.ids|
    ensures Placed(cfg, tr[n], p, HasWritten(steps, n, p), Overtaken(steps, n, p))
  {
    if n > 0 {
      PlacedInRun(cfg, tr, steps, n - 1, p);
      assert Next(cfg, tr[n - 1], steps[n - 1], tr[n]);
      HistoryStep(steps, n - 1, p);
      var written, overtaken := HasWritten(steps, n - 1, p), Overtaken(steps, n - 1, p);
      match steps[n - 1]
      case Look(q) => LookPlaces(cfg, tr[n - 1], q, p, written, overtaken);
      case Clear(q, slot) => ClearPlaces(cfg, tr[n - 1], q, slot, p, written, overtaken);
      case Issue(q) => IssuePlaces(cfg, tr[n - 1], q, p, written, overtaken);
    }
  }

  /** Every login has written its token and finished its clear. */
  ghost predicate Settled(s: State) {
    forall p :: 0 <= p < |s.logins| ==> s.logins[p] == Login(Written, {})
  }

  /** In the end exactly the tokens are live after whose writing no login has looked. */
  lemma SurvivesIff(cfg: Config, tr: seq<State>, steps: seq<Step>, p: nat)
    requires IsRun(cfg, tr, steps) && p < |cfg.ids| && Settled(tr[|steps|])
    ensures Live(tr[|steps|].store, TokenOf(cfg, p), cfg.now) <==> !Overtaken(steps, |steps|, p)
  {
    PlacedInRun(cfg, tr, steps, |steps|, p);
    assert !Doomed(tr[|steps|], TokenOf(cfg, p));
  }

  ghost predicate OneSurvivor(cfg: Config, s: State) {
    forall p, q :: 0 <= p < q < |cfg.ids| ==>
      !(Live(s.store, TokenOf(cfg, p), cfg.now) && Live(s.store, TokenOf(cfg, q), cfg.now))
  }

  /** Of any two logins one wrote its token before some login looked. */
  ghost predicate OneOvertaken(cfg: Config, steps: seq<Step>) {
    forall p, q :: 0 <= p < q < |cfg.ids| ==> Overtaken(steps, |steps|, p) || Overtaken(steps, |steps|, q)
  }

  /** The exact condition for a single live token of the overlapping logins. */
  lemma SingleTokenIff(cfg: Config, tr: seq<State>, steps: seq<Step>)
    requires IsRun(cfg, tr, steps) && Settled(tr[|steps|])
    ensures OneSurvivor(cfg, tr[|steps|]) <==> OneOvertaken(cfg, steps)
  {
    forall p, q | 0 <= p < q < |cfg.ids|
      ensures !(Live(tr[|steps|].store, TokenOf(cfg, p), cfg.now) && Live(tr[|steps|].store, TokenOf(cfg, q), cfg.now))
              <==> Overtaken(steps, |steps|, p) || Overtaken(steps, |steps|, q)
    {
      SurvivesIff(cfg, tr, steps, p);
      SurvivesIff(cfg, tr, steps, q);
    }
  }

  // ---- Two overlapping logins ----

  const TWO := Config("k", ["-1", "-2"], 0, 10)

  lemma TwoIsProper()
    ensures Proper(TWO)
  {
    HashAndUuidAreGood("k", "-1");
    HashAndUuidAreGood("k", "-2");
    assert "-1"[1] != "-2"[1];
  }

  lemma NothingFound(id: string)
    ensures BothSlots(ExistingIds(map[], "k", id, 0)) == {}
  {
    assert LiveSlots(map[], 0) == {};
    assert RenderAll({}) == {};
  }

  /** Both look before either writes, and both tokens stay. */
  lemma OverlapLeavesTwo() returns (tr: seq<State>, steps: seq<Step>)
    ensures IsRun(TWO, tr, steps) && Settled(tr[|steps|]) && !OneSurvivor(TWO, tr[|steps|])
  {
    TwoIsProper();
    NothingFound("-1");
    NothingFound("-2");
    steps := [Look(0), Look(1), Issue(0), Issue(1)];
    var s0 := State(map[], [Login(Waiting, {}), Login(Waiting, {})]);
    var s1 := Apply(TWO, s0, Look(0));
    var s2 := Apply(TWO, s1, Look(1));
    var s3 := Apply(TWO, s2, Issue(0));
    var s4 := Apply(TWO, s3, Issue(1));
    tr := [s0, s1, s2, s3, s4];
    DistinctTokens(TWO, 0, 1);
    assert Live(s4.store, TokenOf(TWO, 0), 0) && Live(s4.store, TokenOf(TWO, 1), 0);
  }
}
