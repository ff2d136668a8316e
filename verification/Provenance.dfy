/**
 Where permissions come from: every one held was written by a grant of a request whose endpoint
 provides it, after everything that endpoint requires had held together.
 */
module Provenance {
  import opened Prelude
  import opened SessionKeys
  import opened SessionRecord
  import opened SessionStore
  import opened TokenIssue
  import opened PermissionGate
  import opened SessionMachine
  import opened Endpoints

  /** The session stored under `id` holds everything the endpoint requires, all at once. */
  ghost predicate Satisfies(st: Slots, e: Endpoint, id: string) {
    Stored(st, id) && forall p :: Requires(e, p) ==> Has(SessionAt(st, id), p)
  }

  /** A request that is about to write a grant of `p`, which its endpoint provides, to the session `id`. */
  ghost predicate Granting(table: set<Endpoint>, q: Process, id: string, p: Perm) {
    && q.phase.Writing? && q.phase.granting && q.phase.target == id
    && q.endpoint in table && Provides(q.endpoint, p) && Has(q.phase.write.session, p)
  }

  /** In step `m` request `i` reads its session and finds everything its endpoint `e` requires. */
  ghost predicate ChecksAt(tr: seq<State>, steps: seq<Step>, m: nat, i: nat, e: Endpoint, id: string)
    requires |tr| == |steps| + 1
  {
    m < |steps| && steps[m].GetSession? && steps[m].p == i && Satisfies(tr[m].store, e, id)
  }

  /** Step `k` stores such a grant, of a request that passed its check in step `m`. */
  ghost predicate GrantAt(
    table: set<Endpoint>, tr: seq<State>, steps: seq<Step>, k: nat, m: nat, id: string, p: Perm)
    requires |tr| == |steps| + 1
  {
    && m < k < |steps| && steps[k].Set? && At(tr[k], steps[k].p)
    && Granting(table, tr[k].procs[steps[k].p], id, p)
    && Holds(tr[k + 1].store, id, p)
    && ChecksAt(tr, steps, m, steps[k].p, tr[k].procs[steps[k].p].endpoint, id)
  }

  ghost predicate Granted(table: set<Endpoint>, tr: seq<State>, steps: seq<Step>, n: nat, id: string, p: Perm)
    requires |tr| == |steps| + 1
  {
    exists k, m :: 0 <= m < k < n && GrantAt(table, tr, steps, k, m, id, p)
  }

  /** Request `i` has passed its check before the `n`-th state. */
  ghost predicate Checked(tr: seq<State>, steps: seq<Step>, n: nat, i: nat, e: Endpoint, id: string)
    requires |tr| == |steps| + 1
  {
    exists m :: 0 <= m < n && ChecksAt(tr, steps, m, i, e, id)
  }

  ghost predicate StoreExplained(table: set<Endpoint>, tr: seq<State>, steps: seq<Step>, n: nat)
    requires |tr| == |steps| + 1 && n < |tr|
  {
    forall id, p :: Holds(tr[n].store, id, p) ==> Granted(table, tr, steps, n, id, p)
  }

  /** A request with updates to make has passed its check; what it is about to write it grants, or was granted. */
  ghost predicate ProcExplained(
    table: set<Endpoint>, tr: seq<State>, steps: seq<Step>, n: nat, i: nat, q: Process)
    requires |tr| == |steps| + 1 && n < |tr|
  {
    && ((q.phase.Idle? || q.phase.Writing?) && q.endpoint != NO_METADATA ==>
          Checked(tr, steps, n, i, q.endpoint, q.id))
    && (q.phase.Writing? ==>
          forall p :: Has(q.phase.write.session, p) ==>
            Granting(table, q, q.phase.target, p) || Granted(table, tr, steps, n, q.phase.target, p))
  }

  ghost predicate Explained(table: set<Endpoint>, tr: seq<State>, steps: seq<Step>, n: nat)
    requires |tr| == |steps| + 1 && n < |tr|
  {
    && StoreExplained(table, tr, steps, n)
    && forall i :: 0 <= i < |tr[n].procs| ==> ProcExplained(table, tr, steps, n, i, tr[n].procs[i])
  }

  // ---- One step ----

  lemma StillExplained(table: set<Endpoint>, tr: seq<State>, steps: seq<Step>, n: nat, i: nat, q: Process)
    requires |tr| == |steps| + 1 && n + 1 < |tr| && ProcExplained(table, tr, steps, n, i, q)
    ensures ProcExplained(table, tr, steps, n + 1, i, q)
  {
    forall p | q.phase.Writing? && Granted(table, tr, steps, n, q.phase.target, p)
      ensures Granted(table, tr, steps, n + 1, q.phase.target, p)
    {
      var k, m :| 0 <= m < k < n && GrantAt(table, tr, steps, k, m, q.phase.target, p);
    }
    if Checked(tr, steps, n, i, q.endpoint, q.id) {
      var m :| 0 <= m < n && ChecksAt(tr, steps, m, i, q.endpoint, q.id);
    }
  }

  /** The check of a request on the state it reads. */
  lemma SessionExplained(table: set<Endpoint>, tr: seq<State>, steps: seq<Step>, n: nat, q: Process)
    requires |tr| == |steps| + 1 && n < |steps| && steps[n].GetSession? && q.phase.AtSession?
    ensures ProcExplained(
              table, tr, steps, n + 1, steps[n].p, AfterSession(tr[n].store, tr[n].now, q, steps[n].valid))
  {
    var st := tr[n].store;
    var r := ReadSession(st, Slot(SessionNs, q.id), tr[n].now);
    if r.Ok? && Check(q.endpoint, r.value) {
      CheckIff(q.endpoint, r.value);
      assert ChecksAt(tr, steps, n, steps[n].p, q.endpoint, q.id);
    }
  }

  /** Only a grant of the process's own endpoint puts a permission. */
  lemma PutIsGranting(table: set<Endpoint>, q: Process, op: Op, p: Perm)
    requires Proper(table, q) && q.phase.Idle? && op in q.phase.todo && Puts(op, p)
    ensures q.phase.granting && q.endpoint in table && Provides(q.endpoint, p)
  {
    assert q.phase.granting && op in GrantOps(q.endpoint);
    GrantsProvided(q.endpoint, p);
  }

  /** What is computed from a read was held there, with a grant behind it, or is being granted now. */
  lemma GetExplained(
    table: set<Endpoint>, tr: seq<State>, steps: seq<Step>, n: nat, i: nat, q: Process, at: int)
    requires |tr| == |steps| + 1 && n < |tr|
    requires StoreExplained(table, tr, steps, n) && ProcExplained(table, tr, steps, n, i, q)
    requires Proper(table, q) && Keyed(q) && q.phase.Idle? && q.phase.todo != []
    ensures ProcExplained(table, tr, steps, n, i, AfterGet(tr[n].store, tr[n].now, q, at))
  {
    var st, now, op := tr[n].store, tr[n].now, q.phase.todo[0];
    var q' := AfterGet(st, now, q, at);
    if q'.phase.Writing? {
      var s := ReadSession(st, Slot(SessionNs, q.id), now).value;
      forall p | Has(q'.phase.write.session, p)
        ensures Granting(table, q', q.id, p) || Granted(table, tr, steps, n, q.id, p)
      {
        StampKeepsLists(ApplyOp(op, s).value, at, UpdateTtl(s, at));
        UpdateAddsOnly(op, s, p);
        if Has(s, p) {
          assert Holds(st, q.id, p);
        } else {
          PutIsGranting(table, q, op, p);
        }
      }
    }
  }

  lemma ProcStep(table: set<Endpoint>, tr: seq<State>, steps: seq<Step>, n: nat, i: nat)
    requires |tr| == |steps| + 1 && n < |steps| && Next(table, tr[n], steps[n], tr[n + 1])
    requires Explained(table, tr, steps, n) && AllProper(table, tr[n]) && AllKeyed(tr[n]) && i < |tr[n + 1].procs|
    ensures ProcExplained(table, tr, steps, n + 1, i, tr[n + 1].procs[i])
  {
    var s := tr[n];
    if i < |s.procs| {
      StillExplained(table, tr, steps, n, i, s.procs[i]);
      match steps[n]
      case GetSession(p, _) =>
        if p == i {
          SessionExplained(table, tr, steps, n, s.procs[p]);
        }
      case Get(p, at) =>
        if p == i {
          GetExplained(table, tr, steps, n, p, s.procs[p], at);
          StillExplained(table, tr, steps, n, p, tr[n + 1].procs[p]);
        }
      case _ =>
    }
  }

  /** A permission in the store after a step was there before, or the step stores a write that holds it. */
  lemma StoreStep(table: set<Endpoint>, tr: seq<State>, steps: seq<Step>, n: nat, id: string, p: Perm)
    requires |tr| == |steps| + 1 && n < |steps| && Next(table, tr[n], steps[n], tr[n + 1])
    requires Explained(table, tr, steps, n) && AllKeyed(tr[n]) && Holds(tr[n + 1].store, id, p)
    ensures Granted(table, tr, steps, n + 1, id, p)
  {
    StoredAfter(table, tr[n], steps[n], id);
    if Holds(tr[n].store, id, p) {
      var k, m :| 0 <= m < k < n && GrantAt(table, tr, steps, k, m, id, p);
    } else {
      var q := tr[n].procs[steps[n].p];
      assert ProcExplained(table, tr, steps, n, steps[n].p, q);
      if Granting(table, q, id, p) {
        assert q.endpoint != NO_METADATA && q.id == id;
        var m :| 0 <= m < n && ChecksAt(tr, steps, m, steps[n].p, q.endpoint, id);
        assert GrantAt(table, tr, steps, n, m, id, p);
      } else {
        var k, m :| 0 <= m < k < n && GrantAt(table, tr, steps, k, m, id, p);
      }
    }
  }

  // ---- Runs ----

  lemma {:induction false} ExplainedInRun(table: set<Endpoint>, tr: seq<State>, steps: seq<Step>, n: nat)
    requires IsRun(table, tr, steps) && n < |tr|
    ensures Explained(table, tr, steps, n)
  {
    if n > 0 {
      ExplainedInRun(table, tr, steps, n - 1);
      KeyedInRun(table, tr, steps, n - 1);
      assert Next(table, tr[n - 1], steps[n - 1], tr[n]);
      forall id, p | Holds(tr[n].store, id, p)
        ensures Granted(table, tr, steps, n, id, p)
      {
        StoreStep(table, tr, steps, n - 1, id, p);
      }
      forall i | 0 <= i < |tr[n].procs|
        ensures ProcExplained(table, tr, steps, n, i, tr[n].procs[i])
      {
        ProcStep(table, tr, steps, n - 1, i);
      }
    }
  }

  /**
   Provenance, in every interleaved run: a permission held by a stored session was put there by a
   granting write of a request on that session, whose endpoint provides it, and everything that
   endpoint requires was held together by the same session in the earlier state that request read.
   */
  lemma GrantedByEndpoint(
    table: set<Endpoint>, tr: seq<State>, steps: seq<Step>, n: nat, id: string, p: Perm) returns (k: nat, m: nat)
    requires IsRun(table, tr, steps) && n < |tr| && Holds(tr[n].store, id, p)
    ensures m < k < n && steps[k].Set? && At(tr[k], steps[k].p)
    ensures var q := tr[k].procs[steps[k].p];
            && q.phase.Writing? && q.phase.granting && q.phase.target == id
            && q.endpoint in table && Provides(q.endpoint, p) && Has(q.phase.write.session, p)
            && Holds(tr[k + 1].store, id, p)
            && steps[m].GetSession? && steps[m].p == steps[k].p && Satisfies(tr[m].store, q.endpoint, id)
  {
    ExplainedInRun(table, tr, steps, n);
    k, m :| 0 <= m < k < n && GrantAt(table, tr, steps, k, m, id, p);
  }

  /**
   A derivation of a held permission from the empty session: the grant that wrote it, and a
   derivation of everything its endpoint required, from the state in which that held.
   */
  ghost predicate Derivation(table: set<Endpoint>, tr: seq<State>, steps: seq<Step>, n: nat, id: string, p: Perm)
    requires |tr| == |steps| + 1
    decreases n
  {
    exists k, m :: 0 <= m < k < n && GrantAt(table, tr, steps, k, m, id, p) &&
      forall r :: Requires(tr[k].procs[steps[k].p].endpoint, r) ==> Derivation(table, tr, steps, m, id, r)
  }

  /** Every permission held after n steps has a derivation by grants of the run itself. */
  lemma {:induction false} HeldIsDerived(
    table: set<Endpoint>, tr: seq<State>, steps: seq<Step>, n: nat, id: string, p: Perm)
    requires IsRun(table, tr, steps) && n < |tr| && Holds(tr[n].store, id, p)
    ensures Derivation(table, tr, steps, n, id, p)
    decreases n
  {
    var k, m := GrantedByEndpoint(table, tr, steps, n, id, p);
    assert GrantAt(table, tr, steps, k, m, id, p);
    forall r | Requires(tr[k].procs[steps[k].p].endpoint, r)
      ensures Derivation(table, tr, steps, m, id, r)
    {
      HeldIsDerived(table, tr, steps, m, id, r);
    }
  }

  // ---- The application's endpoints ----

  /** SELFIE_VERIFIED was granted by checkSelfie, after a state holding OTP_REQUESTED and OTP_VERIFIED together. */
  lemma SelfieNeedsOtp(tr: seq<State>, steps: seq<Step>, n: nat, id: string) returns (k: nat, m: nat)
    requires IsRun(TABLE, tr, steps) && n < |tr| && Holds(tr[n].store, id, Flow(SignContract, SelfieVerified))
    ensures m < k < n && steps[k].Set? && At(tr[k], steps[k].p)
    ensures Granting(TABLE, tr[k].procs[steps[k].p], id, Flow(SignContract, SelfieVerified))
    ensures tr[k].procs[steps[k].p].endpoint == CHECK_SELFIE
    ensures Holds(tr[m].store, id, Flow(SignContract, OtpRequested))
    ensures Holds(tr[m].store, id, Flow(SignContract, FlowOtpVerified))
  {
    k, m := GrantedByEndpoint(TABLE, tr, steps, n, id, Flow(SignContract, SelfieVerified));
    var e := tr[k].procs[steps[k].p].endpoint;
    assert e == CHECK_SELFIE;
    assert Requires(e, Flow(SignContract, OtpRequested)) && Requires(e, Flow(SignContract, FlowOtpVerified));
  }

  /** FORGOT_PASSWORD was granted by its one endpoint, after a state holding OTP_VERIFIED. */
  lemma ForgotPasswordNeedsOtp(tr: seq<State>, steps: seq<Step>, n: nat, id: string) returns (k: nat, m: nat)
    requires IsRun(TABLE, tr, steps) && n < |tr| && Holds(tr[n].store, id, User(ForgotPassword))
    ensures m < k < n && steps[k].Set? && At(tr[k], steps[k].p)
    ensures Granting(TABLE, tr[k].procs[steps[k].p], id, User(ForgotPassword))
    ensures tr[k].procs[steps[k].p].endpoint == ADD_SESSION_LOCAL
    ensures Holds(tr[m].store, id, User(OtpVerified))
  {
    k, m := GrantedByEndpoint(TABLE, tr, steps, n, id, User(ForgotPassword));
    var e := tr[k].procs[steps[k].p].endpoint;
    assert e == ADD_SESSION_LOCAL;
    assert Requires(e, User(OtpVerified));
  }

  /** No endpoint provides UPLOAD_IMAGE_PRIVATE, so nobody ever holds it. */
  lemma NobodyUploads(tr: seq<State>, steps: seq<Step>, n: nat, id: string)
    requires IsRun(TABLE, tr, steps) && n < |tr|
    ensures !Holds(tr[n].store, id, User(UploadImagePrivate))
  {
    if Holds(tr[n].store, id, User(UploadImagePrivate)) {
      var k, m := GrantedByEndpoint(TABLE, tr, steps, n, id, User(UploadImagePrivate));
      assert false;
    }
  }
}
