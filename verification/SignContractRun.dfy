/** The whole sign-contract flow in one run: login, requestOtp, checkOtp and checkSelfie, each granted. */
module SignContractRun {
  import opened Prelude
  import opened SessionKeys
  import opened SessionRecord
  import opened SessionStore
  import opened TokenIssue
  import opened AuthGuard
  import opened SerialRuns
  import opened SingleToken
  import opened ServedRequests
  import opened TokenWindow
  import SignContractChain

  const LOGIN := LoginStep("u", "-1", map[], 10)
  const TOKEN := Jwt("u", "-1", 10, true)
  const ID := BoundId("u", "-1")
  const STEPS := [LOGIN, Ask(RequestOtp("c", "o", false)), Ask(CheckOtp), Ask(CheckSelfie("x"))]

  function Ask(call: Call): Step {
    Request(TOKEN, call, false)
  }

  ghost predicate TheRun(tr: seq<State>) {
    IsRun(tr, STEPS) && tr[0].now == 0
  }

  lemma TheRunExists() returns (tr: seq<State>)
    ensures TheRun(tr)
  {
    var s0 := State(map[], 0, {}, {}, []);
    var s1 := Apply(s0, STEPS[0]);
    var s2 := Apply(s1, STEPS[1]);
    var s3 := Apply(s2, STEPS[2]);
    tr := [s0, s1, s2, s3, Apply(s3, STEPS[3])];
  }

  lemma ClockStands(tr: seq<State>, k: nat)
    requires TheRun(tr) && k < |tr|
    ensures tr[k].now == 0
  {
    if k > 0 {
      ClockStands(tr, k - 1);
      assert Next(tr[k - 1], STEPS[k - 1], tr[k]);
    }
  }

  lemma NothingDisturbs(tr: seq<State>, k: nat)
    requires TheRun(tr) && 0 < k < |tr|
    ensures GoodLogins(STEPS) && Undisturbed(tr, STEPS, 0, k, TokenFrom(LOGIN))
  {
    HashAndUuidAreGood("u", "-1");
  }

  /** The session after the login and before each request, with its token good and time left. */
  lemma Ready(tr: seq<State>, k: nat)
    requires TheRun(tr) && 0 < k < |tr|
    ensures KeyedStore(tr[k].store) && tr[k].now == 0
    ensures TokenGood(tr[k].store, 0, TOKEN) && Stored(tr[k].store, ID) && TimeLeft(tr[k].store, 0, TOKEN)
  {
    ClockStands(tr, k);
    NothingDisturbs(tr, k);
    KeptInRun(tr, STEPS, 0, k);
    WindowByClock(tr, STEPS, 0, k);
    KnownInRun(tr, STEPS, k);
    assert Signed(LOGIN, 0) == TOKEN && JwtId(TOKEN) == ID;
    AcceptsIff(tr[k].store, 0, TOKEN);
  }

  /** A request the session is entitled to is granted. */
  lemma Granted(tr: seq<State>, k: nat, call: Call)
    requires TheRun(tr) && 0 < k < |STEPS| && STEPS[k] == Ask(call)
    requires Stored(tr[k].store, ID) && Entitled(call, SessionAt(tr[k].store, ID))
    ensures Stored(tr[k + 1].store, ID)
    ensures Simplify(SessionAt(tr[k + 1].store, ID)) ==
            Granting(call, Handled(call, Simplify(SessionAt(tr[k].store, ID))))
  {
    Ready(tr, k);
    assert JwtId(TOKEN) == ID;
    assert Next(tr[k], STEPS[k], tr[k + 1]);
    GrantedIff(tr[k].store, TOKEN, call, false, 0);
    Leaves(tr[k].store, TOKEN, call, false, 0);
  }

  lemma Held(s: SessionValue, q: FlowPermission)
    ensures q in FlowOf(Simplify(s)).permissions <==> q in FlowList(s, SignContract)
  {
  }

  lemma FullPrefix(list: seq<FlowPermission>)
    requires list <= SignContractChain.CHAIN && SelfieVerified in list
    ensures list == SignContractChain.CHAIN
  {
  }

  const FIELDS := map["contractId" := "c", "otpId" := "o"]

  function TheFlow(permissions: set<FlowPermission>, fields: map<string, string>): map<FlowType, SimpleFlow> {
    map[SignContract := SimpleFlow(permissions, fields)]
  }

  lemma RequestOn(a: SimpleSession)
    requires a.flows == map[]
    ensures var call := RequestOtp("c", "o", false);
            Granting(call, Handled(call, a)).flows == TheFlow({OtpRequested}, FIELDS)
  {
    assert FlowOf(a) == SimpleFlow({}, map[]);
    var none: map<string, string> := map[];
    var call := RequestOtp("c", "o", false);
    assert FlowOf(Handled(call, a)) == SimpleFlow({}, none["contractId" := "c"]["otpId" := "o"]);
    assert {} + {OtpRequested} == {OtpRequested};
    assert none["contractId" := "c"]["otpId" := "o"] == FIELDS;
  }

  lemma CheckOn(a: SimpleSession, permissions: set<FlowPermission>)
    requires a.flows == TheFlow(permissions, FIELDS)
    ensures Granting(CheckOtp, Handled(CheckOtp, a)).flows == TheFlow(permissions + {FlowOtpVerified}, FIELDS)
  {
  }

  lemma SelfieOn(a: SimpleSession, permissions: set<FlowPermission>)
    requires a.flows == TheFlow(permissions, FIELDS)
    ensures Granting(CheckSelfie("x"), Handled(CheckSelfie("x"), a)).flows ==
            TheFlow(permissions + {SelfieVerified}, FIELDS["selfieId" := "x"])
  {
    var call := CheckSelfie("x");
    var b := Handled(call, a);
    assert FlowOf(a) == SimpleFlow(permissions, FIELDS);
    assert b.flows[SignContract] == SimpleFlow(permissions, FIELDS["selfieId" := "x"]);
    assert FlowOf(b) == b.flows[SignContract];
  }

  ghost predicate FlowIs(s: State, permissions: set<FlowPermission>, fields: map<string, string>) {
    Stored(s.store, ID) && Simplify(SessionAt(s.store, ID)).flows == TheFlow(permissions, fields)
  }

  lemma AfterLogin(tr: seq<State>)
    requires TheRun(tr)
    ensures Stored(tr[1].store, ID) && Simplify(SessionAt(tr[1].store, ID)).flows == map[]
  {
    assert Next(tr[0], STEPS[0], tr[1]);
    LoginWrites(tr[0], LOGIN);
  }

  lemma AfterRequest(tr: seq<State>)
    requires TheRun(tr)
    ensures FlowIs(tr[2], {OtpRequested}, FIELDS)
  {
    AfterLogin(tr);
    RequestOn(Simplify(SessionAt(tr[1].store, ID)));
    Granted(tr, 1, RequestOtp("c", "o", false));
  }

  lemma AfterCheck(tr: seq<State>)
    requires TheRun(tr)
    ensures FlowIs(tr[3], {OtpRequested} + {FlowOtpVerified}, FIELDS)
  {
    AfterRequest(tr);
    CheckOn(Simplify(SessionAt(tr[2].store, ID)), {OtpRequested});
    Held(SessionAt(tr[2].store, ID), OtpRequested);
    Granted(tr, 2, CheckOtp);
  }

  lemma AfterSelfie(tr: seq<State>)
    requires TheRun(tr)
    ensures FlowIs(tr[4], {OtpRequested} + {FlowOtpVerified} + {SelfieVerified}, FIELDS["selfieId" := "x"])
  {
    AfterCheck(tr);
    SelfieOn(Simplify(SessionAt(tr[3].store, ID)), {OtpRequested} + {FlowOtpVerified});
    Held(SessionAt(tr[3].store, ID), OtpRequested);
    Held(SessionAt(tr[3].store, ID), FlowOtpVerified);
    Granted(tr, 3, CheckSelfie("x"));
  }

  /** The flow ends with the whole chain, the selfie and the contract in the session. */
  lemma WholeFlow() returns (tr: seq<State>)
    ensures IsRun(tr, STEPS) && Stored(tr[4].store, ID)
    ensures var s := SessionAt(tr[4].store, ID);
            && FlowList(s, SignContract) == SignContractChain.CHAIN && SignContract in Simplify(s).flows
            && Simplify(s).flows[SignContract].fields == FIELDS["selfieId" := "x"]
  {
    tr := TheRunExists();
    AfterSelfie(tr);
    Held(SessionAt(tr[4].store, ID), SelfieVerified);
    SignContractChain.AlwaysPrefix(tr, STEPS, 4, ID);
    FullPrefix(FlowList(SessionAt(tr[4].store, ID), SignContract));
  }
}
