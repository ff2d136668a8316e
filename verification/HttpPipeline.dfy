/**
 A request through the application as code: JwtGuard, PermissionInterceptor around
 ResponseInterceptor, and the sign-contract service. `Application.Request` performs the request
 step of `SerialRuns` on the Redis strings, and its reply tells how far the request got.
 */
module HttpPipeline {
  import opened Prelude
  import opened SessionKeys
  import opened SessionRecord
  import opened SessionStore
  import opened SessionServices
  import opened PermissionGate
  import opened Endpoints
  import opened AuthGuard
  import opened Responses
  import Serial = SerialRuns
  import TokenIssue

  class HttpRequest {
    var user: Option<string>
    var session: Option<SessionValue>

    constructor ()
      ensures user == None && session == None
    {
      user, session := None, None;
    }
  }

  class JwtGuard {
    const tokens: TokenSessionService
    const sessions: AuthSessionService

    constructor (tokens: TokenSessionService, sessions: AuthSessionService)
      ensures this.tokens == tokens && this.sessions == sessions
    {
      this.tokens, this.sessions := tokens, sessions;
    }

    /** On success the request carries the id in the token content and the session snapshot. */
    method CanActivate(ghost slots: Slots, jwt: Jwt, request: HttpRequest) returns (ok: bool)
      requires tokens.storage == sessions.storage && Represents(tokens.storage.entries, slots)
      modifies request
      ensures ok <==> Accepts(slots, tokens.storage.now, jwt)
      ensures ok <==>
                var token, session := Render(Slot(TokenNs, JwtId(jwt))), Render(Slot(SessionNs, JwtId(jwt)));
                var entries, now := tokens.storage.entries, tokens.storage.now;
                && now <= 1000 * jwt.exp && jwt.acceptable
                && token in entries && now < entries[token].deadline && entries[token].record.TokenRecord?
                && session in entries && now < entries[session].deadline && entries[session].record.SessionRec?
      ensures ok ==> request.user == ReadToken(slots, JwtId(jwt), tokens.storage.now)
      ensures ok ==> request.session == Some(ReadSession(slots, Slot(SessionNs, JwtId(jwt)), tokens.storage.now).value)
    {
      if jwt.exp * 1000 < tokens.storage.now || !jwt.acceptable {
        return false;
      }
      RenderedKey(tokens.storage.entries, slots, Slot(TokenNs, JwtId(jwt)));
      RenderedKey(tokens.storage.entries, slots, Slot(SessionNs, JwtId(jwt)));
      var content := tokens.GetSessionValue(JwtId(jwt));
      assert content == ReadToken(slots, JwtId(jwt), tokens.storage.now);
      if content.None? {
        return false;
      }
      request.user := content;
      var snapshot := sessions.GetSessionValue(JwtId(jwt));
      assert snapshot == ReadSession(slots, Slot(SessionNs, JwtId(jwt)), tokens.storage.now);
      if snapshot.Err? {
        return false;
      }
      request.session := Some(snapshot.value);
      return true;
    }
  }

  /** What the client gets: an authorization error, a response, or, when a grant fails, nothing at all. */
  datatype Reply = Refused | Replied(response: Response) | NeverReplied

  /** What the reply tells about how far a request got. */
  predicate Tells(reply: Reply, reached: Serial.Reached) {
    && (reply.Refused? <==> reached.Rejected?)
    && (reply.NeverReplied? <==> reached.GrantFailed?)
    && (reply.Replied? && reply.response.systemCode == SUCCESS <==> reached.Granted?)
    && (reply.Replied? && reply.response.systemCode != SUCCESS <==> reached.HandlerFailed?)
  }

  lemma UpdateOnStrings(strings: map<string, Entry>, slots: Slots, id: string, op: Op, now: int)
    requires Represents(strings, slots)
    ensures var r := RunOp(strings, Render(Slot(SessionNs, id)), op, now);
            && Represents(Kept(strings, r), Serial.RunOps(slots, id, [op], now).store)
            && (r.Ok? <==> Serial.RunOps(slots, id, [op], now).ok)
            && (r.Ok? <==> RunOp(slots, Slot(SessionNs, id), op, now).Ok?)
            && (r.Err? ==> r.error == RunOp(slots, Slot(SessionNs, id), op, now).error)
  {
    RunOpOnStrings(strings, slots, Slot(SessionNs, id), op, now);
    Serial.RunOne(slots, id, op, now);
  }

  class PermissionInterceptor {
    const sessions: AuthSessionService
    const responses: ResponseInterceptor

    constructor (sessions: AuthSessionService, responses: ResponseInterceptor)
      ensures this.sessions == sessions && this.responses == responses
    {
      this.sessions, this.responses := sessions, responses;
    }

    /** The checks before the handler, on the snapshot. */
    method Admit(e: Endpoint, session: SessionValue) returns (ok: bool)
      ensures ok <==> forall p :: Requires(e, p) ==> Has(session, p)
    {
      CheckIff(e, session);
      ok := CheckUserPermissions(e.required, session);
      if ok && e.flowMeta.Some? {
        ok := CheckFlowPermissions(e.flowMeta.value, session);
      }
    }

    method GrantUser(ghost slots: Slots, e: Endpoint, key: string) returns (ok: bool)
      requires Represents(sessions.storage.entries, slots)
      modifies sessions.storage`entries
      ensures Represents(sessions.storage.entries, Serial.RunOps(slots, key, UserGrants(e), sessions.storage.now).store)
      ensures ok == Serial.RunOps(slots, key, UserGrants(e), sessions.storage.now).ok
    {
      ok := true;
      if e.provided != [] {
        UpdateOnStrings(sessions.storage.entries, slots, key, Op.AddPermissions(e.provided), sessions.storage.now);
        var r := sessions.AddPermissions(key, e.provided);
        ok := r.Ok?;
      }
    }

    method GrantFlow(ghost slots: Slots, e: Endpoint, key: string) returns (ok: bool)
      requires Represents(sessions.storage.entries, slots)
      modifies sessions.storage`entries
      ensures Represents(sessions.storage.entries, Serial.RunOps(slots, key, FlowGrants(e), sessions.storage.now).store)
      ensures ok == Serial.RunOps(slots, key, FlowGrants(e), sessions.storage.now).ok
    {
      ok := true;
      if e.flowMeta.Some? && e.flowMeta.value.provided != [] {
        var m := e.flowMeta.value;
        var now := sessions.storage.now;
        UpdateOnStrings(sessions.storage.entries, slots, key, Op.AddFlowPermissions(m.flow, m.provided), now);
        var r := sessions.AddFlowPermissions(key, m.flow, m.provided);
        ok := r.Ok?;
      }
    }

    /** The two grants, one awaited after the other. */
    method Grant(ghost slots: Slots, e: Endpoint, key: string) returns (ok: bool)
      requires Represents(sessions.storage.entries, slots)
      modifies sessions.storage`entries
      ensures Represents(sessions.storage.entries, Serial.RunOps(slots, key, GrantOps(e), sessions.storage.now).store)
      ensures ok == Serial.RunOps(slots, key, GrantOps(e), sessions.storage.now).ok
    {
      Serial.RunOpsAppend(slots, key, UserGrants(e), FlowGrants(e), sessions.storage.now);
      ok := GrantUser(slots, e, key);
      if ok {
        ok := GrantFlow(Serial.RunOps(slots, key, UserGrants(e), sessions.storage.now).store, e, key);
      }
    }

    /** The part after the handler; without the code SUCCESS the store stays as the handler left it. */
    method Complete(ghost slots: Slots, e: Endpoint, key: string, ending: Ending, res: HttpResponse)
      returns (reply: Reply)
      requires Represents(sessions.storage.entries, slots)
      modifies sessions.storage`entries, res
      ensures !reply.Refused? && StatusAfter(res.statusCode, ending, old(res.statusCode))
      ensures reply.Replied? ==> Answers(reply.response, ending, old(res.statusCode), responses.showDebugError)
      ensures !AsksSuccess(ending) ==>
                && reply.Replied? && reply.response.systemCode in SYSTEM_CODES && reply.response.systemCode != SUCCESS
                && sessions.storage.entries == old(sessions.storage.entries)
      ensures AsksSuccess(ending) ==>
                var granted := Serial.RunOps(slots, key, GrantOps(e), sessions.storage.now);
                && Represents(sessions.storage.entries, granted.store)
                && (reply.Replied? <==> granted.ok)
                && (reply.Replied? ==> reply.response.systemCode == SUCCESS)
    {
      var response := responses.Intercept(ending, res);
      if response.systemCode == SUCCESS {
        var ok := Grant(slots, e, key);
        return if ok then Replied(response) else NeverReplied;
      }
      return Replied(response);
    }
  }

  /** A handler whose update fails ends with that very error, otherwise as `ending` says. */
  function ActualEnding(slots: Slots, user: string, call: Serial.Call, ending: Ending, now: int): Ending {
    if Serial.HandlerOps(call) == [] then ending
    else
      match RunOp(slots, Slot(SessionNs, user), Serial.HandlerOps(call)[0], now)
      case Ok(_) => ending
      case Err(e) => EndingOf(e)
  }

  class SignContractService {
    const sessions: AuthSessionService

    constructor (sessions: AuthSessionService)
      ensures this.sessions == sessions
    {
      this.sessions := sessions;
    }

    /** A new flow session: both ids are fresh and the permissions start empty. */
    method RequestOtp(bound: string, contractId: string, otpId: string, selfieUndefined: bool)
      returns (r: Result<SessionValue, Error>)
      modifies sessions.storage`entries
      ensures sessions.Performed(bound, AddFlow(RequestOtpPatch(contractId, otpId, selfieUndefined)), r)
    {
      r := sessions.AddFlowSession(bound, RequestOtpPatch(contractId, otpId, selfieUndefined));
    }

    method CheckSelfie(bound: string, selfieId: string) returns (r: Result<SessionValue, Error>)
      modifies sessions.storage`entries
      ensures sessions.Performed(bound, AddFlow(CheckSelfiePatch(selfieId)), r)
    {
      r := sessions.AddFlowSession(bound, CheckSelfiePatch(selfieId));
    }
  }

  class Application {
    const storage: RedisStorage
    const guard: JwtGuard
    const interceptor: PermissionInterceptor
    const signContract: SignContractService
    const auth: BaseAuthService

    constructor (storage: RedisStorage, showDebugError: bool)
      ensures Wired() && this.storage == storage
    {
      var tokens := new TokenSessionService(storage);
      var sessions := new AuthSessionService(storage);
      var responses := new ResponseInterceptor(showDebugError);
      this.storage := storage;
      guard := new JwtGuard(tokens, sessions);
      interceptor := new PermissionInterceptor(sessions, responses);
      signContract := new SignContractService(sessions);
      auth := new BaseAuthService(tokens, sessions);
    }

    /** All services share one storage. */
    predicate Wired() {
      && guard.tokens.storage == storage && guard.sessions.storage == storage
      && interceptor.sessions.storage == storage && signContract.sessions.storage == storage
      && auth.tokens.storage == storage && auth.sessions.storage == storage
    }

    /** The update of the session that the controller method asks its service for, if any. */
    method UpdateSession(ghost slots: Slots, call: Serial.Call, user: string) returns (r: Result<(), Error>)
      requires Wired() && Represents(storage.entries, slots)
      modifies storage`entries
      ensures Represents(storage.entries, Serial.RunOps(slots, user, Serial.HandlerOps(call), storage.now).store)
      ensures r.Ok? <==> Serial.RunOps(slots, user, Serial.HandlerOps(call), storage.now).ok
      ensures r.Err? ==>
                var ops := Serial.HandlerOps(call);
                ops != [] && RunOp(slots, Slot(SessionNs, user), ops[0], storage.now) == Err(r.error)
      ensures r.Ok? ==>
                var ops := Serial.HandlerOps(call);
                ops != [] ==> RunOp(slots, Slot(SessionNs, user), ops[0], storage.now).Ok?
    {
      match call {
        case RequestOtp(contractId, otpId, selfieUndefined) =>
          UpdateOnStrings(storage.entries, slots, user,
                          AddFlow(RequestOtpPatch(contractId, otpId, selfieUndefined)), storage.now);
          var added := signContract.RequestOtp(user, contractId, otpId, selfieUndefined);
          return if added.Ok? then Ok(()) else Err(added.error);
        case CheckSelfie(selfieId) =>
          UpdateOnStrings(storage.entries, slots, user, AddFlow(CheckSelfiePatch(selfieId)), storage.now);
          var added := signContract.CheckSelfie(user, selfieId);
          return if added.Ok? then Ok(()) else Err(added.error);
        case _ =>
          return Ok(());
      }
    }

    /** The controller method; an error of the services ends it, otherwise it ends as `ending` says. */
    method Handle(ghost slots: Slots, call: Serial.Call, user: string, ending: Ending) returns (actual: Ending)
      requires Wired() && Represents(storage.entries, slots)
      modifies storage`entries
      ensures Represents(storage.entries, Serial.RunOps(slots, user, Serial.HandlerOps(call), storage.now).store)
      ensures actual == ActualEnding(slots, user, call, ending, storage.now)
      ensures if Serial.RunOps(slots, user, Serial.HandlerOps(call), storage.now).ok
              then actual == ending else !AsksSuccess(actual)
    {
      var r := UpdateSession(slots, call, user);
      if r.Err? {
        ServiceErrorsFail(r.error);
        return EndingOf(r.error);
      }
      return ending;
    }

    /** Handler, response and grants of an admitted request. */
    method Proceed(ghost slots: Slots, call: Serial.Call, user: string, key: string, ending: Ending, res: HttpResponse)
      returns (reply: Reply)
      requires Wired() && Represents(storage.entries, slots)
      modifies storage`entries, res
      ensures !reply.Refused?
      ensures var actual := ActualEnding(slots, user, call, ending, storage.now);
              && StatusAfter(res.statusCode, actual, old(res.statusCode))
              && (reply.Replied? ==>
                    Answers(reply.response, actual, old(res.statusCode), interceptor.responses.showDebugError))
      ensures reply.Replied? ==> reply.response.systemCode in SYSTEM_CODES
      ensures var handled := Serial.RunOps(slots, user, Serial.HandlerOps(call), storage.now);
              var granted := Serial.RunOps(handled.store, key, GrantOps(Serial.EndpointOf(call)), storage.now);
              if !handled.ok || !AsksSuccess(ending) then
                && Represents(storage.entries, handled.store)
                && reply.Replied? && reply.response.systemCode != SUCCESS
              else
                && Represents(storage.entries, granted.store)
                && (reply.Replied? <==> granted.ok)
                && (reply.Replied? ==> reply.response.systemCode == SUCCESS)
    {
      NamedCodesKnown();
      var actual := Handle(slots, call, user, ending);
      ghost var handled := Serial.RunOps(slots, user, Serial.HandlerOps(call), storage.now);
      reply := interceptor.Complete(handled.store, Serial.EndpointOf(call), key, actual, res);
    }

    /**
     Guard, checks, handler, response, grants. The store afterwards and the reply are those of one
     request step: refused requests change nothing, a code other than SUCCESS means no grant.
     */
    method Request(ghost slots: Slots, jwt: Jwt, call: Serial.Call, ending: Ending, res: HttpResponse)
      returns (reply: Reply)
      requires Wired() && Represents(storage.entries, slots)
      modifies storage`entries, res
      ensures var served := Serial.Serve(slots, jwt, call, !AsksSuccess(ending), storage.now);
              && Represents(storage.entries, served.store)
              && Tells(reply, served.reached)
      ensures reply.Replied? ==> reply.response.systemCode in SYSTEM_CODES
      ensures reply.Refused? ==> res.statusCode == old(res.statusCode)
      ensures !reply.Refused? && Accepts(slots, storage.now, jwt) ==>
                var user := ReadToken(slots, JwtId(jwt), storage.now).value;
                var actual := ActualEnding(slots, user, call, ending, storage.now);
                && StatusAfter(res.statusCode, actual, old(res.statusCode))
                && (reply.Replied? ==>
                      Answers(reply.response, actual, old(res.statusCode), interceptor.responses.showDebugError))
    {
      var request := new HttpRequest();
      var ok := guard.CanActivate(slots, jwt, request);
      if !ok {
        return Refused;
      }
      var user, session := request.user.value, request.session.value;
      CheckIff(Serial.EndpointOf(call), session);
      ok := interceptor.Admit(Serial.EndpointOf(call), session);
      if !ok {
        return Refused;
      }
      reply := Proceed(slots, call, user, session.key, ending, res);
    }

    /** AuthService.login: a session without permissions for a new token, older tokens of the user cleared. */
    method Login(ghost slots: Slots, key: string, id: string, rest: map<string, string>, expireTime: int)
      returns (ok: bool)
      requires Wired() && Represents(storage.entries, slots)
      modifies storage`entries
      ensures var outcome :=
                TokenIssue.Authenticate(slots, key, id, NewSession(rest), false, expireTime, None, storage.now);
              Represents(storage.entries, outcome.store) && ok == outcome.ok
    {
      ok := auth.Authenticate(slots, key, id, NewSession(rest), false, expireTime, None);
    }

    /** The logout endpoint behind the guard. */
    method Logout(ghost slots: Slots, jwt: Jwt) returns (ok: bool)
      requires Wired() && Represents(storage.entries, slots)
      modifies storage`entries
      ensures ok <==> Accepts(slots, storage.now, jwt)
      ensures Represents(storage.entries,
                if ok then TokenIssue.Logout(slots, ReadToken(slots, JwtId(jwt), storage.now).value) else slots)
    {
      var request := new HttpRequest();
      ok := guard.CanActivate(slots, jwt, request);
      if ok {
        auth.Logout(slots, request.user.value);
      }
    }
  }
}
