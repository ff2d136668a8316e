# Sessions, permissions and AMQP delivery: a verified model

This project models two stateful protocols of the NestJS service and proves what they promise.
`dafny verify dfyconfig.toml` checks all of it.

**Sessions and permissions.** Tokens and sessions are JSON records in Redis, under composed string
keys and with an expiry. Requests pass a guard that takes a snapshot of the session, an interceptor
that checks required permissions against that snapshot, a handler that may update a flow of the
session, the response interceptor, and then the grants, which read the session afresh. Two machines
describe this:

- `SessionMachine` interleaves requests at every storage read and write, with logins, deletions and
  clock ticks in between. Provenance of permissions, lifetime, key consistency and duplicate-freedom
  are proved over all its runs.
- `SerialRuns` performs whole requests as single steps. The order of the sign-contract flow, the
  single live token per user and the permission ladder are proved over its runs.
  `SerialRefinement` shows that serial runs are interleaved runs without delays;
  `ChainUnderInterleaving`, `LadderUnderInterleaving` and `LoginRaces` give the exact conditions
  under which these three survive interleaving, and runs in which they do not.

`SessionServices` and `HttpPipeline` are the services, the guard and the interceptors as code:
classes over one string-keyed storage, each method proved against the functions the machines use,
up to `Application.Request`, which performs exactly one request step. `ApplicationHistory` shows that
every history of calls is a run of `SerialRuns`, so that its theorems hold of the code's storage, and
says of each call what it does to the Redis keys and what its client hears. `ServedRequests` and
`TokenWindow` have the exact conditions for being let in, served and accepted.

**AMQP delivery.** `AmqpReceiver` is the receiver as a state machine: link credit added by hand
(OASIS AMQP 1.0, section 2.6.7), settlement (section 3.4), the one-at-a-time pipeline with its
redelivery counter and `first_acquirer` (section 3.2.1), listeners with early or late acceptance,
release timers, and replacement of a closed receiver. `AmqpConsumer` is the same as code, and
`AmqpEventLoop` shows that every history of its calls is a run of the machine.
`AmqpBody`, `AmqpOrder`, `AmqpCredit`, `AmqpDelivery`, `AmqpEager` and `AmqpRedelivery` prove the theorems
over all runs.

## Where the code differs from what one might expect

- `createReceiver` grants the concurrency limit and `start()` grants it again: the first receiver
  has 2L credits, later ones L.
- A reply that fails after `addCredit` makes `release` add a second credit for the same delivery;
  the credit theorems count these as R (`AmqpCredit.FailedReplyOverpays` is such a run).
- `rejectDLQ` credits the receiver the delivery came on, the other paths credit the current one.
- With eager acceptance a message can still be handled twice: exactly if a delivery is handed over
  after its receiver was replaced, and another one later (`AmqpEager.HandledTwiceIff`).
- The interceptor checks permissions on the snapshot and grants on a fresh read without checking
  again. With interleaved requests this breaks the order of the sign-contract flow exactly when a
  grant's read would fail the check (`ChainUnderInterleaving.ChainKeptIff`), and likewise the
  FORGOT_PASSWORD ladder (`LadderUnderInterleaving.LadderKeptIff`).
- Logins of one user that overlap can leave several live tokens (`LoginRaces.SingleTokenIff`).
- The clear in `createToken` is not awaited. That is invisible exactly if the new id is fresh
  (`TokenIssue.ClearIsInvisibleIff`); a renewal under the old id can lose the new token.
- Replacing the id in `key:id` replaces its first occurrence, which may lie in the key
  (`SessionKeys.LookupExactIff` has the exact condition).
- A grant that fails leaves the response promise unresolved: the client gets no answer. With whole
  requests that happens exactly to requests without handler updates that are let in when the session
  has no whole second left (`UnansweredRequests.GrantFailsIff`, `UnansweredRequests.NeverAnswered`).
- The guard's exp test lets a token pass at the very millisecond of its exp, but by then the TOKEN
  entry of a login on a full second is gone (`TokenWindow.WindowByClock`, `TokenWindow.RefusedAtItsExp`).
- A failing `getSessionValue` inside a handler carries a message that is not in the code table, so
  it goes out as PLEASE_THROW_SYSTEM_CODE (`Responses.FailedReadIsUnknown`).

## Model

| member | source | states |
|---|---|---|
| `AmqpOrder.OrderedInRun` | src/core/amqp/amqp.service.ts:365-445 | in every reachable state the pipeline's buffer is sorted and complete, and the onMessage calls so far are in arrival order and older than everything buffered |
| `AmqpOrder.HandedInArrivalOrder` | src/core/amqp/amqp.service.ts:365-445 | onMessage sees a subsequence of arrival order, each arrival at most once; an arrival is missing exactly if it was refused, had no message, is still in the pipeline or came before the subscription |
| `AmqpCredit.ConservedInRun` | src/core/amqp/amqp.service.ts:328-440 | over all receivers of a run, credit held plus deliveries that have not given theirs back equals the credit granted plus the replies that failed after their credit was returned |
| `AmqpCredit.ExactCredit` | src/core/amqp/amqp.service.ts:328-364 | first receiver after start(): credit + unreplenished deliveries = 2L + R, with R counting the overpayments |
| `AmqpCredit.CreditBound` | src/core/amqp/amqp.service.ts:328-349 | after k replacements the current receiver's credit and all unreplenished deliveries stay within (2 + k)L + R |
| `AmqpCredit.ExactWithoutReplies` | src/module/rabbitmq-test/rabbitmq.service.ts:32-63 | a consumer whose handler always resolves to null conserves credit exactly, through every reconnect |
| `AmqpCredit.CreditFloor` | src/core/amqp/amqp.service.ts:328-364 | in every run, through every reconnect, the current receiver's credit plus what its own deliveries still owe is never below L: only deliveries nobody was subscribed for or without a message can starve it |
| `AmqpCredit.FailedReplyOverpays` | src/core/amqp/amqp.service.ts:418-431 | a concrete run with one failed reply that ends with one credit more than was granted |
| `AmqpDelivery.KeptInRun` | src/core/amqp/amqp.service.ts:404-440 | queued, unsettled, accepted and dead-lettered messages partition all messages, and a message is out on its latest delivery only |
| `AmqpDelivery.MessageConservation` | src/core/amqp/amqp.service.ts:404-440 | every message is in exactly one of the four places, and out on at most one delivery |
| `AmqpDelivery.LateModeAtLeastOnce` | src/core/amqp/example.ts:120-126 | with late acceptance an accepted message has had an onMessage call that resolved |
| `AmqpDelivery.CompletedIff` | src/core/amqp/example.ts:120-126 | where completed is exactly that a step of the run was the resolving of an onMessage call for the message |
| `AmqpDelivery.FateInRun` | src/core/amqp/amqp.service.ts:276-440 | in every step of every run, a message that is out is accepted, dead-lettered or queued again if and only if its one cause occurs: acceptance in its mode, refusal by the pipeline's body, release timer or reconnect |
| `AmqpDelivery.NeverAgainOnceSettled` | src/core/amqp/amqp.service.ts:404-440 | an accepted or dead-lettered message stays so and never reaches onMessage again, whatever reconnects happen |
| `AmqpDelivery.HandsStep` | src/core/amqp/amqp.service.ts:380-435 | a step raises the number of onMessage calls of a message by one exactly if it is the pipeline's body handing over a delivery of it, else not at all |
| `AmqpEager.CurrentInRun` | src/core/amqp/amqp.service.ts:328-343 | in every run a delivery in the pipeline is unsettled exactly if it came on the current receiver |
| `AmqpEager.EagerHands` | src/core/amqp/example.ts:117-120 | in every eager run, through any reconnects, the onMessage calls of a message are its stale hand-overs, of deliveries whose receiver was replaced, plus one if it is accepted |
| `AmqpEager.RepeatIff` | src/core/amqp/example.ts:117-120 | an eager hand-over repeats an earlier one of its message if and only if an earlier one was stale |
| `AmqpEager.HandledTwiceIff` | src/core/amqp/example.ts:117-120 | exactly when at-most-once fails: a message reaches onMessage more than once if and only if a delivery of it is handed over after its receiver was replaced, and another one later |
| `AmqpEager.EagerModeAtMostOnce` | src/core/amqp/example.ts:117-120 | so with eager acceptance and no reconnect no message reaches onMessage twice |
| `AmqpEager.ReconnectHandsTwice` | src/core/amqp/amqp.service.ts:337-340 | a concrete run with one reconnect in which an eager consumer handles one message twice |
| `AmqpRedelivery.CountedInRun` | src/core/amqp/amqp.service.ts:380-396 | the shared counter of a message always covers its onMessage calls, which never exceed maxRedeliverCount + 2 |
| `AmqpRedelivery.BoundedRedelivery` | src/core/amqp/amqp.service.ts:380-396 | no message is handed over more than maxRedeliverCount + 2 times, however counters are shared |
| `AmqpRedelivery.HandedUsableInRun` | src/core/amqp/amqp.service.ts:369-372 | only messages whose body parses ever reach onMessage |
| `AmqpRedelivery.PoisonIsDeadLettered` | src/core/amqp/amqp.service.ts:387-394 | a message handed over that often is refused on its next delivery, and dead-lettered if that delivery is still unsettled |
| `AmqpRedelivery.HandOverIff` | src/core/amqp/amqp.service.ts:380-396 | for a message with its own counter the body's verdict is to hand over if and only if it was handed over at most maxRedeliverCount + 1 times |
| `AmqpRedelivery.HandedIffBelowLimit` | src/core/amqp/amqp.service.ts:380-396 | the same for every body step of every run: the limit is reached exactly |
| `AmqpRedelivery.RedeliveryTerminates` | src/core/amqp/amqp.service.ts:380-396 | the remaining onMessage calls are a natural number that no step raises and every call lowers |
| `AmqpBody.BodyLaw` | src/core/amqp/amqp.service.ts:367-443 | the body's whole behaviour in terms of the message's body, first_acquirer, the failing read and the count: drop, dead-letter and credit, or hand over, with every other field unchanged |
| `AmqpBody.MalformedIsRefused` | src/core/amqp/amqp.service.ts:372-440 | in every run a body that does not parse is refused: dead-lettered where unsettled, one credit to the current receiver and none to another, not handed over |
| `AmqpBody.UnreadCountIsRefused` | src/core/amqp/amqp.service.ts:380-440 | in every run a failing read of the count refuses a redelivery in the same way, whatever the count is |
| `AmqpBody.OverLimitIsRefused` | src/core/amqp/amqp.service.ts:276-394 | in every run a redelivery over the limit is dead-lettered where unsettled, and the credit goes to the receiver it came on, current or closed |
| `AmqpBody.CreditInRun` | src/core/amqp/amqp.service.ts:276-440 | what every step of every run adds to the credit of every receiver: a closed one gains only by the refusal of its own delivery over the limit |
| `AmqpBody.PhaseFitsInRun` | src/core/amqp/amqp.service.ts:367-443 | in every state a delivery past the body is dropped if and only if its message has no body, refused if the body does not parse, and refused otherwise only as a redelivery |
| `AmqpBody.DroppedIff` | src/core/amqp/amqp.service.ts:368-369 | so past the body dropped means exactly that there was no message |
| `AmqpBody.FirstIsHanded` | src/core/amqp/amqp.service.ts:380-435 | past the body a first delivery with a usable body is with the listener, and its onMessage call is on record |
| `AmqpBody.SettledFitInRun` | src/core/amqp/amqp.service.ts:367-440 | in every state only messages whose body parses are accepted, and no message without a body is dead-lettered |
| `AmqpBody.ArrivalInRun` | src/core/amqp/amqp.service.ts:365-366 | an arrival takes one credit of the current receiver and one message from the queue, and is buffered if and only if someone has subscribed before |
| `AmqpConsumer.DeliveryCounts.IncreaseDeliveryCount` | src/core/amqp/amqp-cache.service.ts:12-16 | the stored count goes up by one from its value or zero |
| `AmqpConsumer.DeliveryCounts.IsValidDeliveryCount` | src/core/amqp/amqp-cache.service.ts:18-21 | valid exactly if there is no count or it is at most max + 1 |
| `AmqpConsumer.Consumer.constructor` | src/core/amqp/amqp.service.ts:328-345 | the first receiver has one grant of L credits |
| `AmqpConsumer.Consumer.Start` | src/core/amqp/amqp.service.ts:362-364 | start() is the machine's Start transition: a second grant of L |
| `AmqpConsumer.Consumer.Subscribe` | src/core/amqp/example.ts:108-109 | the one subscription to the source |
| `AmqpConsumer.Consumer.Replace` | src/core/amqp/amqp.service.ts:337-340 | a closed receiver is replaced by one with L credits and the broker takes back what was out |
| `AmqpConsumer.Consumer.OnMessageEvent` | src/core/amqp/amqp.service.ts:365-366 | a delivery uses one credit and is buffered if someone is subscribed |
| `AmqpConsumer.Consumer.TakeNext` | src/core/amqp/amqp.service.ts:367-369 | concatMap starts on the oldest buffered event only when its body is idle |
| `AmqpConsumer.Consumer.Process` | src/core/amqp/amqp.service.ts:367-443 | the body performs the machine's Resolve transition, and its outcome is said of the message itself: no message is dropped; a body that does not parse and a redelivery whose count cannot be read are rejected with a credit to the current receiver; one over the limit is rejected with a credit to its own receiver; anything else is handed over without credit |
| `AmqpConsumer.Consumer.RejectDlq` | src/core/amqp/amqp.service.ts:276-279 | reject, and the credit goes to the receiver the delivery came on, even if that was replaced |
| `AmqpConsumer.Consumer.RejectBroken` | src/core/amqp/amqp.service.ts:437-440 | reject, and the credit goes to the current receiver |
| `AmqpConsumer.Consumer.HandOver` | src/core/amqp/amqp.service.ts:396-435 | the delivery is counted, handed over and, in eager mode, accepted |
| `AmqpConsumer.Consumer.AddCredit` | src/core/amqp/amqp.service.ts:408-417 | at most one credit per event, however often it is called |
| `AmqpConsumer.Consumer.HandlerResolved` | src/core/amqp/example.ts:120-129 | accept (in late mode) and give back one credit: the machine's HandlerOk transition |
| `AmqpConsumer.Consumer.ReplySent` | src/core/amqp/example.ts:127-129 | a reply that was sent ends the work on its message |
| `AmqpConsumer.Consumer.ListenerThrew` | src/core/amqp/example.ts:130-139 | a failing handler or reply starts the release timer |
| `AmqpConsumer.Consumer.ReleaseTimer` | src/core/amqp/amqp.service.ts:418-431 | the timer releases the delivery and adds a credit whether or not one was already given back |
| `AmqpEventLoop.EventLoop.Happens` | src/core/amqp/amqp.service.ts:325-445 | serving any event by its callback extends the history of the code's states by one transition, so every history is a run of the machine |
| `AmqpEventLoop.EventLoop.Laws` | src/core/amqp/amqp.service.ts:325-445 | credit bound, message conservation, at-least-once, order and redelivery bound of the code's own fields after any history of events |
| `SessionKeys.RenderInjective` | src/core/session/session.service.ts:74-76 | different entries have different Redis keys, across the TOKEN and SESSION namespaces |
| `SessionKeys.StripInvertsRender` | src/core/redis/base-redis.service.ts:91-101 | stripping the two prefixes gives back the id of a TOKEN key |
| `SessionKeys.PatternExact` | src/core/auth/base-auth.service.ts:78-81 | replacing the id by a star gives `key:*` if and only if the id does not occur earlier in `key:id` |
| `SessionKeys.LookupMisses` | src/core/auth/base-auth.service.ts:78-81 | an id that occurs earlier makes the lookup miss a live token of the user, constructed for every such key and id |
| `SessionKeys.EarlyIdFindsOther` | src/core/auth/base-auth.service.ts:78-81 | such an id can also find a live token of another user: a concrete case |
| `SessionKeys.LookupExactIff` | src/core/auth/base-auth.service.ts:78-81 | the lookup is exact on every store if and only if the id does not occur earlier in `key:id` |
| `SessionKeys.MatchesExactly` | src/core/redis/base-redis.service.ts:91-101 | the pattern matches exactly the TOKEN keys that start with `key:` |
| `SessionKeys.LookupExact` | src/core/session/session.service.ts:64-66 | getKeys returns precisely the ids of the user's live TOKEN entries |
| `SessionKeys.BoundToUser` | src/shared/business/auth/auth.payload.ts:52-54 | a bound id starts with `key:` exactly for its own user, for keys without a colon |
| `SessionKeys.IdNotInKey` | src/core/auth/base-auth.service.ts:78-81 | an id that is no part of the key is found right after the colon |
| `SessionRecord.PushMissingExact` | src/core/auth-gateway/auth-session.service.ts:37-41 | a grant keeps the list as a prefix and appends exactly the missing permissions, each once |
| `SessionRecord.GrantKeepsUnique` | src/core/auth-gateway/auth-session.service.ts:122-126 | a grant keeps a list free of duplicates even when the granted list repeats itself |
| `SessionRecord.GrantIsUnion` | src/core/auth-gateway/auth-session.service.ts:37-41 | as a set, a grant is union |
| `SessionRecord.SpreadIsMerge` | src/core/auth-gateway/auth-session.service.ts:60-66 | object spread is the per-field merge in which the last writer wins |
| `SessionRecord.JsonKeepsSimple` | src/core/session/session.service.ts:24-28 | the JSON round trip drops only what is undefined |
| `SessionRecord.JsonIdempotent` | src/core/session/session.service.ts:24-28 | a second JSON round trip changes nothing |
| `SessionRecord.UpdateRefines` | src/core/auth-gateway/auth-session.service.ts:25-136 | what is stored by each update is union, merge or removal on the simple session; exp, iat, key and the other fields stay |
| `SessionRecord.UpdateFails` | src/core/auth-gateway/auth-session.service.ts:45-136 | an update of a record fails exactly without a flow type, without the flow, or on a flow that lost its list |
| `SessionRecord.UpdateKeepsUnique` | src/core/auth-gateway/auth-session.service.ts:25-136 | no update creates a duplicate in any list |
| `SessionRecord.UpdateAddsOnly` | src/core/auth-gateway/auth-session.service.ts:25-136 | an update adds only the permissions it puts, and all of them |
| `SessionStore.RunOpRefines` | src/core/auth-gateway/auth-session.service.ts:25-136 | an update on the expiring store is the simple update of one session; its deadline lies within a second after exp and every other entry is untouched |
| `SessionStore.RunOpFails` | src/core/auth-gateway/auth-session.service.ts:25-136 | an update fails exactly if it is refused, finds no live session, cannot be applied, or the session has no time left |
| `SessionStore.RunOpErrors` | src/core/auth-gateway/auth-session.service.ts:45-136 | which error a failing update ends with, in terms of the update, the entry and the clock |
| `SessionStore.ClearedFlowIsGone` | src/core/auth-gateway/auth-session.service.ts:90-106 | after clearFlowSession that flow is gone, whether there was one or not, and the rest of the session is unchanged |
| `SessionStore.RepresentsUpdate` | src/core/redis/base-redis.service.ts:74-78 | writing through a Redis key is writing one entry |
| `SessionStore.RepresentsDelete` | src/core/redis/base-redis.service.ts:60-62 | deleting through a Redis key is deleting one entry |
| `SessionStore.RunOpOnStrings` | src/core/session/session.service.ts:20-50 | an update on the string-keyed store is the update of its slot, with the same outcome and error |
| `SessionServices.RedisStorage.SetEX` | src/core/redis/base-redis.service.ts:74-78 | succeeds exactly for a positive number of seconds, otherwise changes nothing |
| `SessionServices.RedisStorage.Get` | src/core/redis/base-redis.service.ts:86-88 | gives the record exactly while the entry is live |
| `SessionServices.RedisStorage.GetKeys` | src/core/redis/base-redis.service.ts:91-101 | exactly the live matching keys, without the storage prefix |
| `SessionServices.RedisStorage.Del` | src/core/redis/base-redis.service.ts:60-62 | removes one entry |
| `SessionServices.TokenSessionService.AddSession` | src/core/session/session.service.ts:20-38 | writes the token content under its bound id, or fails and changes nothing |
| `SessionServices.TokenSessionService.GetSessionValue` | src/core/session/session.service.ts:40-50 | the bound id inside the live token content, or nothing |
| `SessionServices.TokenSessionService.GetKeys` | src/core/session/session.service.ts:64-66 | the ids that the lookup specification of `SessionKeys` gives for the live keys |
| `SessionServices.TokenSessionService.ClearSession` | src/core/session/session.service.ts:68-72 | removes one TOKEN entry |
| `SessionServices.AuthSessionService.AddSession` | src/core/session/session.service.ts:20-38 | writes the stamped JSON of the value, whose own exp and iat win over the computed ones |
| `SessionServices.AuthSessionService.GetSessionValue` | src/core/session/session.service.ts:40-50 | the live session, or the unauthorized error |
| `SessionServices.AuthSessionService.AddPermissions` | src/core/auth-gateway/auth-session.service.ts:25-43 | performs the AddPermissions update: whole store, result and error |
| `SessionServices.AuthSessionService.AddFlowSession` | src/core/auth-gateway/auth-session.service.ts:45-76 | performs the AddFlow update, refusing a missing type before reading |
| `SessionServices.AuthSessionService.GetFlowSession` | src/core/auth-gateway/auth-session.service.ts:78-88 | gives the flow exactly if the session is live and has it |
| `SessionServices.AuthSessionService.ClearFlowSession` | src/core/auth-gateway/auth-session.service.ts:90-106 | performs the ClearFlow update |
| `SessionServices.AuthSessionService.AddFlowPermissions` | src/core/auth-gateway/auth-session.service.ts:108-136 | performs the AddFlowPermissions update, with its three errors |
| `SessionServices.AuthSessionService.ClearSession` | src/core/session/session.service.ts:68-72 | removes one SESSION entry |
| `SessionServices.BaseAuthService.ClearSession` | src/core/auth/base-auth.service.ts:57-65 | removes exactly the TOKEN and SESSION entries of the given ids |
| `SessionServices.BaseAuthService.CreateToken` | src/core/auth/base-auth.service.ts:67-90 | on the strings what `TokenIssue.CreateToken` is on entries: older tokens of the user cleared, the new one written |
| `SessionServices.BaseAuthService.Authenticate` | src/core/auth/base-auth.service.ts:117-141 | the same for token and session, with the session lifetime falling back to the token's |
| `SessionServices.BaseAuthService.Logout` | src/core/auth/base-auth.service.ts:172-174 | removes the two entries of one bound id |
| `TokenIssue.DeletesCommute` | src/core/auth/base-auth.service.ts:57-65 | in any interleaving, deletions that touch no written entry might as well have run first |
| `TokenIssue.ClearCommutes` | src/core/auth/base-auth.service.ts:78-88 | every interleaving of the un-awaited clear with any writes to a fresh id ends where clearing first ends |
| `TokenIssue.AuthenticateUnawaited` | src/core/auth/base-auth.service.ts:117-141 | authenticate, with its clear not awaited, always reaches the store of its sequential reading for a fresh id |
| `TokenIssue.StaleIdIsLost` | src/core/auth/base-auth.service.ts:82-88 | when the id is one of those being cleared, some interleaving loses whatever was written for it |
| `TokenIssue.RenewalCanLoseToken` | src/core/auth/base-auth.service.ts:143-170 | a renewal finds its own live token among those to clear, and some interleaving with its one token write loses the renewed token |
| `TokenIssue.ClearIsInvisibleIff` | src/core/auth/base-auth.service.ts:78-88 | not awaiting the clear is harmless, for any writes to one id, if and only if that id is fresh |
| `TokenIssue.AuthenticateLeaves` | src/core/auth/base-auth.service.ts:117-141 | authenticate leaves the token and the session of the new id with their own lifetimes, exp and iat in whole seconds and the session's other fields, and every other entry unless older tokens are cleared |
| `PermissionGate.CheckIff` | src/core/permission/permission.interceptor.ts:59-85 | the check passes if and only if the snapshot holds every required permission |
| `PermissionGate.GrantsProvided` | src/core/permission/permission.interceptor.ts:86-117 | the grants put exactly what the endpoint provides |
| `PermissionGate.CheckUserPermissions` | src/core/permission/permission.interceptor.ts:59-69 | the first loop decides the session-level check |
| `PermissionGate.CheckFlowPermissions` | src/core/permission/permission.interceptor.ts:70-85 | the second loop decides the flow-level check |
| `Responses.ResponseInterceptor.TranslateResponse` | src/core/interceptor/response.interceptor.ts:89-129 | every code that goes out is in the table; a known code goes out unchanged, an unknown one as PLEASE_THROW_SYSTEM_CODE |
| `Responses.ResponseInterceptor.Intercept` | src/core/interceptor/response.interceptor.ts:36-87 | SUCCESS exactly if the handler returned or threw an exception asking for it; code, data, status and debug flag for every ending; a plain error at a status below 300 goes out as 500 |
| `Responses.ServiceErrorsFail` | src/core/interceptor/response.interceptor.ts:61-84 | no error of the session services becomes SUCCESS |
| `Responses.FailedReadIsUnknown` | src/core/session/session.service.ts:46-49 | of the session services' errors exactly the failing read carries a code that is not in the table |
| `Responses.AnswerFailedRead` | src/core/interceptor/response.interceptor.ts:102-106 | so it is answered with PLEASE_THROW_SYSTEM_CODE and status 401 |
| `HttpPipeline.JwtGuard.CanActivate` | src/core/auth-gateway/auth.guard.ts:46-106 | lets a token in if and only if it is acceptable, the clock has not passed its exp, and its TOKEN and SESSION keys in Redis are live; puts the stored id and the session snapshot on the request |
| `HttpPipeline.PermissionInterceptor.Admit` | src/core/permission/permission.interceptor.ts:59-85 | admits exactly if the snapshot holds every required permission |
| `HttpPipeline.PermissionInterceptor.Grant` | src/core/permission/permission.interceptor.ts:91-111 | performs the session grant and then the flow grant, stopping at a failure |
| `HttpPipeline.PermissionInterceptor.Complete` | src/core/permission/permission.interceptor.ts:86-117 | the response, data included, is the one the ending asks for, whether or not grants run; without the code SUCCESS the store is untouched; with it the grants run, and the client hears nothing if one fails |
| `HttpPipeline.Application.Handle` | src/module/sign-contract/sign-contract.controller.ts:26-83 | the handler ends with the very error its update failed with, otherwise as it says |
| `HttpPipeline.Application.Proceed` | src/core/permission/permission.interceptor.ts:86-117 | code, data and status of the answer are those of how the handler really ended |
| `HttpPipeline.SignContractService.RequestOtp` | src/module/sign-contract/sign-contract.service.ts:16-32 | writes a fresh flow session with an empty permission list |
| `HttpPipeline.SignContractService.CheckSelfie` | src/module/sign-contract/sign-contract.service.ts:40-52 | merges the selfie id into the flow |
| `HttpPipeline.Application.Request` | src/core/permission/permission.interceptor.ts:48-118 | guard, check, handler, response and grants together perform one request step of the serial machine; the reply tells how far it got and carries the code, data and status of how the handler really ended |
| `HttpPipeline.Application.Login` | src/module/auth/auth.service.ts:23-42 | performs the login step: older tokens cleared, a session without permissions |
| `HttpPipeline.Application.Logout` | src/module/auth/auth.controller.ts:28-41 | performs the logout step exactly for an accepted token |
| `ApplicationHistory.Deployment.Login` | src/module/auth/auth.service.ts:23-42 | any login extends the history of the storage by one step of a serial run, puts token and session with their lifetimes, iat and other fields under their two Redis keys, and removes exactly the entries of the user's live tokens |
| `ApplicationHistory.Deployment.Logout` | src/module/auth/auth.controller.ts:28-41 | so does any logout attempt; an accepted one takes exactly the two Redis keys of its token out, a refused one changes nothing |
| `ApplicationHistory.Deployment.Request` | src/core/permission/permission.interceptor.ts:48-118 | so does any request: it is refused exactly if the token is not good or the session lacks a requirement, unanswered exactly if unanswerable, and answered SUCCESS exactly if let in, returned and in time, and then the session holds exactly the handler's and the endpoint's changes; otherwise the answer and the status are those of the handler's ending |
| `ApplicationLaws.OutcomeLaw` | src/core/permission/permission.interceptor.ts:48-118 | that law of a request on the entries before and after |
| `ApplicationLaws.AnswerIs` | src/core/interceptor/response.interceptor.ts:36-87 | the answer to an admitted request is that of its ending, or SORRY_SOMETHING_WENT_WRONG with status 500 if the handler's write found no time left |
| `ApplicationLaws.LoginLaw` | src/core/auth/base-auth.service.ts:117-141 | after a login the two new Redis keys are there, and all other entries but those of the user's live tokens as before |
| `ApplicationLaws.LogoutLaw` | src/core/auth/base-auth.service.ts:57-65 | after an accepted logout the Redis strings are the ones before without the two keys of its token |
| `ApplicationHistory.Deployment.SessionLaws` | src/module/sign-contract/sign-contract.controller.ts:26-83 | after any history of calls every session in the Redis storage keeps the sign-contract order, the permission ladder and its key |
| `ApplicationHistory.Deployment.SelfieLaw` | src/module/sign-contract/sign-contract.service.ts:16-52 | after any history a stored verified selfie has its requests behind it |
| `ApplicationHistory.Deployment.SelfieCalls` | src/module/sign-contract/sign-contract.service.ts:16-52 | those requests as calls of the history, for the contract stored in Redis |
| `ApplicationHistory.Deployment.TokenLaws` | src/core/auth-gateway/auth.guard.ts:63-100 | after any history the guard admits at most one token of a user and no revoked one |
| `SessionMachine.GetThenSet` | src/core/auth-gateway/auth-session.service.ts:31-42 | a get whose write is computed at once and set right after it is one uninterrupted update |
| `SessionMachine.StoredAfter` | src/core/session/session.service.ts:20-38 | one step of any interleaving leaves a stored session as it was or puts exactly the pending write |
| `SessionMachine.KeyedInRun` | src/core/auth/base-auth.service.ts:130-139 | guard, handler and grants of every request of every interleaving work on one id |
| `SessionMachine.KeyConsistency` | src/core/permission/permission.interceptor.ts:96-110 | a session stored under an id has that id as its key, so grants update the record the guard read |
| `SessionMachine.NoDuplicates` | src/core/auth-gateway/auth-session.service.ts:37-41 | no permission list stored in any interleaved run repeats a permission |
| `SessionLifetime.InTimeInRun` | src/core/auth-gateway/auth-session.service.ts:42 | every stored session and every pending write carries the exp of its creation, and its deadline fits it |
| `SessionLifetime.BornIsFixed` | src/core/session/session.service.ts:24-28 | the exp given at creation never changes afterwards |
| `SessionLifetime.NoLifetimeDrift` | src/core/auth-gateway/auth-session.service.ts:42 | after any interleaved updates 0 <= deadline - 1000 exp < 1000 + D, so no run makes a session readable past that bound |
| `SessionLifetime.DriftIsReached` | src/core/session/session.service.ts:20-28 | that bound is the best possible: for every delay D a run ends with a deadline 999 + D milliseconds after exp |
| `Provenance.ExplainedInRun` | src/core/permission/permission.interceptor.ts:59-116 | every permission in the store has a granting write of the run behind it, and every pending write grants what is new in it |
| `Provenance.GrantedByEndpoint` | src/core/permission/permission.interceptor.ts:59-116 | a held permission was stored by a granting write of a request on that session, whose endpoint provides it and whose own check found everything it requires held together in an earlier state |
| `Provenance.HeldIsDerived` | src/core/permission/permission.interceptor.ts:59-116 | hence it has a finite derivation from the empty session, made of grants of the run itself |
| `Provenance.SelfieNeedsOtp` | src/module/sign-contract/sign-contract.controller.ts:72-76 | SELFIE_VERIFIED was granted by a checkSelfie request, after a state holding OTP_REQUESTED and OTP_VERIFIED together |
| `Provenance.ForgotPasswordNeedsOtp` | src/module/auth/auth.controller.ts:65-68 | FORGOT_PASSWORD was granted by its endpoint, after a state holding OTP_VERIFIED |
| `Provenance.NobodyUploads` | src/module/auth/auth.controller.ts:43-74 | UPLOAD_IMAGE_PRIVATE, which no endpoint provides, is never held |
| `RequestPassage.PlacedInRun` | src/core/permission/permission.interceptor.ts:48-118 | in every interleaved run each phase of a request has the earlier ones behind it, in order |
| `RequestPassage.GrantedByWholeRequest` | src/core/permission/permission.interceptor.ts:48-118 | a held permission was stored by the grant of a request whose acceptable token had a live entry, whose live session then held everything the endpoint requires, and whose handler then ended with SUCCESS, in this order |
| `SerialRuns.RunOpsFrame` | src/core/auth-gateway/auth-session.service.ts:25-136 | updates of one session leave every other entry alone and keep the keys consistent |
| `SerialRuns.ServeFrame` | src/core/permission/permission.interceptor.ts:96-110 | a whole request touches only the session of its own token |
| `SerialRuns.KnownInRun` | src/core/auth/base-auth.service.ts:117-141 | in every serial run entries belong to issued tokens and carry their own key |
| `RequestEffects.GainedOnlyByGrant` | src/core/permission/permission.interceptor.ts:90-112 | a permission appears only in the request's own session, only through a granting request, only if provided and with all requirements held; a failed request grants nothing |
| `RequestEffects.GrantedHolds` | src/core/permission/permission.interceptor.ts:90-112 | after a successful request the session holds everything the endpoint provides |
| `RequestEffects.GrantsInOrder` | src/core/permission/permission.interceptor.ts:89-113 | the grants of any endpoint on a live session with time left fail exactly if the flow grant has no flow or list to work on, and the session-level permissions have then been granted all the same |
| `UnansweredRequests.GrantFailsIff` | src/core/permission/permission.interceptor.ts:89-113 | a request's grant fails, which leaves it unanswered, if and only if it is let in without handler updates and without an error on a session with no whole second left |
| `UnansweredRequests.OnlyInLastSecond` | src/core/auth-gateway/auth-session.service.ts:42 | in serial runs that is only in the second after the session's exp |
| `UnansweredRequests.NeverAnswered` | src/core/permission/permission.interceptor.ts:89-113 | a concrete run: a login for ten seconds at clock 999, and its own token at clock 10000 is let in and never answered |
| `ServedRequests.EntitledIff` | src/module/sign-contract/sign-contract.controller.ts:33-76 | what each endpoint asks of the session, by name, is exactly what the check asks |
| `ServedRequests.RejectedIff` | src/core/permission/permission.interceptor.ts:59-85 | a request is turned away if and only if the guard refuses its token or the session lacks a required permission, and then nothing changes |
| `ServedRequests.GrantedIff` | src/core/permission/permission.interceptor.ts:86-117 | a request is served in full if and only if it is admitted, nothing is thrown and the session has a whole second left |
| `ServedRequests.HandlerFailedIff` | src/core/permission/permission.interceptor.ts:86-90 | the handler of an admitted request fails if and only if it throws, or writes without time left |
| `ServedRequests.Leaves` | src/module/sign-contract/sign-contract.service.ts:16-52 | the session after a request, endpoint by endpoint and for each way it can go: the flow started anew, the selfie id merged, the permission added; no other entry changes |
| `SignContractRun.WholeFlow` | src/module/sign-contract/sign-contract.controller.ts:26-83 | a run with a login, requestOtp, checkOtp and checkSelfie, each granted, that ends with exactly the chain of three permissions, the contract and the selfie stored |
| `SignContractChain.ChainInRun` | src/module/sign-contract/sign-contract.controller.ts:26-83 | in every serial run each flow is exactly where its history of requests puts it |
| `SignContractChain.HistoryOf` | src/module/sign-contract/sign-contract.service.ts:16-52 | every stage of a flow is explained by the requests behind it, in order, with no requestOtp since |
| `SignContractChain.AlwaysPrefix` | src/module/sign-contract/sign-contract.controller.ts:33-76 | the flow's permission list is a prefix of OTP_REQUESTED, OTP_VERIFIED, SELFIE_VERIFIED |
| `SignContractChain.SelfieExplained` | src/module/sign-contract/sign-contract.service.ts:16-52 | SELFIE_VERIFIED under contract c: requestOtp issued c, then checkOtp, then checkSelfie succeeded, no requestOtp since, and a selfie id is stored |
| `SelfieRequests.SelfieTrail` | src/module/sign-contract/sign-contract.service.ts:16-52 | in every run a session with SELFIE_VERIFIED has behind it, as steps of the run and in this order, a requestOtp for the stored contract, a checkOtp and a checkSelfie, each let in on that session, not thrown and in time, and no effective requestOtp since |
| `ChainUnderInterleaving.GrantKeepsChainIff` | src/core/permission/permission.interceptor.ts:90-111 | a flow grant keeps the list a prefix of the chain if and only if the session it reads afresh passes the endpoint's check, which the interceptor does not repeat |
| `ChainUnderInterleaving.StepKeepsChainIff` | src/core/permission/permission.interceptor.ts:86-111 | one step of any interleaving keeps all stored and pending lists prefixes if and only if it is not a grant's read that would fail the check |
| `ChainUnderInterleaving.ChainKeptIff` | src/core/permission/permission.interceptor.ts:59-111 | in every interleaved run all stored and pending lists stay prefixes of the chain if and only if every read for a flow grant finds its endpoint's requirements |
| `ChainUnderInterleaving.ChainBreaks` | src/core/permission/permission.interceptor.ts:86-111 | a concrete interleaved run that ends with OTP_VERIFIED alone |
| `LadderUnderInterleaving.GrantKeepsLadderIff` | src/core/permission/permission.interceptor.ts:90-100 | a session-level grant keeps FORGOT_PASSWORD behind OTP_VERIFIED if and only if the session it reads afresh passes the endpoint's check |
| `LadderUnderInterleaving.LadderKeptIff` | src/core/permission/permission.interceptor.ts:59-100 | in every interleaved run all stored and pending lists keep the ladder if and only if every read for a session-level grant finds its endpoint's requirements |
| `LadderUnderInterleaving.LadderBreaks` | src/core/auth-gateway/auth-session.service.ts:25-68 | a concrete interleaved run: a slow flow write puts back an old permission list, and FORGOT_PASSWORD is granted without OTP_VERIFIED |
| `SingleToken.HashAndUuidAreGood` | src/module/auth/auth.service.ts:23-42 | the key and id that login passes, a base64 hash and a uuid, meet the conditions of the next rows |
| `SingleToken.OneInRun` | src/core/auth/base-auth.service.ts:78-88 | in every serial run live tokens are issued, unrevoked and one per user |
| `SingleToken.AtMostOneAccepted` | src/core/auth-gateway/auth.guard.ts:63-100 | at most one token of a user passes the guard, whatever the presented key looks like |
| `SingleToken.RevokedNeverAccepted` | src/core/auth-gateway/auth.guard.ts:63-100 | a revoked token is never accepted again |
| `SingleToken.LoginAndLogoutRevoke` | src/module/auth/auth.service.ts:23-47 | a login revokes all earlier tokens of its user, an accepted logout its own |
| `SingleToken.LoginIsAccepted` | src/module/auth/auth.service.ts:23-42 | the token a login signs is accepted right after it, exactly if its lifetime is positive |
| `SingleToken.AcceptedUntil` | src/core/auth-gateway/auth.guard.ts:63-100 | an accepted token stays accepted until time passes, its own user logs in again or it is logged out itself; no request and no other user ends it |
| `TokenWindow.LoginLeaves` | src/core/auth/base-auth.service.ts:78-141 | a login leaves exactly its own two entries and, unchanged, the entries that belong to no live token of its user |
| `TokenWindow.LogoutInRun` | src/core/auth/base-auth.service.ts:57-65 | in every run an accepted logout removes the entries of its id in both namespaces and nothing else, a refused one nothing |
| `TokenWindow.AcceptedIff` | src/core/auth-gateway/auth.guard.ts:63-100 | in every later state of every run the token a login signed is accepted if and only if its lifetime was positive, neither a login of its user nor its own logout has come since, and the clock is within the signed exp and the deadlines of its two entries |
| `TokenWindow.WindowByClock` | src/core/auth-gateway/auth.guard.ts:63-66 | in terms of the clock: while undisturbed it is accepted at every millisecond before its exp, at none after, and at the exp itself only if the login was not on a full second and the session's deadline lies later |
| `TokenWindow.RefusedAtItsExp` | src/core/auth-gateway/auth.guard.ts:63-66 | a concrete run: at its exp a token of a login on the full second passes the exp test, and is refused because its TOKEN entry is gone |
| `LoginRaces.SurvivesIff` | src/core/auth/base-auth.service.ts:78-88 | of any number of overlapping logins of one user, exactly those tokens are live in the end after whose writing no login has looked up the user's tokens |
| `LoginRaces.SingleTokenIff` | src/core/auth/base-auth.service.ts:78-88 | so at most one is live if and only if of any two logins one wrote before some login looked |
| `LoginRaces.OverlapLeavesTwo` | src/core/auth/base-auth.service.ts:78-88 | two logins that both look before either writes leave two live tokens: a concrete run |
| `LoginRaces.AloneIsCreateToken` | src/core/auth/base-auth.service.ts:67-90 | a login that is not overlapped does to the store what `TokenIssue.CreateToken` does |
| `PermissionLadder.LadderInRun` | src/module/auth/auth.controller.ts:43-74 | in every serial run every stored list has FORGOT_PASSWORD only with OTP_VERIFIED |
| `PermissionLadder.ForgotPasswordNeedsOtp` | src/module/auth/auth.controller.ts:65-68 | FORGOT_PASSWORD held implies OTP_VERIFIED held |
| `PermissionLadder.PermissionsOnlyGrow` | src/core/auth-gateway/auth-session.service.ts:25-43 | between any two states that store a session its list keeps its order and only grows |
| `SerialRefinement.SerialIsInterleaved` | src/core/permission/permission.interceptor.ts:48-118 | every state of a serial run is the last state of an interleaved run in which no write is delayed |
| `SerialRefinement.SerialLifetime` | src/core/auth-gateway/auth-session.service.ts:42 | so in serial runs a deadline lies less than a second after exp, never before it |
| `SerialRefinement.SerialNoDuplicates` | src/core/auth-gateway/auth-session.service.ts:37-41 | and no list stored in a serial run repeats a permission |

## Left out

- renewToken: its refresh window and the session it clears without writing it again; only the possible loss of the renewed token is stated.
- authenticateWithHardSecret: it clears no older tokens, so the single-token theorems are about `authenticate`.
- The `exp` stored with TOKEN entries, and the `tokenIDs` list of a session; no update reads them.
- `checkSession`, `flush`, `scan`, hashes, sets and un-namespaced commands of the Redis service.
- Signature, token type and schema validation of a presented token are one boolean per token.
- Redis character classes in KEYS patterns; keys with such characters are excluded where patterns matter, and `SingleToken.HashAndUuidAreGood` shows that login's keys have none.
- SingleToken.AtMostOneAccepted: assumes that every login uses a key and an id on which the token lookup is exact, as `SingleToken.HashAndUuidAreGood` shows of what login passes; `SessionKeys.LookupExactIff` says that it is exact on no others. The same holds for the other theorems of that module over runs.
- AmqpConsumer.DeliveryCounts.IncreaseDeliveryCount: does not model that a counter expires after twelve hours; the redelivery bound is about deliveries within that time.
- SessionServices.TokenSessionService.AddSession: does not model the `exp` and `iat` stamped into the token content, which may carry its own; nothing that is modelled reads them.
- The delivery counters neither expire nor fail to be incremented, and an increment is done before the next check.
- Settlements lost in transit, session and link flow control other than credit, and links resumed by the client library.
- AmqpRedelivery.PoisonIsDeadLettered: a delivery left over from a replaced receiver is refused without effect, because the broker has already taken the message back.
- The class `SessionServices.BaseAuthService` runs the clear in place; all other orders are covered by `TokenIssue.AuthenticateUnawaited`, at one clock value.
- Requests in `SerialRuns` see one clock value; time passes between requests. `SessionMachine` lets it pass anywhere, also between a read and the computation of the write. In `LoginRaces` the clock stands still.
- UnansweredRequests.GrantFailsIff: is about whole requests; when they interleave, a grant fails with its one update, and `SessionStore.RunOpFails` says when that is.
- A `flowSessions` field that is absent and one that is empty are the same value; numbers are unbounded integers.
- Whether `requestOtp` writes `selfieId: undefined` or no such field depends on the class transformer; it is a parameter of the request and the theorems hold for both.
- Logging, environment, addresses and queues, sending messages, the stream service, throttling, repositories, paging and URL building: input, output and wiring.
