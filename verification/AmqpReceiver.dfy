/**
 The receiving side of the AMQP service as a state machine: the receiver with its hand-made
 link credit, the one-at-a-time message pipeline, the listener's handlers with their release
 timers, and the broker's view of every message.

 Each transition is a function of its own, so that the class `AmqpConsumer` can be proved
 against it and the theorems can be proved about it.
 */
module AmqpReceiver {
  import opened Prelude

  type MsgId = nat

  /** What the message carries: nothing, something that does not parse, or a usable body. */
  datatype Body = NoMessage | Malformed | WellFormed

  /** `counter` is the message_id under which deliveries are counted; it may be shared. */
  datatype Message = Message(counter: string, body: Body)

  /** `replies` is false for a listener whose handler always resolves to null. */
  datatype Config = Config(limit: nat, maxRedeliver: nat, eager: bool, replies: bool, messages: map<MsgId, Message>)

  /** A delivery on receiver number `receiver`; its identity is its place in arrival order. */
  datatype Delivery = Delivery(msg: MsgId, receiver: nat, first: bool)

  datatype Phase =
    | Lost         // arrived before anyone was subscribed
    | Queued       // waiting in the pipeline
    | Checking     // in the pipeline's asynchronous body
    | Dropped      // the event had no message
    | Refused      // rejected by the pipeline, credit given back
    | Handling     // onMessage is running
    | Replying     // onMessage is done, credit given back, reply under way
    | BackoffOwed  // onMessage failed, release timer running
    | BackoffPaid  // reply failed after the credit was given back, release timer running
    | Overpaid     // release timer of a failed reply has fired
    | Finished

  datatype Handing = Handing(delivery: nat, msg: MsgId)

  /** Credit of every receiver opened so far; the current one has number |closed|. */
  datatype Link = Link(closed: seq<nat>, credit: nat, started: bool)

  /** The broker's view: queued, out on a delivery, accepted, dead-lettered. */
  datatype Broker = Broker(waiting: set<MsgId>, unsettled: map<nat, MsgId>, accepted: set<MsgId>, dead: set<MsgId>)

  /** The pipeline: buffered deliveries, the one in its body, the cached counts, the onMessage calls so far. */
  datatype Pipe = Pipe(
    subscribed: bool, queue: seq<nat>, active: Option<nat>, counters: map<string, nat>, handed: seq<Handing>)

  /** `phases` has one entry per delivery; `completed` are the messages of which an onMessage call resolved. */
  datatype State = State(
    link: Link, broker: Broker, pipe: Pipe, deliveries: seq<Delivery>, phases: seq<Phase>, completed: set<MsgId>)

  datatype Step =
    | Subscribe
    | Start
    | Deliver(m: MsgId, first: bool)
    | Take
    | Resolve(fault: bool)
    | HandlerOk(d: nat, reply: bool)
    | HandlerFails(d: nat)
    | ReplyOk(d: nat)
    | ReplyFails(d: nat)
    | Timer(d: nat)
    | Replace

  /** Right after createReceiver: one receiver with `limit` credits, all messages at the broker. */
  function Init(cfg: Config): State {
    State(Link([], cfg.limit, false), Broker(cfg.messages.Keys, map[], {}, {}), Pipe(false, [], None, map[], []),
          [], [], {})
  }

  // ---- Settlement: only a delivery the broker still holds unsettled can be settled ----

  function Accept(b: Broker, d: nat): Broker {
    if d in b.unsettled
    then b.(unsettled := b.unsettled - {d}, accepted := b.accepted + {b.unsettled[d]})
    else b
  }

  function Reject(b: Broker, d: nat): Broker {
    if d in b.unsettled
    then b.(unsettled := b.unsettled - {d}, dead := b.dead + {b.unsettled[d]})
    else b
  }

  function Release(b: Broker, d: nat): Broker {
    if d in b.unsettled
    then b.(unsettled := b.unsettled - {d}, waiting := b.waiting + {b.unsettled[d]})
    else b
  }

  // ---- Credit ----

  /** One credit for receiver number `r`, which may be one that has been replaced. */
  function AddCredit(l: Link, r: nat): Link {
    if r < |l.closed| then l.(closed := l.closed[r := l.closed[r] + 1]) else l.(credit := l.credit + 1)
  }

  // ---- Delivery counts ----

  function CountOf(counters: map<string, nat>, id: string): nat {
    if id in counters then counters[id] else 0
  }

  predicate ValidCount(current: nat, max: nat) {
    if current != 0 then current - 1 <= max else true
  }

  // ---- Transitions ----

  function DoDeliver(s: State, m: MsgId, first: bool): State
    requires s.link.credit > 0
  {
    var d := |s.deliveries|;
    s.(deliveries := s.deliveries + [Delivery(m, |s.link.closed|, first)],
       phases := s.phases + [if s.pipe.subscribed then Queued else Lost],
       pipe := if s.pipe.subscribed then s.pipe.(queue := s.pipe.queue + [d]) else s.pipe,
       link := s.link.(credit := s.link.credit - 1),
       broker := s.broker.(waiting := s.broker.waiting - {m}, unsettled := s.broker.unsettled[d := m]))
  }

  function DoTake(s: State): State
    requires |s.pipe.queue| > 0 && s.pipe.queue[0] < |s.phases|
  {
    var d := s.pipe.queue[0];
    s.(phases := s.phases[d := Checking], pipe := s.pipe.(active := Some(d), queue := s.pipe.queue[1..]))
  }

  /** The pipeline's body rejects the event and gives the credit to receiver `r`. */
  function Refuse(s: State, d: nat, r: nat): State
    requires d < |s.phases|
  {
    s.(broker := Reject(s.broker, d),
       link := AddCredit(s.link, r),
       phases := s.phases[d := Refused],
       pipe := s.pipe.(active := None))
  }

  /** The pipeline's body counts the delivery and hands it to the listener. */
  function Hand(cfg: Config, s: State, d: nat, counter: string): State
    requires d < |s.phases| && d < |s.deliveries|
  {
    s.(broker := if cfg.eager then Accept(s.broker, d) else s.broker,
       phases := s.phases[d := Handling],
       pipe := s.pipe.(
         active := None,
         counters := s.pipe.counters[counter := CountOf(s.pipe.counters, counter) + 1],
         handed := s.pipe.handed + [Handing(d, s.deliveries[d].msg)]))
  }

  /** What the pipeline's body does with an event. */
  datatype Verdict = Drop | RefuseOn(receiver: nat) | HandOver

  function Judge(cfg: Config, dlv: Delivery, counters: map<string, nat>, current: nat, fault: bool): Verdict
    requires dlv.msg in cfg.messages
  {
    var message := cfg.messages[dlv.msg];
    if message.body.NoMessage? then
      Drop
    else if message.body.Malformed? || (fault && !dlv.first) then
      RefuseOn(current)
    else if !dlv.first && !ValidCount(CountOf(counters, message.counter), cfg.maxRedeliver) then
      RefuseOn(dlv.receiver)
    else
      HandOver
  }

  function DoResolve(cfg: Config, s: State, fault: bool): State
    requires s.pipe.active.Some? && s.pipe.active.value < |s.phases| == |s.deliveries|
    requires s.deliveries[s.pipe.active.value].msg in cfg.messages
  {
    var d := s.pipe.active.value;
    var dlv := s.deliveries[d];
    match Judge(cfg, dlv, s.pipe.counters, |s.link.closed|, fault)
    case Drop => s.(phases := s.phases[d := Dropped], pipe := s.pipe.(active := None))
    case RefuseOn(r) => Refuse(s, d, r)
    case HandOver => Hand(cfg, s, d, cfg.messages[dlv.msg].counter)
  }

  function DoHandlerOk(cfg: Config, s: State, d: nat, reply: bool): State
    requires d < |s.phases| == |s.deliveries|
  {
    s.(broker := if cfg.eager then s.broker else Accept(s.broker, d),
       link := AddCredit(s.link, |s.link.closed|),
       phases := s.phases[d := if reply then Replying else Finished],
       completed := s.completed + {s.deliveries[d].msg})
  }

  /** The release timer fires: release the delivery, credit the current receiver. */
  function DoTimer(s: State, d: nat): State
    requires d < |s.phases|
  {
    s.(broker := Release(s.broker, d),
       link := AddCredit(s.link, |s.link.closed|),
       phases := s.phases[d := if s.phases[d].BackoffPaid? then Overpaid else Finished])
  }

  /** The receiver closes: the broker takes back what is out on it, a new receiver gets `limit`. */
  function DoReplace(cfg: Config, s: State): State {
    s.(link := s.link.(closed := s.link.closed + [s.link.credit], credit := cfg.limit),
       broker := s.broker.(waiting := s.broker.waiting + s.broker.unsettled.Values, unsettled := map[]))
  }

  predicate InPhase(s: State, d: nat, p: Phase) {
    d < |s.phases| && s.phases[d] == p
  }

  /** Only a message's first delivery can be marked first_acquirer. */
  predicate Enabled(cfg: Config, s: State, step: Step) {
    match step
    case Subscribe => !s.pipe.subscribed
    case Start => s.pipe.subscribed && !s.link.started
    case Deliver(m, first) =>
      && m in cfg.messages && m in s.broker.waiting && s.link.credit > 0
      && (first ==> forall d :: 0 <= d < |s.deliveries| ==> s.deliveries[d].msg != m)
    case Take => s.pipe.active.None? && |s.pipe.queue| > 0
    case Resolve(_) => s.pipe.active.Some?
    case HandlerOk(d, reply) => InPhase(s, d, Handling) && (reply ==> cfg.replies)
    case HandlerFails(d) => InPhase(s, d, Handling)
    case ReplyOk(d) => InPhase(s, d, Replying)
    case ReplyFails(d) => InPhase(s, d, Replying)
    case Timer(d) => InPhase(s, d, BackoffOwed) || InPhase(s, d, BackoffPaid)
    case Replace => true
  }

  /** The indices the machine holds point at deliveries it knows. */
  ghost predicate Shape(cfg: Config, s: State) {
    && |s.phases| == |s.deliveries|
    && (forall d :: 0 <= d < |s.deliveries| ==> s.deliveries[d].msg in cfg.messages)
    && (forall d :: 0 <= d < |s.deliveries| ==> s.deliveries[d].receiver <= |s.link.closed|)
    && (forall i :: 0 <= i < |s.pipe.queue| ==> s.pipe.queue[i] < |s.phases|)
    && (s.pipe.active.Some? ==> s.pipe.active.value < |s.phases|)
  }

  function Apply(cfg: Config, s: State, step: Step): State
    requires Shape(cfg, s) && Enabled(cfg, s, step)
  {
    match step
    case Subscribe => s.(pipe := s.pipe.(subscribed := true))
    case Start => s.(link := s.link.(started := true, credit := s.link.credit + cfg.limit))
    case Deliver(m, first) => DoDeliver(s, m, first)
    case Take => DoTake(s)
    case Resolve(fault) => DoResolve(cfg, s, fault)
    case HandlerOk(d, reply) => DoHandlerOk(cfg, s, d, reply)
    case HandlerFails(d) => s.(phases := s.phases[d := BackoffOwed])
    case ReplyOk(d) => s.(phases := s.phases[d := Finished])
    case ReplyFails(d) => s.(phases := s.phases[d := BackoffPaid])
    case Timer(d) => DoTimer(s, d)
    case Replace => DoReplace(cfg, s)
  }

  lemma ShapePreserved(cfg: Config, s: State, step: Step)
    requires Shape(cfg, s) && Enabled(cfg, s, step)
    ensures Shape(cfg, Apply(cfg, s, step))
  {
  }

  // ---- Runs ----

  ghost predicate Next(cfg: Config, s: State, step: Step, s': State) {
    Shape(cfg, s) && Enabled(cfg, s, step) && s' == Apply(cfg, s, step)
  }

  /** `tr` are the states and `steps` the transitions of a run from the beginning. */
  ghost predicate IsRun(cfg: Config, tr: seq<State>, steps: seq<Step>) {
    && |tr| == |steps| + 1
    && tr[0] == Init(cfg)
    && forall i {:trigger steps[i]} :: 0 <= i < |steps| ==> Next(cfg, tr[i], steps[i], tr[i + 1])
  }

  /** One more step of a run. */
  lemma Advance(cfg: Config, tr: seq<State>, steps: seq<Step>, step: Step) returns (tr': seq<State>, steps': seq<Step>)
    requires IsRun(cfg, tr, steps) && Shape(cfg, tr[|tr| - 1]) && Enabled(cfg, tr[|tr| - 1], step)
    ensures IsRun(cfg, tr', steps') && Shape(cfg, tr'[|tr'| - 1])
    ensures tr'[|tr'| - 1] == Apply(cfg, tr[|tr| - 1], step)
  {
    ShapePreserved(cfg, tr[|tr| - 1], step);
    tr', steps' := tr + [Apply(cfg, tr[|tr| - 1], step)], steps + [step];
  }
}
