/**
 The sockets channel between two voices as a transition system.

 Each end has a client, a sender thread, a receiver thread and one deliverer
 thread per stream. A step is what one thread does under one mutex (a FIFO's,
 or the one that guards the audits), or privately between two of them; runs
 interleave the steps of both ends in any order.
 */
module ChannelModel {
  import opened Messages

  /** The sender's estimate of one stream's remote buffer. */
  datatype Estimate = Estimate(items: int, bytes: int, queries: int)
  {
    function Of(measure: Measure): int {
      if measure == Items then items else bytes
    }
  }

  const NothingOutstanding := Estimate(0, 0, 0)

  /** The message in the sender thread's hands. */
  datatype Hand = Idle | Pulled(m: Message) | Charged(m: Message) | Exited

  /** The receiver thread: `Replying` holds an audit taken from a deliverer. */
  datatype Reader = Waiting | Got(m: Message) | Replying(stream: nat, audit: Audit) | Left

  datatype Phase = Running | Breaking | Finished

  datatype Deliverer = Deliverer(
    queue: seq<Message>, audit: Audit, order: nat, stop: bool, phase: Phase,
    hand: Option<Message>, delivered: seq<Item>, dropped: seq<Message>)

  const FreshDeliverer := Deliverer([], EmptyAudit, 0, false, Running, None, [], [])

  datatype Fault = RoutingOverflow | AuditIndex | AuditOverflow | SizeMismatch | OutOfOrder

  /** What has happened at one end so far. `unanswered` are the queries that
      met an empty audit. */
  datatype Log = Log(
    enqueued: seq<Message>, handled: seq<Message>, sent: seq<Message>, received: seq<Message>,
    accepted: seq<Message>, unanswered: seq<Message>)

  datatype End = End(
    audits: seq<Estimate>, sendQ: seq<Message>, hand: Hand, flushed: bool, wire: seq<Message>,
    reader: Reader, inbox: seq<Message>, deliverers: map<nat, Deliverer>,
    offering: Option<Message>, endRun: bool, fault: Option<Fault>, log: Log)

  const FreshEnd := End([], [], Idle, false, [], Waiting, [], map[], None, false, None, Log([], [], [], [], [], []))

  datatype Sys = Sys(a: End, b: End)

  const Start := Sys(FreshEnd, FreshEnd)

  function Flip(s: Sys): Sys {
    Sys(s.b, s.a)
  }

  // ---------------------------------------------------------------------------
  // Views

  function Est(e: End, k: nat): Estimate {
    if k < |e.audits| then e.audits[k] else NothingOutstanding
  }

  function Dlv(e: End, k: nat): Deliverer {
    if k in e.deliverers then e.deliverers[k] else FreshDeliverer
  }

  function InHand(h: Hand): seq<Message> {
    if h.Pulled? || h.Charged? then [h.m] else []
  }

  function ChargedHand(h: Hand): seq<Message> {
    if h.Charged? then [h.m] else []
  }

  function Held(r: Reader): seq<Message> {
    if r.Got? then [r.m] else []
  }

  function OptSeq<T>(o: Option<T>): seq<T> {
    if o.Some? then [o.value] else []
  }

  /** All messages on their way from `a` to `b`, oldest first. */
  function Pipe(a: End, b: End): seq<Message> {
    Held(b.reader) + a.wire + InHand(a.hand) + a.sendQ
  }

  /** Those of them that the sender thread has charged. */
  function ChargedPipe(a: End, b: End): seq<Message> {
    Held(b.reader) + a.wire + ChargedHand(a.hand)
  }

  // ---------------------------------------------------------------------------
  // Steps of the client

  function Queue(e: End, m: Message): End {
    e.(sendQ := e.sendQ + [m], log := e.log.(enqueued := e.log.enqueued + [m]))
  }

  predicate Congested(p: Pars, est: Estimate) {
    est.items > p.maxItems || est.bytes > p.maxBytes
  }

  /** `push` of a PUSHDATA, up to the release of the audits mutex. */
  function Offer(p: Pars, e: End, m: Message): End
    requires m.stream < |e.audits|
  {
    var est := e.audits[m.stream];
    if Congested(p, est) && !e.endRun then
      Queue(e, Control(QueryBuffer, m.stream)).(audits := e.audits[m.stream := est.(queries := est.queries + 1)])
    else
      e.(offering := Some(m))
  }

  /** The rest of that push. */
  function Enqueue(e: End): End
    requires e.offering.Some?
  {
    var m := e.offering.value;
    var e' := Queue(e, m);
    e'.(offering := None, log := e'.log.(accepted := e.log.accepted + [m]))
  }

  /** Tags that no audit counts and that clients push as they like. */
  predicate Plainly(t: Tag) {
    t != PushData && t != QueryBuffer && t != UsedData
  }

  // ---------------------------------------------------------------------------
  // Steps of the sender thread

  function Pull(e: End): End
    requires e.hand == Idle && e.sendQ != []
  {
    e.(hand := Pulled(e.sendQ[0]), sendQ := e.sendQ[1..])
  }

  function Charge(p: Pars, e: End, m: Message): Estimate
    requires m.stream < |e.audits|
  {
    var est := e.audits[m.stream];
    est.(items := est.items + 1, bytes := est.bytes + p.header + m.length)
  }

  predicate HalfFull(p: Pars, est: Estimate) {
    2 * est.items >= p.maxItems || 2 * est.bytes >= p.maxBytes
  }

  /** Flush and audit of the message just pulled. */
  function Prepare(p: Pars, e: End): End
    requires e.hand.Pulled?
  {
    var m := e.hand.m;
    if m.tag == Flush then
      e.(flushed := true, hand := Idle, log := e.log.(handled := e.log.handled + [m]))
    else if m.tag == OutputFound then
      var audits := if |e.audits| <= m.stream
        then e.audits + seq(m.stream + 1 - |e.audits|, i => NothingOutstanding) else e.audits;
      e.(audits := audits, hand := Charged(m))
    else if m.tag == PushData then
      if m.stream >= |e.audits| then e.(fault := Some(AuditIndex), hand := Exited)
      else
        var est := Charge(p, e, m);
        var ask := HalfFull(p, est) && est.queries == 0;
        var e' := e.(audits := e.audits[m.stream := est.(queries := est.queries + if ask then 1 else 0)],
                     hand := Charged(m));
        if ask then Queue(e', Control(QueryBuffer, m.stream)) else e'
    else e.(hand := Charged(m))
  }

  /** Compression, and the whole message goes to the socket. */
  function Send(p: Pars, e: End): End
    requires e.hand.Charged?
  {
    var m := e.hand.m;
    e.(wire := e.wire + [Pack(p, m)], hand := if m.tag == Goodbye then Exited else Idle,
       log := e.log.(handled := e.log.handled + [m], sent := e.log.sent + [Pack(p, m)]))
  }

  // ---------------------------------------------------------------------------
  // Steps of the receiver thread

  /** Reads one message from the peer's wire. */
  function Receive(e: End, m: Message): End
    requires e.reader == Waiting
  {
    if (m.tag == PushData || m.tag == QueryBuffer) && m.stream !in e.deliverers then
      e.(fault := Some(RoutingOverflow), reader := Left)
    else
      e.(reader := Got(m), log := e.log.(received := e.log.received + [m]))
  }

  function Dispatch(p: Pars, e: End): End
    requires e.reader.Got?
  {
    var m := e.reader.m;
    match m.tag
    case Goodbye => e.(reader := Left)
    case Cancel => e.(reader := Waiting)
    case UsedData => Credit(e, m)
    case QueryBuffer => Answer(e, m)
    case PushData => Route(p, e, m)
    case _ => e.(reader := Waiting, inbox := e.inbox + [m])
  }

  function Credit(e: End, m: Message): End {
    if m.stream >= |e.audits| then e.(fault := Some(AuditIndex), reader := Left)
    else
      var est := e.audits[m.stream];
      if m.audit.bytes > est.bytes then e.(fault := Some(AuditOverflow), reader := Left)
      else
        e.(audits := e.audits[m.stream := Estimate(est.items - m.audit.items, est.bytes - m.audit.bytes, est.queries - 1)],
           reader := Waiting)
  }

  function Answer(e: End, m: Message): End {
    if m.stream !in e.deliverers then e.(fault := Some(RoutingOverflow), reader := Left)
    else
      var d := e.deliverers[m.stream];
      var e' := e.(deliverers := e.deliverers[m.stream := d.(audit := EmptyAudit)]);
      if d.audit.items != 0 then e'.(reader := Replying(m.stream, d.audit))
      else e'.(reader := Waiting, log := e.log.(unanswered := e.log.unanswered + [m]))
  }

  function Route(p: Pars, e: End, m: Message): End {
    if m.stream !in e.deliverers then e.(fault := Some(RoutingOverflow), reader := Left)
    else if m.deflated && m.length != 0 && |p.inflate(m.body)| != m.length then
      e.(fault := Some(SizeMismatch), reader := Left)
    else
      e.(deliverers := e.deliverers[m.stream := DeliverPush(e.deliverers[m.stream], Unpack(p, m))], reader := Waiting)
  }

  /** Sends back the audit taken for a query. */
  function Reply(e: End): End
    requires e.reader.Replying?
  {
    Queue(e, Control(UsedData, e.reader.stream, e.reader.audit)).(reader := Waiting)
  }

  // ---------------------------------------------------------------------------
  // Steps of a deliverer thread

  /** A terminated queue lets messages go. */
  function DeliverPush(d: Deliverer, m: Message): Deliverer {
    if d.phase == Finished then d.(dropped := d.dropped + [m]) else d.(queue := d.queue + [m])
  }

  predicate CanDeliver(d: Deliverer) {
    d.phase == Running && d.hand.None? && d.queue != []
  }

  /** Takes a message from the queue and checks its order; false if it is out of order. */
  function DeliverPull(p: Pars, d: Deliverer): (Deliverer, bool)
    requires CanDeliver(d)
  {
    var m := d.queue[0];
    var d' := d.(queue := d.queue[1..],
                 audit := Audit(d.audit.items + 1, d.audit.bytes + p.header + |m.body|));
    if m.order != d.order then (d'.(phase := Breaking), false)
    else (d'.(order := d.order + 1, hand := Some(m)), true)
  }

  function DeliverHandle(d: Deliverer, cancel: bool): Deliverer
    requires d.hand.Some?
  {
    d.(hand := None, delivered := d.delivered + [Item(d.hand.value.order, d.hand.value.body)],
       phase := if cancel then Breaking else d.phase)
  }

  function DeliverFlush(d: Deliverer): Deliverer {
    d.(queue := [], dropped := d.dropped + d.queue, phase := Finished)
  }

  // ---------------------------------------------------------------------------
  // The transition system

  datatype Op =
    | DoOffer(m: Message) | DoEnqueue | DoPut(m: Message) | DoEndRun
    | DoTimeout | DoPull | DoPrepare | DoSend
    | DoReceive | DoDispatch | DoReply
    | DoRoute(k: nat)
    | DoStop(k: nat) | DoBreak(k: nat) | DoTake(k: nat) | DoHandle(k: nat, cancel: bool) | DoDrop(k: nat)

  function SetDeliverer(e: End, k: nat, d: Deliverer): End {
    e.(deliverers := e.deliverers[k := d])
  }

  /** When end `a` may take a step. For `DoOffer` this holds the client to the
      protocol: one push at a time, the stream announced and routed, its
      messages numbered from 0, and a header that tells the payload's size. */
  predicate Can(p: Pars, a: End, b: End, op: Op) {
    match op
    case DoOffer(m) =>
      && a.offering.None? && m.tag == PushData && !m.deflated && Sound(p, m)
      && m.stream < |a.audits| && m.stream in b.deliverers
      && m.order == |Data(p, a.log.accepted, m.stream)|
    case DoEnqueue => a.offering.Some?
    case DoPut(m) => Plainly(m.tag) && !m.deflated && Sound(p, m)
    case DoEndRun => true
    case DoTimeout => a.hand == Idle
    case DoPull => a.hand == Idle && a.sendQ != []
    case DoPrepare => a.hand.Pulled?
    case DoSend => a.hand.Charged?
    case DoReceive => a.reader == Waiting && b.wire != []
    case DoDispatch => a.reader.Got?
    case DoReply => a.reader.Replying?
    case DoRoute(k) => k !in a.deliverers
    case DoStop(k) => k in a.deliverers
    case DoBreak(k) => k in a.deliverers && a.deliverers[k].phase == Running && a.deliverers[k].hand.None? && a.deliverers[k].stop
    case DoTake(k) => k in a.deliverers && CanDeliver(a.deliverers[k])
    case DoHandle(k, _) => k in a.deliverers && a.deliverers[k].hand.Some?
    case DoDrop(k) => k in a.deliverers && a.deliverers[k].phase == Breaking && a.deliverers[k].hand.None?
  }

  /** End `a` after the step. */
  function Act(p: Pars, a: End, b: End, op: Op): End
    requires Can(p, a, b, op)
  {
    match op
    case DoOffer(m) => Offer(p, a, m)
    case DoEnqueue => Enqueue(a)
    case DoPut(m) => Queue(a, m)
    case DoEndRun => a.(endRun := true)
    case DoTimeout => Queue(a, Control(KeepAlive, 0))
    case DoPull => Pull(a)
    case DoPrepare => Prepare(p, a)
    case DoSend => Send(p, a)
    case DoReceive => Receive(a, b.wire[0])
    case DoDispatch => Dispatch(p, a)
    case DoReply => Reply(a)
    case DoRoute(k) => SetDeliverer(a, k, FreshDeliverer)
    case DoStop(k) => SetDeliverer(a, k, a.deliverers[k].(stop := true))
    case DoBreak(k) => SetDeliverer(a, k, a.deliverers[k].(phase := Breaking))
    case DoTake(k) =>
      var (d, inOrder) := DeliverPull(p, a.deliverers[k]);
      var a' := SetDeliverer(a, k, d);
      if inOrder then a' else a'.(fault := Some(OutOfOrder))
    case DoHandle(k, cancel) => SetDeliverer(a, k, DeliverHandle(a.deliverers[k], cancel))
    case DoDrop(k) => SetDeliverer(a, k, DeliverFlush(a.deliverers[k]))
  }

  /** The other end after it: reading takes the message off its wire. */
  function React(b: End, op: Op): End {
    if op == DoReceive && b.wire != [] then b.(wire := b.wire[1..]) else b
  }

  datatype Side = SideA | SideB

  datatype Event = Event(side: Side, op: Op)

  function Me(s: Sys, side: Side): End {
    if side == SideA then s.a else s.b
  }

  function Peer(s: Sys, side: Side): End {
    if side == SideA then s.b else s.a
  }

  predicate Enabled(p: Pars, s: Sys, e: Event) {
    if e.side == SideA then Can(p, s.a, s.b, e.op) else Can(p, s.b, s.a, e.op)
  }

  function Next(p: Pars, s: Sys, e: Event): Sys
    requires Enabled(p, s, e)
  {
    if e.side == SideA then Sys(Act(p, s.a, s.b, e.op), React(s.b, e.op))
    else Sys(React(s.a, e.op), Act(p, s.b, s.a, e.op))
  }

  predicate Legal(p: Pars, s: Sys, run: seq<Event>)
    decreases |run|
  {
    run == [] || (Enabled(p, s, run[0]) && Legal(p, Next(p, s, run[0]), run[1..]))
  }

  function After(p: Pars, s: Sys, run: seq<Event>): Sys
    requires Legal(p, s, run)
    decreases |run|
  {
    if run == [] then s else After(p, Next(p, s, run[0]), run[1..])
  }

  lemma {:induction false} RunAppend(p: Pars, s: Sys, x: seq<Event>, y: seq<Event>)
    requires Legal(p, s, x) && Legal(p, After(p, s, x), y)
    ensures Legal(p, s, x + y) && After(p, s, x + y) == After(p, After(p, s, x), y)
    decreases |x|
  {
    if x == [] {
      assert x + y == y;
    } else {
      assert (x + y)[1..] == x[1..] + y;
      RunAppend(p, Next(p, s, x[0]), x[1..], y);
    }
  }

  lemma {:induction false} RunSplit(p: Pars, s: Sys, x: seq<Event>, y: seq<Event>)
    requires Legal(p, s, x + y)
    ensures Legal(p, s, x) && Legal(p, After(p, s, x), y)
    ensures After(p, s, x + y) == After(p, After(p, s, x), y)
    decreases |x|
  {
    hide Enabled, Next;
    if x == [] {
      assert x + y == y;
    } else {
      assert (x + y)[1..] == x[1..] + y && (x + y)[0] == x[0];
      RunSplit(p, Next(p, s, x[0]), x[1..], y);
    }
  }
}
