/**
 With which limits the sharper bound holds: a run that takes a stream's
 estimate to the limit of items, with one message at a time in the backlog, and
 then one past that bound; and why there is none where the limit of bytes comes
 first, as every message counts at least a header.
 */
module OverrunLimits {
  import opened Messages
  import opened ChannelModel
  import opened Ledger
  import opened ChannelInvariant
  import opened ChannelRuns
  import opened Progress
  import opened SenderReach
  import opened Overrun

  function Datum(order: nat): Message {
    Message(PushData, 0, order, 0, [], false, EmptyAudit)
  }

  /** No GOODBYE is waiting to be sent. */
  predicate Calm(w: End) {
    && w.hand != Exited && (w.hand.Pulled? || w.hand.Charged? ==> w.hand.m.tag != Goodbye)
    && forall i :: 0 <= i < |w.sendQ| ==> w.sendQ[i].tag != Goodbye
  }

  /** End a has pushed messages of stream 0 without payload: `charged` of them are in
      the estimate and `queued` of them in the backlog. */
  ghost predicate Ready(p: Pars, s: Sys, charged: nat, queued: nat) {
    && Healthy(p, s.a, s.b) && Calm(s.a) && s.a.offering == None && !s.a.endRun
    && |s.a.audits| > 0 && 0 in s.b.deliverers
    && |Data(p, s.a.log.accepted, 0)| == charged + queued
    && Est(s.a, 0).items == charged && Est(s.a, 0).bytes == p.header * charged
    && Backlog(p, s.a, 0, Items) == queued && Committed(p, s.a, 0, Volume) == p.header * (charged + queued)
  }

  // ---------------------------------------------------------------------------
  // Opening the stream

  /** Stream 0 is routed at end b and announced at end a. */
  function OpeningOps(): seq<Event> {
    [Event(SideB, DoRoute(0)), Event(SideA, DoPut(Control(OutputFound, 0))), Event(SideA, DoPull),
     Event(SideA, DoPrepare)]
  }

  function Opening(i: nat): Sys {
    var announce := Control(OutputFound, 0);
    var log := FreshEnd.log.(enqueued := [announce]);
    var routed := FreshEnd.(deliverers := map[0 := FreshDeliverer]);
    match i
    case 0 => Start
    case 1 => Sys(FreshEnd, routed)
    case 2 => Sys(FreshEnd.(sendQ := [announce], log := log), routed)
    case 3 => Sys(FreshEnd.(hand := Pulled(announce), log := log), routed)
    case _ => Sys(FreshEnd.(audits := [NothingOutstanding], hand := Charged(announce), log := log), routed)
  }

  lemma OpeningStep(p: Pars, i: nat)
    requires i < 4
    ensures Enabled(p, Opening(i), OpeningOps()[i]) && Next(p, Opening(i), OpeningOps()[i]) == Opening(i + 1)
  {
    if i == 3 {
      assert seq(1, j => NothingOutstanding) == [NothingOutstanding];
    }
  }

  lemma NothingQueued(p: Pars, i: nat, measure: Measure)
    ensures Backlog(p, Opening(i).a, 0, measure) == 0
  {
    var announce := Control(OutputFound, 0);
    assert Uncharged(Opening(i).a) == [] || Uncharged(Opening(i).a) == [announce];
    TotalOne(p, announce, Pushed(measure, 0));
  }

  lemma {:induction false} OpeningFrom(p: Pars, i: nat, measure: Measure)
    requires i <= 4
    ensures Legal(p, Opening(i), OpeningOps()[i..])
    ensures After(p, Opening(i), OpeningOps()[i..]) == Opening(4)
    ensures PeakOf(p, Opening(i), OpeningOps()[i..], SideA, 0, measure) == 0
    decreases 4 - i
  {
    hide Opening, Enabled, Next, Backlog;
    NothingQueued(p, i, measure);
    if i < 4 {
      OpeningStep(p, i);
      OpeningFrom(p, i + 1, measure);
      assert OpeningOps()[i..][0] == OpeningOps()[i] && OpeningOps()[i..][1..] == OpeningOps()[i + 1..];
    }
  }

  lemma Opened(p: Pars)
    requires p.Valid()
    ensures Legal(p, Start, OpeningOps()) && Ready(p, After(p, Start, OpeningOps()), 0, 0)
    ensures PeakOf(p, Start, OpeningOps(), SideA, 0, Items) == PeakOf(p, Start, OpeningOps(), SideA, 0, Volume) == 0
  {
    assert Opening(0) == Start && OpeningOps()[0..] == OpeningOps();
    hide Legal, After, PeakOf, Healthy, Opening, OpeningOps, Backlog, Data, Calm;
    OpeningFrom(p, 0, Items);
    OpeningFrom(p, 0, Volume);
    OpeningEnds(p);
    HealthyAfter(p, OpeningOps(), SideA);
  }

  lemma OpeningEnds(p: Pars)
    ensures
      var s := Opening(4);
      && Calm(s.a) && s.a.offering == None && !s.a.endRun && |s.a.audits| > 0 && 0 in s.b.deliverers
      && Data(p, s.a.log.accepted, 0) == [] && Est(s.a, 0) == NothingOutstanding
      && Backlog(p, s.a, 0, Items) == 0 && Backlog(p, s.a, 0, Volume) == 0
  {
    NothingQueued(p, 4, Items);
    NothingQueued(p, 4, Volume);
  }

  // ---------------------------------------------------------------------------
  // Pushing a message

  function PushOps(order: nat): seq<Event> {
    [Event(SideA, DoOffer(Datum(order))), Event(SideA, DoEnqueue)]
  }

  lemma PushReaches(p: Pars, s: Sys, m: Message, measure: Measure)
    requires Passes(p, s, SideA, m) && Healthy(p, s.a, s.b)
    ensures Legal(p, s, [Event(SideA, DoOffer(m)), Event(SideA, DoEnqueue)])
    ensures
      var run := [Event(SideA, DoOffer(m)), Event(SideA, DoEnqueue)];
      && After(p, s, run) == Sys(Enqueue(s.a.(offering := Some(m))), s.b)
      && Healthy(p, After(p, s, run).a, After(p, s, run).b)
      && PeakOf(p, s, run, SideA, m.stream, measure)
      == Max(Backlog(p, s.a, m.stream, measure), Backlog(p, After(p, s, run).a, m.stream, measure))
  {
    var offer, enqueue := Event(SideA, DoOffer(m)), Event(SideA, DoEnqueue);
    OfferPasses(p, s, SideA, m);
    OfferHealthy(p, s, SideA, m);
    var s1 := Next(p, s, offer);
    assert s1 == Sys(s.a.(offering := Some(m)), s.b) && Uncharged(s1.a) == Uncharged(s.a);
    hide Healthy, Total, Enqueue;
    ActHealthy(p, s1.a, s1.b, DoEnqueue);
    PeakOne(p, s, offer, SideA, m.stream, measure);
    PeakOne(p, s1, enqueue, SideA, m.stream, measure);
    PeakAppend(p, s, [offer], [enqueue], SideA, m.stream, measure);
    RunAppend(p, s, [offer], [enqueue]);
    assert [offer, enqueue] == [offer] + [enqueue];
  }

  lemma EnqueueData(p: Pars, w: End, m: Message)
    requires w.offering == None && m.tag == PushData && m.stream == 0
    ensures
      var w' := Enqueue(w.(offering := Some(m)));
      && (Calm(w) ==> Calm(w')) && w'.offering == None && w'.endRun == w.endRun && w'.audits == w.audits
      && Est(w', 0) == Est(w, 0)
      && |Data(p, w'.log.accepted, 0)| == |Data(p, w.log.accepted, 0)| + 1
      && Backlog(p, w', 0, Items) == Backlog(p, w, 0, Items) + 1
      && Backlog(p, w', 0, Volume) == Backlog(p, w, 0, Volume) + p.header + m.length
  {
    hide Total, Data;
    var o := w.(offering := Some(m));
    assert Uncharged(o) == Uncharged(w);
    EnqueueCommits(p, o, 0, Items);
    EnqueueCommits(p, o, 0, Volume);
    DataPush(p, w.log.accepted, m, 0);
  }

  /** A message is pushed while the estimate is within its limits. */
  lemma PushOne(p: Pars, s: Sys, charged: nat, queued: nat)
    requires Ready(p, s, charged, queued) && charged <= p.maxItems && p.header * charged <= p.maxBytes
    ensures Legal(p, s, PushOps(charged + queued))
    ensures Ready(p, After(p, s, PushOps(charged + queued)), charged, queued + 1)
    ensures PeakOf(p, s, PushOps(charged + queued), SideA, 0, Items) == queued + 1
  {
    var m := Datum(charged + queued);
    assert Passes(p, s, SideA, m);
    hide Healthy, Calm, Backlog, Est, Passes, Data, Enqueue, Legal, After, PeakOf;
    PushReaches(p, s, m, Items);
    EnqueueData(p, s.a, m);
    Distribute(p.header, charged + queued);
  }

  lemma Distribute(header: nat, n: nat)
    ensures header * (n + 1) == header * n + header
  {
  }

  // ---------------------------------------------------------------------------
  // Charging it

  lemma {:induction false} CalmPlace(p: Pars, q: seq<Message>, k: nat)
    requires forall i :: 0 <= i < |q| ==> q[i].tag != Goodbye
    requires Total(p, q, Pushed(Items, k)) > 0
    ensures Place(q, DataOf(k)).Some?
  {
    if !Meets(q[0], DataOf(k)) {
      CalmPlace(p, q[1..], k);
    }
  }

  lemma CalmReaches(p: Pars, w: End, k: nat)
    requires Calm(w) && Backlog(p, w, k, Items) > 0
    ensures CanReach(w, DataOf(k))
  {
    CalmPlace(p, Uncharged(w), k);
  }

  /** Then the sender thread can come to all that is queued. */
  lemma CalmCharges(p: Pars, w: End, k: nat, measure: Measure)
    requires Calm(w)
    ensures Chargeable(p, w, k, measure) == Backlog(p, w, k, measure)
  {
    AllAhead(Uncharged(w));
  }

  lemma {:induction false} AllAhead(q: seq<Message>)
    requires forall i :: 0 <= i < |q| ==> q[i].tag != Goodbye
    ensures AheadOfGoodbye(q) == q
  {
    if q != [] {
      AllAhead(q[1..]);
    }
  }

  lemma {:induction false} NoItemsNoVolume(p: Pars, q: seq<Message>, k: nat)
    requires Total(p, q, Pushed(Items, k)) == 0
    ensures Total(p, q, Pushed(Volume, k)) == 0
  {
    if q != [] {
      NoItemsNoVolume(p, q[1..], k);
    }
  }

  lemma StepCalm(p: Pars, x: End, y: End, op: Op)
    requires BothShapes(p, x, y) && Can(p, x, y, op) && SenderOp(op) && Calm(x)
    ensures Calm(Act(p, x, y, op))
  {
    hide HalfFull, Pack, Sound;
  }

  lemma {:induction false} RunCalm(p: Pars, s: Sys, run: seq<Event>)
    requires Healthy(p, s.a, s.b) && Legal(p, s, run) && SenderRun(run, SideA) && Calm(s.a)
    ensures Calm(After(p, s, run).a)
    decreases |run|
  {
    if run != [] {
      assert BothShapes(p, s.a, s.b) && run[0].side == SideA;
      hide Healthy, BothShapes, Calm, Can, Act, React;
      StepCalm(p, s.a, s.b, run[0].op);
      NextHealthy(p, s, run[0]);
      assert forall i :: 0 <= i < |run[1..]| ==> run[1..][i] == run[i + 1];
      RunCalm(p, Next(p, s, run[0]), run[1..]);
    }
  }

  lemma ChargeIt(p: Pars, s: Sys, charged: nat) returns (run: seq<Event>)
    requires Ready(p, s, charged, 1)
    ensures Legal(p, s, run) && Ready(p, After(p, s, run), charged + 1, 0)
    ensures PeakOf(p, s, run, SideA, 0, Items) <= 1
  {
    CalmReaches(p, s.a, 0);
    run := ChargeOne(p, s, SideA, 0);
    hide Healthy, Total, CanReach, Legal, After, PeakOf;
    SenderRunCommits(p, s, run, SideA, 0, Items);
    SenderRunCommits(p, s, run, SideA, 0, Volume);
    RunCalm(p, s, run);
    NoItemsNoVolume(p, Uncharged(After(p, s, run).a), 0);
  }

  // ---------------------------------------------------------------------------
  // Up to the limit and beyond

  lemma Times(header: nat, n: nat, max: nat)
    requires n <= max
    ensures header * n <= header * max
  {
  }

  lemma {:induction false} Fill(p: Pars, n: nat) returns (run: seq<Event>)
    requires p.Valid() && n <= p.maxItems && p.header * p.maxItems <= p.maxBytes
    ensures Legal(p, Start, run) && Ready(p, After(p, Start, run), n, 0)
    ensures PeakOf(p, Start, run, SideA, 0, Items) <= 1
  {
    hide Ready, Enabled, Next;
    if n == 0 {
      Opened(p);
      run := OpeningOps();
    } else {
      var first := Fill(p, n - 1);
      var s := After(p, Start, first);
      Times(p.header, n - 1, p.maxItems);
      PushOne(p, s, n - 1, 0);
      var push := PushOps(n - 1);
      var rest := ChargeIt(p, After(p, s, push), n - 1);
      PeakAppend(p, s, push, rest, SideA, 0, Items);
      RunAppend(p, s, push, rest);
      PeakAppend(p, Start, first, push + rest, SideA, 0, Items);
      RunAppend(p, Start, first, push + rest);
      run := first + (push + rest);
    }
  }

  /** Whatever the limit of items, if the limit of bytes allows that many messages
      without payload: a run in which the extra one is reached. */
  lemma OverrunByOneMore(p: Pars) returns (run: seq<Event>)
    requires p.Valid() && p.header * p.maxItems <= p.maxBytes
    ensures Legal(p, Start, run) && !After(p, Start, run).a.endRun
    ensures Committed(p, After(p, Start, run).a, 0, Items) == p.maxItems + PeakOf(p, Start, run, SideA, 0, Items) + 1
  {
    var full := FillOver(p);
    var t, m := After(p, Start, full), Datum(p.maxItems + 1);
    CalmCharges(p, t.a, 0, Items);
    assert Passes(p, t, SideA, m);
    hide Legal, After, PeakOf, Healthy, Calm, Passes, Est, Chargeable, Backlog, Data;
    var mid := OverrunAhead(p, full, SideA, m, Items);
    run := full + PushAround(SideA, m, mid);
    EndRunKept(p, t, m, mid);
    RunAppend(p, Start, full, PushAround(SideA, m, mid));
    BoundedOverrunItems(p, run, SideA, 0);
  }

  /** The estimate is at the limit and one message is queued. */
  lemma FillOver(p: Pars) returns (run: seq<Event>)
    requires p.Valid() && p.header * p.maxItems <= p.maxBytes
    ensures Legal(p, Start, run) && Ready(p, After(p, Start, run), p.maxItems, 1)
    ensures PeakOf(p, Start, run, SideA, 0, Items) == 1
  {
    hide Ready, Enabled, Next, Backlog;
    var full := Fill(p, p.maxItems);
    var push := PushOps(p.maxItems);
    PushOne(p, After(p, Start, full), p.maxItems, 0);
    PeakAppend(p, Start, full, push, SideA, 0, Items);
    RunAppend(p, Start, full, push);
    run := full + push;
  }

  lemma EndRunKept(p: Pars, s: Sys, m: Message, mid: seq<Event>)
    requires Healthy(p, s.a, s.b) && Passes(p, s, SideA, m)
    requires Legal(p, Next(p, s, Event(SideA, DoOffer(m))), mid) && SenderRun(mid, SideA)
    ensures Legal(p, s, PushAround(SideA, m, mid))
    ensures After(p, s, PushAround(SideA, m, mid)).a.endRun == s.a.endRun
  {
    var s1 := Next(p, s, Event(SideA, DoOffer(m)));
    OfferPasses(p, s, SideA, m);
    OfferHealthy(p, s, SideA, m);
    SenderRunCommits(p, s1, mid, SideA, m.stream, Items);
    EnqueueAdds(p, After(p, s1, mid), SideA, m, Items);
    PushPeak(p, s, SideA, m, mid, m.stream, Items);
  }

  // ---------------------------------------------------------------------------
  // Every item counts a header

  predicate HeavyAudit(p: Pars, a: Audit) {
    p.header * a.items <= a.bytes
  }

  predicate HeavyMessage(p: Pars, m: Message) {
    m.tag == UsedData ==> HeavyAudit(p, m.audit)
  }

  /** Every audit on record at an end has a header's bytes for each of its items. */
  ghost predicate Heavy(p: Pars, w: End) {
    && (w.hand.Pulled? || w.hand.Charged? ==> HeavyMessage(p, w.hand.m))
    && (forall i :: 0 <= i < |w.sendQ| ==> HeavyMessage(p, w.sendQ[i]))
    && (forall i :: 0 <= i < |w.wire| ==> HeavyMessage(p, w.wire[i]))
    && (w.reader.Got? ==> HeavyMessage(p, w.reader.m))
    && (w.reader.Replying? ==> HeavyAudit(p, w.reader.audit))
    && (forall k :: k in w.deliverers ==> HeavyAudit(p, w.deliverers[k].audit))
  }

  lemma QueueHeavy(p: Pars, w: End, m: Message)
    requires Heavy(p, w) && HeavyMessage(p, m)
    ensures Heavy(p, Queue(w, m))
  {
    hide HeavyAudit;
  }

  lemma EmptyIsHeavy(p: Pars)
    ensures HeavyAudit(p, EmptyAudit)
  {
  }

  lemma PrepareHeavy(p: Pars, w: End)
    requires Heavy(p, w) && w.hand.Pulled?
    ensures Heavy(p, Prepare(p, w))
  {
    hide HeavyAudit, HalfFull;
  }

  lemma SendHeavy(p: Pars, w: End)
    requires Heavy(p, w) && w.hand.Charged?
    ensures Heavy(p, Send(p, w))
  {
    hide HeavyAudit;
  }

  lemma DispatchHeavy(p: Pars, w: End)
    requires Heavy(p, w) && w.reader.Got?
    ensures Heavy(p, Dispatch(p, w))
  {
    hide HeavyAudit, Unpack;
    EmptyIsHeavy(p);
  }

  lemma DelivererHeavy(p: Pars, w: End, r: End, op: Op)
    requires Heavy(p, w) && Can(p, w, r, op) && DelivererOp(op)
    ensures Heavy(p, Act(p, w, r, op))
  {
    if op.DoTake? {
      var a := w.deliverers[op.k].audit;
      Distribute(p.header, a.items);
    } else {
      EmptyIsHeavy(p);
      hide HeavyAudit;
    }
  }

  lemma ReactHeavy(p: Pars, w: End, r: End, op: Op)
    requires Heavy(p, w) && Heavy(p, r)
    ensures Heavy(p, React(r, op))
    ensures op == DoReceive && Can(p, w, r, op) ==> Heavy(p, Act(p, w, r, op))
  {
    hide HeavyMessage, HeavyAudit, Sound;
  }

  lemma ActHeavy(p: Pars, w: End, r: End, op: Op)
    requires BothShapes(p, w, r) && Heavy(p, w) && Heavy(p, r) && Can(p, w, r, op)
    ensures Heavy(p, Act(p, w, r, op)) && Heavy(p, React(r, op))
  {
    ReactHeavy(p, w, r, op);
    hide HeavyAudit, Prepare, Send, Dispatch, Sound, React;
    match op
    case DoOffer(m) => QueueHeavy(p, w, Control(QueryBuffer, m.stream));
    case DoEnqueue => QueueHeavy(p, w, w.offering.value);
    case DoPut(m) => QueueHeavy(p, w, m);
    case DoEndRun =>
    case DoTimeout => QueueHeavy(p, w, Control(KeepAlive, 0));
    case DoPull =>
    case DoPrepare => PrepareHeavy(p, w);
    case DoSend => SendHeavy(p, w);
    case DoReceive =>
    case DoDispatch => DispatchHeavy(p, w);
    case DoReply => QueueHeavy(p, w, Control(UsedData, w.reader.stream, w.reader.audit));
    case _ => DelivererHeavy(p, w, r, op);
  }

  lemma NextHeavy(p: Pars, s: Sys, e: Event)
    requires Healthy(p, s.a, s.b) && Heavy(p, s.a) && Heavy(p, s.b) && Enabled(p, s, e)
    ensures Heavy(p, Next(p, s, e).a) && Heavy(p, Next(p, s, e).b)
  {
    assert BothShapes(p, s.a, s.b) && BothShapes(p, s.b, s.a);
    hide BothShapes, Heavy, Act, Can, React;
    if e.side == SideA {
      ActHeavy(p, s.a, s.b, e.op);
    } else {
      ActHeavy(p, s.b, s.a, e.op);
    }
  }

  lemma {:induction false} PushedHeavy(p: Pars, q: seq<Message>, k: nat)
    ensures p.header * Total(p, q, Pushed(Items, k)) <= Total(p, q, Pushed(Volume, k))
  {
    if q != [] {
      PushedHeavy(p, q[1..], k);
      Distribute(p.header, Total(p, q[1..], Pushed(Items, k)));
    }
  }

  lemma {:induction false} ReturnedHeavy(p: Pars, q: seq<Message>, k: nat)
    requires forall i :: 0 <= i < |q| ==> HeavyMessage(p, q[i])
    ensures p.header * Total(p, q, Returned(Items, k)) <= Total(p, q, Returned(Volume, k))
  {
    if q != [] {
      ReturnedHeavy(p, q[1..], k);
      assert HeavyMessage(p, q[0]);
      assert p.header * (Weigh(p, q[0], Returned(Items, k)) + Total(p, q[1..], Returned(Items, k)))
          == p.header * Weigh(p, q[0], Returned(Items, k)) + p.header * Total(p, q[1..], Returned(Items, k));
    }
  }

  lemma SumHeavy(header: nat, a: nat, b: nat, c: nat, d: nat, e: nat, f: nat)
    ensures header * (a + b + c + d + e + f)
         == header * a + header * b + header * c + header * d + header * e + header * f
  {
  }

  /** So has every estimate. */
  lemma EstimateHeavy(p: Pars, w: End, r: End, k: nat)
    requires Healthy(p, w, r) && Heavy(p, w) && Heavy(p, r)
    ensures p.header * Est(w, k).items <= Est(w, k).bytes
  {
    assert BothBooks(p, w, r, k);
    var l := View(w, r, k);
    assert Conserved(p, l, k, Items) && Conserved(p, l, k, Volume);
    hide *;
    ViewHeavy(p, w, r, k);
    BooksHeavy(p, l, k);
    assert l.est == Est(w, k);
  }

  lemma ViewHeavy(p: Pars, w: End, r: End, k: nat)
    requires Heavy(p, w) && Heavy(p, r)
    ensures
      var l := View(w, r, k);
      && l.est == Est(w, k)
      && (forall i :: 0 <= i < |l.back| ==> HeavyMessage(p, l.back[i]))
      && HeavyAudit(p, l.d.audit) && (l.pending.Some? ==> HeavyAudit(p, l.pending.value))
  {
    EmptyIsHeavy(p);
    hide HeavyMessage, HeavyAudit;
  }

  lemma BooksHeavy(p: Pars, l: Ledger, k: nat)
    requires Conserved(p, l, k, Items) && Conserved(p, l, k, Volume)
    requires forall i :: 0 <= i < |l.back| ==> HeavyMessage(p, l.back[i])
    requires HeavyAudit(p, l.d.audit) && (l.pending.Some? ==> HeavyAudit(p, l.pending.value))
    ensures p.header * l.est.items <= l.est.bytes
  {
    hide Total, HeavyMessage;
    PushedHeavy(p, l.charged, k);
    PushedHeavy(p, l.d.queue, k);
    PushedHeavy(p, l.d.dropped, k);
    ReturnedHeavy(p, l.back, k);
    SumHeavy(p.header, Total(p, l.charged, Pushed(Items, k)), Total(p, l.d.queue, Pushed(Items, k)),
             Total(p, l.d.dropped, Pushed(Items, k)), l.d.audit.items, Taken(l.pending, Items),
             Total(p, l.back, Returned(Items, k)));
    assert l.est.Of(Items) == l.est.items && l.est.Of(Volume) == l.est.bytes;
  }

  // ---------------------------------------------------------------------------
  // Where the limit of bytes comes first

  /** A push under way has one item to spare. */
  predicate WithinItems(p: Pars, w: End, k: nat, peak: nat) {
    && Offered(p, w, k, Items) <= 1
    && (w.endRun || Committed(p, w, k, Items) + (if Offering(w, k) then 1 else 0) <= p.maxItems + peak)
  }

  lemma FewItems(header: nat, items: nat, maxItems: nat, bytes: int, maxBytes: nat)
    requires header * items <= bytes <= maxBytes < header * maxItems
    ensures items < maxItems
  {
    if maxItems <= items {
      Times(header, maxItems, items);
    }
  }

  lemma StepWithinItems(p: Pars, s: Sys, e: Event, side: Side, k: nat, peak: nat)
    requires Enabled(p, s, e) && WithinItems(p, Me(s, side), k, peak)
    requires Healthy(p, s.a, s.b) && Heavy(p, s.a) && Heavy(p, s.b) && p.maxBytes < p.header * p.maxItems
    requires Backlog(p, Me(s, side), k, Items) <= peak
    ensures WithinItems(p, Me(Next(p, s, e), side), k, peak)
  {
    var w, r := Me(s, side), Peer(s, side);
    HealthyFlips(p, s.a, s.b);
    hide Act, Can, React, Total, Healthy, Heavy, HeavyAudit;
    EstimateHeavy(p, w, r, k);
    NoNegatives(p, w, r, k);
    if e.side == side {
      ActCommits(p, w, r, e.op, k, Items);
      ActCommits(p, w, r, e.op, k, Volume);
      if e.op.DoOffer? && Est(w, k).bytes <= p.maxBytes {
        FewItems(p.header, Est(w, k).items, p.maxItems, Est(w, k).bytes, p.maxBytes);
      }
    } else {
      PeerCommits(p, w, e.op, k, Items);
    }
  }

  lemma NoNegatives(p: Pars, w: End, r: End, k: nat)
    requires Healthy(p, w, r)
    ensures Est(w, k).items >= 0
  {
    assert BothBooks(p, w, r, k);
    var l := View(w, r, k);
    assert l.est.Of(Items) == l.est.items;
  }

  lemma {:induction false} RunWithinItems(p: Pars, s: Sys, run: seq<Event>, side: Side, k: nat, peak: nat)
    requires Legal(p, s, run) && WithinItems(p, Me(s, side), k, peak)
    requires Healthy(p, s.a, s.b) && Heavy(p, s.a) && Heavy(p, s.b) && p.maxBytes < p.header * p.maxItems
    requires PeakOf(p, s, run, side, k, Items) <= peak
    ensures WithinItems(p, Me(After(p, s, run), side), k, peak)
    decreases |run|
  {
    hide Enabled, Next, WithinItems, Backlog, Healthy, Heavy;
    if run != [] {
      StepWithinItems(p, s, run[0], side, k, peak);
      NextHealthy(p, s, run[0]);
      NextHeavy(p, s, run[0]);
      RunWithinItems(p, Next(p, s, run[0]), run[1..], side, k, peak);
    }
  }

  lemma BytesComeFirst(p: Pars, run: seq<Event>, side: Side, k: nat)
    requires p.Valid() && p.maxBytes < p.header * p.maxItems
    requires Legal(p, Start, run) && !Me(After(p, Start, run), side).endRun
    ensures WithinSharper(p, run, side, k, Items)
  {
    assert Uncharged(FreshEnd) == [] && Heavy(p, FreshEnd);
    hide Enabled, Next, Healthy, Heavy;
    StartHealthy(p);
    RunWithinItems(p, Start, run, side, k, PeakOf(p, Start, run, side, k, Items));
  }

  /** The sharper bound: the limit and the deepest backlog. */
  predicate WithinSharper(p: Pars, run: seq<Event>, side: Side, k: nat, measure: Measure)
    requires Legal(p, Start, run)
  {
    Committed(p, Me(After(p, Start, run), side), k, measure) <=
      Limit(p, measure) + PeakOf(p, Start, run, side, k, measure)
  }

  /** In items it holds of every run, before the end of the run phase, if and only if the limit
      of bytes is too small for as many headers as the limit of items. */
  lemma SharperBoundExactly(p: Pars)
    requires p.Valid()
    ensures (forall run: seq<Event>, side: Side, k: nat ::
               Legal(p, Start, run) && !Me(After(p, Start, run), side).endRun ==> WithinSharper(p, run, side, k, Items))
       <==> p.maxBytes < p.header * p.maxItems
  {
    hide Legal, After, WithinSharper;
    if p.maxBytes < p.header * p.maxItems {
      forall run: seq<Event>, side: Side, k: nat | Legal(p, Start, run) && !Me(After(p, Start, run), side).endRun
        ensures WithinSharper(p, run, side, k, Items)
      {
        BytesComeFirst(p, run, side, k);
      }
    } else {
      var run := SharperBoundFails(p);
    }
  }

  lemma SharperBoundFails(p: Pars) returns (run: seq<Event>)
    requires p.Valid() && p.header * p.maxItems <= p.maxBytes
    ensures Legal(p, Start, run) && !Me(After(p, Start, run), SideA).endRun && !WithinSharper(p, run, SideA, 0, Items)
  {
    hide Legal, After, PeakOf, Committed;
    run := OverrunByOneMore(p);
  }

  // ---------------------------------------------------------------------------
  // In bytes

  /** A payload that with its header is more than the limit of bytes. */
  function BigLength(p: Pars): nat {
    if p.header > p.maxBytes then 0 else p.maxBytes + 1 - p.header
  }

  function Big(p: Pars, order: nat): Message {
    Message(PushData, 0, order, BigLength(p), seq(BigLength(p), _ => 0), false, EmptyAudit)
  }

  /** In bytes there is no such limit: whatever the limits, two messages that are each more than
      PushDataMaxBytes break the sharper bound. */
  lemma SharperBoundFailsInBytes(p: Pars) returns (run: seq<Event>)
    requires p.Valid()
    ensures Legal(p, Start, run) && !After(p, Start, run).a.endRun && !WithinSharper(p, run, SideA, 0, Volume)
  {
    var first := OneBig(p);
    var t, m := After(p, Start, first), Big(p, 1);
    CalmCharges(p, t.a, 0, Volume);
    hide Legal, After, PeakOf, Healthy, Calm, Passes, Est, Chargeable, Backlog;
    var mid := OverrunAhead(p, first, SideA, m, Volume);
    run := first + PushAround(SideA, m, mid);
    EndRunKept(p, t, m, mid);
    RunAppend(p, Start, first, PushAround(SideA, m, mid));
  }

  /** The first of them is queued. */
  lemma OneBig(p: Pars) returns (run: seq<Event>)
    requires p.Valid()
    ensures Legal(p, Start, run)
    ensures
      var t, size := After(p, Start, run), p.header + BigLength(p);
      && Passes(p, t, SideA, Big(p, 1)) && Healthy(p, t.a, t.b) && Calm(t.a) && !t.a.endRun
      && Est(t.a, 0).bytes == 0 && Backlog(p, t.a, 0, Volume) == size
      && PeakOf(p, Start, run, SideA, 0, Volume) == size
  {
    hide Ready, Enabled, Next, Backlog, Passes, Est, Calm, Healthy;
    Opened(p);
    var push := PushBig(p, After(p, Start, OpeningOps()));
    PeakAppend(p, Start, OpeningOps(), push, SideA, 0, Volume);
    RunAppend(p, Start, OpeningOps(), push);
    run := OpeningOps() + push;
  }

  lemma PushBig(p: Pars, s: Sys) returns (push: seq<Event>)
    requires Ready(p, s, 0, 0)
    ensures Legal(p, s, push)
    ensures
      var t, size := After(p, s, push), p.header + BigLength(p);
      && Passes(p, t, SideA, Big(p, 1)) && Healthy(p, t.a, t.b) && Calm(t.a) && !t.a.endRun
      && Est(t.a, 0).bytes == 0 && Backlog(p, t.a, 0, Volume) == size
      && PeakOf(p, s, push, SideA, 0, Volume) == size
  {
    var m := Big(p, 0);
    var b := Enqueue(s.a.(offering := Some(m)));
    EnqueueData(p, s.a, m);
    BigPasses(p, s, 0);
    BigPasses(p, Sys(b, s.b), 1);
    hide Healthy, Calm, Backlog, Passes, Est, Enqueue, Legal, After, PeakOf, Big, Data;
    PushReaches(p, s, m, Volume);
    push := [Event(SideA, DoOffer(m)), Event(SideA, DoEnqueue)];
  }

  lemma BigPasses(p: Pars, s: Sys, order: nat)
    requires s.a.offering == None && |s.a.audits| > 0 && 0 in s.b.deliverers
    requires |Data(p, s.a.log.accepted, 0)| == order && Est(s.a, 0).items == Est(s.a, 0).bytes == 0
    ensures Passes(p, s, SideA, Big(p, order))
  {
  }
}
