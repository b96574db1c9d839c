/**
 What holds after every run of a channel: conservation of the audit, accounting
 of queries, in-order delivery, and the absence of internal errors.
 */
module ChannelRuns {
  import opened Messages
  import opened ChannelModel
  import opened Ledger
  import opened ChannelInvariant

  ghost predicate Healthy(p: Pars, x: End, y: End) {
    && BothShapes(p, x, y)
    && x.fault == None && y.fault == None
    && forall k: nat :: BothBooks(p, x, y, k)
  }

  lemma HealthyFlips(p: Pars, x: End, y: End)
    requires Healthy(p, x, y)
    ensures Healthy(p, y, x)
  {
    hide Books, Shape;
    forall k: nat ensures BothBooks(p, y, x, k) {
      assert BothBooks(p, x, y, k);
    }
  }

  lemma StartHealthy(p: Pars)
    requires p.Valid()
    ensures Healthy(p, Start.a, Start.b)
  {
    forall k: nat ensures BothBooks(p, Start.a, Start.b, k) {
      assert Pipe(FreshEnd, FreshEnd) == [] && ChargedPipe(FreshEnd, FreshEnd) == [];
    }
  }

  lemma ActShape(p: Pars, x: End, y: End, op: Op)
    requires Healthy(p, x, y) && Can(p, x, y, op)
    ensures BothShapes(p, Act(p, x, y, op), React(y, op)) && Act(p, x, y, op).fault == None && React(y, op).fault == None
  {
    hide BothShapes, BothBooks, Prepare, Dispatch;
    match op
    case DoOffer(m) => OfferShape(p, x, y, m);
    case DoEnqueue => EnqueueShape(p, x, y);
    case DoPut(m) => PutShape(p, x, y, m);
    case DoEndRun => EndRunShape(p, x, y);
    case DoTimeout => PutShape(p, x, y, Control(KeepAlive, 0));
    case DoPull => PullShape(p, x, y);
    case DoPrepare => PrepareShape(p, x, y);
    case DoSend => SendShape(p, x, y);
    case DoReceive => ReceiveShape(p, x, y);
    case DoDispatch =>
      assert BothBooks(p, x, y, x.reader.m.stream);
      DispatchShape(p, x, y);
    case DoReply => ReplyShape(p, x, y);
    case _ =>
      assert BothBooks(p, x, y, op.k);
      DelivererBooks(p, x, y, op, op.k);
      SetDelivererShape(p, x, y, op.k, Act(p, x, y, op).deliverers[op.k]);
      DelivererActs(p, x, y, op);
  }

  lemma DelivererActs(p: Pars, x: End, y: End, op: Op)
    requires DelivererOp(op) && Can(p, x, y, op) && Act(p, x, y, op).fault == x.fault
    ensures op.k in Act(p, x, y, op).deliverers
    ensures Act(p, x, y, op) == SetDeliverer(x, op.k, Act(p, x, y, op).deliverers[op.k])
  {
  }

  lemma PutShape(p: Pars, x: End, y: End, m: Message)
    requires BothShapes(p, x, y) && Plainly(m.tag) && !m.deflated && Sound(p, m)
    ensures BothShapes(p, Queue(x, m), y)
  {
    QueueShape(p, x, y, m);
  }

  lemma EndRunShape(p: Pars, x: End, y: End)
    requires BothShapes(p, x, y)
    ensures BothShapes(p, x.(endRun := true), y)
  {
  }

  lemma EndRunBooks(p: Pars, x: End, y: End, k: nat)
    requires BothBooks(p, x, y, k)
    ensures BothBooks(p, x.(endRun := true), y, k)
  {
    hide Books;
    assert View(x.(endRun := true), y, k) == View(x, y, k);
    assert View(y, x.(endRun := true), k) == View(y, x, k);
  }

  lemma EnqueueBooksShaped(p: Pars, x: End, y: End, k: nat)
    requires BothShapes(p, x, y) && BothBooks(p, x, y, k) && x.offering.Some?
    ensures BothBooks(p, Enqueue(x), y, k)
  {
    hide Books;
    EnqueueBooks(p, x, y, k);
  }

  lemma SendBooksShaped(p: Pars, x: End, y: End, k: nat)
    requires BothShapes(p, x, y) && BothBooks(p, x, y, k) && x.hand.Charged?
    ensures BothBooks(p, Send(p, x), y, k)
  {
    hide Books;
    SendBooks(p, x, y, k);
  }

  lemma ActBooks(p: Pars, x: End, y: End, op: Op, k: nat)
    requires Healthy(p, x, y) && Can(p, x, y, op)
    ensures BothBooks(p, Act(p, x, y, op), React(y, op), k)
  {
    hide BothShapes, BothBooks, Prepare, Dispatch;
    assert BothBooks(p, x, y, k);
    match op
    case DoOffer(m) => OfferBooks(p, x, y, m, k);
    case DoEnqueue => EnqueueBooksShaped(p, x, y, k);
    case DoPut(m) => QueueIgnored(p, x, y, m, k);
    case DoEndRun => EndRunBooks(p, x, y, k);
    case DoTimeout => QueueIgnored(p, x, y, Control(KeepAlive, 0), k);
    case DoPull => PullBooks(p, x, y, k);
    case DoPrepare => PrepareBooks(p, x, y, k);
    case DoSend => SendBooksShaped(p, x, y, k);
    case DoReceive => ReceiveBooks(p, x, y, k);
    case DoDispatch =>
      assert BothBooks(p, x, y, x.reader.m.stream);
      DispatchBooks(p, x, y, k);
    case DoReply => ReplyBooks(p, x, y, k);
    case _ =>
      assert BothBooks(p, x, y, op.k);
      DelivererBooks(p, x, y, op, k);
  }

  /** One step of either end. */
  lemma NextHealthy(p: Pars, s: Sys, e: Event)
    requires Healthy(p, s.a, s.b) && Enabled(p, s, e)
    ensures Healthy(p, Next(p, s, e).a, Next(p, s, e).b)
  {
    hide BothShapes, BothBooks, Act, Can, React;
    if e.side == SideA {
      ActShape(p, s.a, s.b, e.op);
      forall k: nat ensures BothBooks(p, Act(p, s.a, s.b, e.op), React(s.b, e.op), k) {
        ActBooks(p, s.a, s.b, e.op, k);
      }
    } else {
      HealthyFlips(p, s.a, s.b);
      ActShape(p, s.b, s.a, e.op);
      forall k: nat ensures BothBooks(p, Act(p, s.b, s.a, e.op), React(s.a, e.op), k) {
        ActBooks(p, s.b, s.a, e.op, k);
      }
      HealthyFlips(p, Act(p, s.b, s.a, e.op), React(s.a, e.op));
    }
  }

  lemma {:induction false} RunHealthy(p: Pars, s: Sys, run: seq<Event>)
    requires Healthy(p, s.a, s.b) && Legal(p, s, run)
    ensures Healthy(p, After(p, s, run).a, After(p, s, run).b)
    decreases |run|
  {
    hide Healthy, Enabled, Next;
    if run != [] {
      NextHealthy(p, s, run[0]);
      RunHealthy(p, Next(p, s, run[0]), run[1..]);
    }
  }

  lemma HealthyAfter(p: Pars, run: seq<Event>, side: Side)
    requires p.Valid() && Legal(p, Start, run)
    ensures Healthy(p, Me(After(p, Start, run), side), Peer(After(p, Start, run), side))
  {
    hide Healthy, Enabled, Next;
    StartHealthy(p);
    RunHealthy(p, Start, run);
    HealthyFlips(p, After(p, Start, run).a, After(p, Start, run).b);
  }
}
