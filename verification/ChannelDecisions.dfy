/**
 What the threads of a channel decide, with the limits written out: when a push
 is refused, when the sender thread asks and what it writes, when a query is
 answered, when an internal error is raised, and when a handler is left alone.
 */
module ChannelDecisions {
  import opened Messages
  import opened ChannelModel
  import opened Ledger
  import opened ChannelInvariant
  import opened ChannelRuns
  import opened ChannelTheorems
  import opened Progress
  import opened Shutdown

  // ---------------------------------------------------------------------------
  // The client's push

  /** A push is refused if and only if the estimate is past a limit in the run phase; a
      refusal queues one query of the stream and counts it, and an acceptance changes
      nothing before the message itself is queued. */
  lemma RefusedExactly(p: Pars, s: Sys, side: Side, m: Message)
    requires Can(p, Me(s, side), Peer(s, side), DoOffer(m))
    ensures Enabled(p, s, Event(side, DoOffer(m)))
    ensures
      var w, w' := Me(s, side), Me(Next(p, s, Event(side, DoOffer(m))), side);
      var est := Est(w, m.stream);
      if (p.maxItems < est.items || p.maxBytes < est.bytes) && !w.endRun then
        && w'.offering == None && w'.sendQ == w.sendQ + [Control(QueryBuffer, m.stream)]
        && Est(w', m.stream) == Estimate(est.items, est.bytes, est.queries + 1)
        && (forall j: nat :: j != m.stream ==> Est(w', j) == Est(w, j))
      else w' == w.(offering := Some(m))
  {
  }

  // ---------------------------------------------------------------------------
  // The sender thread's charge

  predicate HalfWay(p: Pars, items: int, bytes: int) {
    p.maxItems <= items + items || p.maxBytes <= bytes + bytes
  }

  /** A PUSHDATA of stream k is charged to k alone, as one item and its uncompressed
      size; and a query of k is queued, and counted, if and only if the estimate has
      come half way to a limit and no query of k is outstanding. */
  lemma AsksExactly(p: Pars, run: seq<Event>, side: Side)
    requires p.Valid() && Legal(p, Start, run)
    requires
      var w := Me(After(p, Start, run), side);
      w.hand.Pulled? && w.hand.m.tag == PushData
    ensures Enabled(p, After(p, Start, run), Event(side, DoPrepare))
    ensures
      var s := After(p, Start, run);
      var w, w' := Me(s, side), Me(Next(p, s, Event(side, DoPrepare)), side);
      var m, k := w.hand.m, w.hand.m.stream;
      var items, bytes := Est(w, k).items + 1, Est(w, k).bytes + p.header + m.length;
      var asks := HalfWay(p, items, bytes) && Est(w, k).queries == 0;
      && Est(w', k) == Estimate(items, bytes, Est(w, k).queries + if asks then 1 else 0)
      && (forall j: nat :: j != k ==> Est(w', j) == Est(w, j))
      && w'.sendQ == w.sendQ + (if asks then [Control(QueryBuffer, k)] else [])
      && w'.hand == Charged(m)
  {
    HandIsKnown(p, run, side);
    hide Legal, After, Prepare, Est, HalfWay;
    ChargesExactly(p, Me(After(p, Start, run), side));
  }

  lemma HandIsKnown(p: Pars, run: seq<Event>, side: Side)
    requires p.Valid() && Legal(p, Start, run)
    ensures
      var w := Me(After(p, Start, run), side);
      w.hand.Pulled? && w.hand.m.tag == PushData ==> w.hand.m.stream < |w.audits|
  {
    hide Legal, After;
    HealthyAfter(p, run, side);
  }

  lemma ChargesExactly(p: Pars, w: End)
    requires w.hand.Pulled? && w.hand.m.tag == PushData && w.hand.m.stream < |w.audits|
    ensures
      var m, k, w' := w.hand.m, w.hand.m.stream, Prepare(p, w);
      var items, bytes := Est(w, k).items + 1, Est(w, k).bytes + p.header + m.length;
      var asks := HalfWay(p, items, bytes) && Est(w, k).queries == 0;
      && Est(w', k) == Estimate(items, bytes, Est(w, k).queries + if asks then 1 else 0)
      && (forall j: nat :: j != k ==> Est(w', j) == Est(w, j))
      && w'.sendQ == w.sendQ + (if asks then [Control(QueryBuffer, k)] else [])
      && w'.hand == Charged(m)
  {
    assert w.sendQ + [] == w.sendQ;
  }

  /** So whenever a charge has brought a stream half way to a limit, a query of it is
      queued or on its way, is being answered, has its answer on its way back, or was
      left unanswered. */
  lemma HalfWayIsAsked(p: Pars, run: seq<Event>, side: Side)
    requires p.Valid() && Legal(p, Start, run)
    requires
      var w := Me(After(p, Start, run), side);
      w.hand.Pulled? && w.hand.m.tag == PushData
    ensures Enabled(p, After(p, Start, run), Event(side, DoPrepare))
    ensures
      var s, k := After(p, Start, run), Me(After(p, Start, run), side).hand.m.stream;
      var s' := Next(p, s, Event(side, DoPrepare));
      var w, r := Me(s', side), Peer(s', side);
      HalfWay(p, Est(w, k).items, Est(w, k).bytes) ==>
        Total(p, Pipe(w, r), Queries(k)) + (if r.reader.Replying? && r.reader.stream == k then 1 else 0)
        + Total(p, Pipe(r, w), Replies(k)) + Total(p, r.log.unanswered, Queries(k)) > 0
  {
    var s, e := After(p, Start, run), Event(side, DoPrepare);
    var k := Me(s, side).hand.m.stream;
    HealthyAfter(p, run, side);
    CountedWhenHalfWay(p, Me(s, side), Peer(s, side));
    SenderCan(p, Me(s, side), Peer(s, side));
    hide *;
    SideStep(p, s, side, DoPrepare);
    ReachedOneOn(p, run, e, side, k);
    BooksCountQueries(p, Me(Next(p, s, e), side), Peer(Next(p, s, e), side), k);
  }

  lemma ReachedOneOn(p: Pars, run: seq<Event>, e: Event, side: Side, k: nat)
    requires p.Valid() && Legal(p, Start, run) && Enabled(p, After(p, Start, run), e)
    ensures
      var t := Next(p, After(p, Start, run), e);
      BothBooks(p, Me(t, side), Peer(t, side), k)
  {
    hide Enabled, Next, BothBooks;
    assert [e][1..] == [];
    RunAppend(p, Start, run, [e]);
    Reached(p, run + [e], side, k);
  }

  lemma CountedWhenHalfWay(p: Pars, w: End, r: End)
    requires Healthy(p, w, r) && w.hand.Pulled? && w.hand.m.tag == PushData
    ensures
      var k, w' := w.hand.m.stream, Prepare(p, w);
      HalfWay(p, Est(w', k).items, Est(w', k).bytes) ==> Est(w', k).queries > 0
  {
    var k := w.hand.m.stream;
    assert BothBooks(p, w, r, k) && k < |w.audits|;
    hide Healthy, BothBooks, Prepare, Est, Total, HalfWay;
    BooksCountQueries(p, w, r, k);
    ChargesExactly(p, w);
  }

  lemma BooksCountQueries(p: Pars, w: End, r: End, k: nat)
    requires BothBooks(p, w, r, k)
    ensures Est(w, k).queries ==
              Total(p, Pipe(w, r), Queries(k)) + (if r.reader.Replying? && r.reader.stream == k then 1 else 0)
              + Total(p, Pipe(r, w), Replies(k)) + Total(p, r.log.unanswered, Queries(k))
  {
    assert QueriesAccounted(p, View(w, r, k), k);
  }

  // ---------------------------------------------------------------------------
  // The streams that the sender thread knows

  /** The sender thread has handled an OUTPUTFOUND of stream k or of a later one. */
  ghost predicate Announced(w: End, k: nat) {
    exists i :: 0 <= i < |Handled(w)| && Handled(w)[i].tag == OutputFound && k <= Handled(w)[i].stream
  }

  /** What the thread has handled, together with what it is about to send. */
  function Handled(w: End): seq<Message> {
    w.log.handled + ChargedHand(w.hand)
  }

  ghost predicate KnowsAnnounced(w: End) {
    forall k: nat :: k < |w.audits| <==> Announced(w, k)
  }

  lemma HandlingOne(w: End, w': End, m: Message)
    requires KnowsAnnounced(w) && Handled(w') == Handled(w) + [m]
    requires |w'.audits| == if m.tag == OutputFound && |w.audits| <= m.stream then m.stream + 1 else |w.audits|
    ensures KnowsAnnounced(w')
  {
    hide Handled;
    var n := |Handled(w)|;
    assert Handled(w')[n] == m && forall i :: 0 <= i < n ==> Handled(w')[i] == Handled(w)[i];
    forall k: nat ensures Announced(w', k) <==> Announced(w, k) || (m.tag == OutputFound && k <= m.stream) {
      if Announced(w, k) {
        var i :| 0 <= i < n && Handled(w)[i].tag == OutputFound && k <= Handled(w)[i].stream;
        assert Handled(w')[i].tag == OutputFound;
      }
      if m.tag == OutputFound && k <= m.stream {
        assert Handled(w')[n].tag == OutputFound;
      }
    }
  }

  lemma PrepareKnows(p: Pars, w: End)
    requires KnowsAnnounced(w) && w.hand.Pulled?
    ensures KnowsAnnounced(Prepare(p, w))
  {
    var w', m := Prepare(p, w), w.hand.m;
    hide HalfFull, Charge, KnowsAnnounced;
    if w'.hand == Exited {
      assert Handled(w') == Handled(w);
      SameKnown(w, w');
    } else {
      assert Handled(w') == Handled(w) + [m];
      HandlingOne(w, w', m);
    }
  }

  lemma SameKnown(w: End, w': End)
    requires KnowsAnnounced(w) && |w'.audits| == |w.audits| && Handled(w') == Handled(w)
    ensures KnowsAnnounced(w')
  {
    hide Handled;
    assert forall k: nat :: Announced(w', k) <==> Announced(w, k);
  }

  lemma ActHandles(p: Pars, w: End, r: End, op: Op)
    requires Can(p, w, r, op) && op != DoPrepare
    ensures |Act(p, w, r, op).audits| == |w.audits| && Handled(Act(p, w, r, op)) == Handled(w)
  {
    hide Sound, Congested, Pack, DeliverPull, DeliverHandle, DeliverFlush, Prepare, Dispatch;
    if op == DoDispatch {
      DispatchHandles(p, w);
    }
  }

  lemma DispatchHandles(p: Pars, w: End)
    requires w.reader.Got?
    ensures |Dispatch(p, w).audits| == |w.audits| && Handled(Dispatch(p, w)) == Handled(w)
  {
    hide Credit, Answer, Route;
    DispatchKeepsRecords(p, w);
    CasesKeepCount(p, w, w.reader.m);
  }

  lemma CasesKeepCount(p: Pars, w: End, m: Message)
    ensures |Credit(w, m).audits| == |Answer(w, m).audits| == |Route(p, w, m).audits| == |w.audits|
  {
    hide DeliverPush, Unpack;
  }

  lemma NextKnows(p: Pars, s: Sys, e: Event, side: Side)
    requires Enabled(p, s, e) && KnowsAnnounced(Me(s, side))
    ensures KnowsAnnounced(Me(Next(p, s, e), side))
  {
    var w, r := Me(s, side), Peer(s, side);
    hide Act, Can, KnowsAnnounced, Prepare;
    if e.side != side {
      SameKnown(w, React(w, e.op));
    } else if e.op == DoPrepare {
      PrepareIsAct(p, w, r);
      PrepareKnows(p, w);
    } else {
      ActHandles(p, w, r, e.op);
      SameKnown(w, Act(p, w, r, e.op));
    }
  }

  lemma PrepareIsAct(p: Pars, w: End, r: End)
    requires Can(p, w, r, DoPrepare)
    ensures w.hand.Pulled? && Act(p, w, r, DoPrepare) == Prepare(p, w)
  {
    hide Prepare;
  }

  lemma {:induction false} RunKnows(p: Pars, s: Sys, run: seq<Event>, side: Side)
    requires Legal(p, s, run) && KnowsAnnounced(Me(s, side))
    ensures KnowsAnnounced(Me(After(p, s, run), side))
    decreases |run|
  {
    hide Enabled, Next, KnowsAnnounced;
    if run != [] {
      NextKnows(p, s, run[0], side);
      RunKnows(p, Next(p, s, run[0]), run[1..], side);
    }
  }

  /** In every run the streams with an estimate are those up to the last one announced; a
      PUSHDATA of any other raises the error. */
  lemma KnownExactly(p: Pars, run: seq<Event>, side: Side, k: nat)
    requires Legal(p, Start, run)
    ensures
      var w := Me(After(p, Start, run), side);
      k < |w.audits| <==>
        exists m :: m in w.log.handled + ChargedHand(w.hand) && m.tag == OutputFound && k <= m.stream
  {
    RunKnows(p, Start, run, side);
    var w := Me(After(p, Start, run), side);
    hide Legal, After;
    if k < |w.audits| {
      assert Announced(w, k);
    }
    if m :| m in w.log.handled + ChargedHand(w.hand) && m.tag == OutputFound && k <= m.stream {
      var i :| 0 <= i < |Handled(w)| && Handled(w)[i] == m;
      assert Announced(w, k);
    }
  }

  // ---------------------------------------------------------------------------
  // What is written

  /** Nothing that is queued is compressed, and all of it tells its true size. */
  ghost predicate QueuesPlain(p: Pars, w: End) {
    forall i :: 0 <= i < |w.log.enqueued| ==> !w.log.enqueued[i].deflated && Sound(p, w.log.enqueued[i])
  }

  lemma QueueQueuesPlain(p: Pars, w: End, m: Message)
    requires QueuesPlain(p, w) && !m.deflated && Sound(p, m)
    ensures QueuesPlain(p, Queue(w, m))
  {
    hide Sound;
  }

  lemma PrepareQueuesPlain(p: Pars, w: End)
    requires QueuesPlain(p, w) && w.hand.Pulled?
    ensures QueuesPlain(p, Prepare(p, w))
  {
    var query := Control(QueryBuffer, w.hand.m.stream);
    assert Sound(p, query);
    hide Sound, HalfFull;
    QueueQueuesPlain(p, w, query);
  }

  lemma ActQueuesPlain(p: Pars, w: End, r: End, op: Op)
    requires BothShapes(p, w, r) && QueuesPlain(p, w) && Can(p, w, r, op)
    ensures QueuesPlain(p, Act(p, w, r, op))
  {
    if QuietOp(op) {
      QuietKeepsRecords(p, w, r, op);
      hide Act, Can;
    } else {
      ControlsSound(p);
      hide Prepare, Dispatch, Sound;
      match op
      case DoOffer(m) => QueueQueuesPlain(p, w, Control(QueryBuffer, m.stream));
      case DoEnqueue => QueueQueuesPlain(p, w, w.offering.value);
      case DoPut(m) => QueueQueuesPlain(p, w, m);
      case DoTimeout => QueueQueuesPlain(p, w, Control(KeepAlive, 0));
      case DoPull =>
      case DoPrepare => PrepareQueuesPlain(p, w);
      case DoSend =>
      case DoReply => QueueQueuesPlain(p, w, Control(UsedData, w.reader.stream, w.reader.audit));
    }
  }

  lemma ControlsSound(p: Pars)
    ensures forall tag, stream, audit :: Sound(p, Control(tag, stream, audit))
  {
  }

  lemma NextQueuesPlain(p: Pars, s: Sys, e: Event, side: Side)
    requires Healthy(p, s.a, s.b) && Enabled(p, s, e) && QueuesPlain(p, Me(s, side))
    ensures QueuesPlain(p, Me(Next(p, s, e), side))
  {
    assert BothShapes(p, s.a, s.b) && BothShapes(p, s.b, s.a);
    hide BothShapes, Act, Can, Sound;
    if e.side == side {
      ActQueuesPlain(p, Me(s, side), Peer(s, side), e.op);
    }
  }

  lemma {:induction false} RunQueuesPlain(p: Pars, s: Sys, run: seq<Event>, side: Side)
    requires Healthy(p, s.a, s.b) && Legal(p, s, run) && QueuesPlain(p, Me(s, side))
    ensures QueuesPlain(p, Me(After(p, s, run), side))
    decreases |run|
  {
    hide Healthy, QueuesPlain, Enabled, Next;
    if run != [] {
      NextQueuesPlain(p, s, run[0], side);
      NextHealthy(p, s, run[0]);
      RunQueuesPlain(p, Next(p, s, run[0]), run[1..], side);
    }
  }

  /** A message as it is to be on the wire: PUSHDATA compressed if and only if the channel
      compresses, whatever else as it is; the header has the uncompressed size. */
  predicate WireForm(p: Pars, m: Message) {
    && m.length == |Plain(p, m)|
    && m.deflated == (p.deflating && m.tag == PushData)
    && (m.deflated ==> m.body == p.deflate(Plain(p, m)))
  }

  lemma PackWireForm(p: Pars, m: Message)
    requires p.Valid() && !m.deflated && Sound(p, m)
    ensures WireForm(p, Pack(p, m))
  {
    PackKeepsContent(p, m);
  }

  lemma {:induction false} OutgoingWireForm(p: Pars, q: seq<Message>, i: nat)
    requires p.Valid() && forall j :: 0 <= j < |q| ==> !q[j].deflated && Sound(p, q[j])
    requires i < |Outgoing(p, q)|
    ensures WireForm(p, Outgoing(p, q)[i])
  {
    hide Pack, WireForm, Sound;
    if q[0].tag == Flush {
      assert forall j :: 0 <= j < |q[1..]| ==> q[1..][j] == q[j + 1];
      OutgoingWireForm(p, q[1..], i);
    } else if i == 0 {
      PackWireForm(p, q[0]);
    } else {
      assert forall j :: 0 <= j < |q[1..]| ==> q[1..][j] == q[j + 1];
      OutgoingWireForm(p, q[1..], i - 1);
    }
  }

  /** In every run, everything that has been written is in that form. */
  lemma SentInWireForm(p: Pars, run: seq<Event>, side: Side, i: nat)
    requires p.Valid() && Legal(p, Start, run) && i < |Me(After(p, Start, run), side).log.sent|
    ensures WireForm(p, Me(After(p, Start, run), side).log.sent[i])
  {
    hide Enabled, Next, WireForm, Outgoing, Sound;
    StartHealthy(p);
    RunQueuesPlain(p, Start, run, side);
    ReachedTidy(p, run, side);
    var w := Me(After(p, Start, run), side);
    assert w.log.handled <= w.log.enqueued;
    OutgoingWireForm(p, w.log.handled, i);
  }

  // ---------------------------------------------------------------------------
  // Answers and errors

  /** A query is answered if and only if its stream's deliverer has an item to report, and
      then with all that it has; otherwise it is on record as unanswered. */
  lemma AnswersExactly(p: Pars, r: End)
    requires r.reader.Got? && r.reader.m.tag == QueryBuffer && r.reader.m.stream in r.deliverers
    ensures
      var k, r' := r.reader.m.stream, Dispatch(p, r);
      var audit := r.deliverers[k].audit;
      && r'.reader == (if audit.items == 0 then Waiting else Replying(k, audit))
      && r'.log.unanswered == r.log.unanswered + (if audit.items == 0 then [r.reader.m] else [])
      && r'.deliverers == r.deliverers[k := r.deliverers[k].(audit := EmptyAudit)]
      && r'.fault == r.fault && r'.sendQ == r.sendQ
  {
  }

  /** The reply: one USEDDATA of the stream, with that audit. */
  lemma RepliesExactly(r: End)
    requires r.reader.Replying?
    ensures Reply(r).sendQ == r.sendQ + [Message(UsedData, r.reader.stream, 0, 0, [], false, r.reader.audit)]
    ensures Reply(r).reader == Waiting
  {
  }

  /** Each internal error is raised exactly by its own condition. */
  lemma ErrorsExactly(p: Pars, x: End, y: End, op: Op)
    requires Can(p, x, y, op) && x.fault == None
    ensures
      Act(p, x, y, op).fault ==
        if op == DoPrepare && x.hand.m.tag == PushData && x.hand.m.stream >= |x.audits| then Some(AuditIndex)
        else if op == DoReceive && y.wire[0].tag in {PushData, QueryBuffer} && y.wire[0].stream !in x.deliverers then
          Some(RoutingOverflow)
        else if op == DoDispatch && x.reader.m.tag in {PushData, QueryBuffer} && x.reader.m.stream !in x.deliverers then
          Some(RoutingOverflow)
        else if op == DoDispatch && x.reader.m.tag == UsedData && x.reader.m.stream >= |x.audits| then Some(AuditIndex)
        else if op == DoDispatch && x.reader.m.tag == UsedData
                && x.reader.m.audit.bytes > x.audits[x.reader.m.stream].bytes then Some(AuditOverflow)
        else if op == DoDispatch && x.reader.m.tag == PushData && x.reader.m.deflated && x.reader.m.length > 0
                && |p.inflate(x.reader.m.body)| != x.reader.m.length then Some(SizeMismatch)
        else if op.DoTake? && x.deliverers[op.k].queue[0].order != x.deliverers[op.k].order then Some(OutOfOrder)
        else None
  {
    hide Sound, Unpack, DeliverPush, DeliverHandle, DeliverFlush, HalfFull, Congested, Pack;
  }

  // ---------------------------------------------------------------------------
  // The handler

  /** The deliverer's thread is out of its loop, and holds no message. */
  predicate OutOfLoop(e: End, k: nat) {
    k in e.deliverers && e.deliverers[k].phase != Running && e.deliverers[k].hand == None
  }

  lemma StepOutOfLoop(p: Pars, s: Sys, e: Event, side: Side, k: nat)
    requires Enabled(p, s, e) && OutOfLoop(Me(s, side), k)
    ensures OutOfLoop(Me(Next(p, s, e), side), k)
    ensures Me(Next(p, s, e), side).deliverers[k].delivered == Me(s, side).deliverers[k].delivered
  {
    hide Act, Can;
    if e.side == side {
      ActOutOfLoop(p, Me(s, side), Peer(s, side), e.op, k);
    }
  }

  lemma ActOutOfLoop(p: Pars, x: End, y: End, op: Op, k: nat)
    requires Can(p, x, y, op) && OutOfLoop(x, k)
    ensures OutOfLoop(Act(p, x, y, op), k) && Act(p, x, y, op).deliverers[k].delivered == x.deliverers[k].delivered
  {
    hide Sound, Congested, Pack, Prepare, Dispatch;
    if op == DoPrepare {
      PrepareLeaves(p, x);
    } else if op == DoDispatch {
      DispatchOutOfLoop(p, x, k);
    }
  }

  lemma PrepareLeaves(p: Pars, w: End)
    requires w.hand.Pulled?
    ensures Prepare(p, w).deliverers == w.deliverers
  {
    hide HalfFull;
  }

  lemma DispatchOutOfLoop(p: Pars, w: End, k: nat)
    requires w.reader.Got? && OutOfLoop(w, k)
    ensures OutOfLoop(Dispatch(p, w), k)
    ensures Dispatch(p, w).deliverers[k].delivered == w.deliverers[k].delivered
  {
    hide Unpack;
  }

  /** Nothing is delivered any more, whatever the rest of the run. */
  lemma {:induction false} NothingDelivered(p: Pars, s: Sys, run: seq<Event>, side: Side, k: nat)
    requires Legal(p, s, run) && OutOfLoop(Me(s, side), k)
    ensures OutOfLoop(Me(After(p, s, run), side), k)
    ensures Me(After(p, s, run), side).deliverers[k].delivered == Me(s, side).deliverers[k].delivered
    decreases |run|
  {
    hide Enabled, Next, OutOfLoop;
    if run != [] {
      StepOutOfLoop(p, s, run[0], side, k);
      NothingDelivered(p, Next(p, s, run[0]), run[1..], side, k);
    }
  }

  /** A handler that has cancelled gets the message it cancelled on, and never another. */
  lemma CancelIsFinal(p: Pars, s: Sys, more: seq<Event>, side: Side, k: nat)
    requires Can(p, Me(s, side), Peer(s, side), DoHandle(k, true))
    requires Legal(p, s, [Event(side, DoHandle(k, true))] + more)
    ensures
      var d, d' := Me(s, side).deliverers[k], Dlv(Me(After(p, s, [Event(side, DoHandle(k, true))] + more), side), k);
      d'.delivered == d.delivered + [Item(d.hand.value.order, d.hand.value.body)]
  {
    var e := Event(side, DoHandle(k, true));
    assert ([e] + more)[0] == e && ([e] + more)[1..] == more;
    assert OutOfLoop(Me(Next(p, s, e), side), k);
    NothingDelivered(p, Next(p, s, e), more, side, k);
  }

  /** The deliverer's thread is in its loop, and has not been asked to stop. */
  predicate InLoop(e: End, k: nat) {
    k in e.deliverers && e.deliverers[k].phase == Running && !e.deliverers[k].stop
  }

  /** What takes it out of its loop. */
  predicate Ends(e: Event, side: Side, k: nat) {
    e == Event(side, DoStop(k)) || e == Event(side, DoHandle(k, true))
  }

  lemma StepInLoop(p: Pars, s: Sys, e: Event, side: Side, k: nat)
    requires Healthy(p, s.a, s.b) && Enabled(p, s, e) && InLoop(Me(s, side), k) && !Ends(e, side, k)
    ensures InLoop(Me(Next(p, s, e), side), k)
  {
    hide Act, Can, Healthy, Ends;
    if side == SideA {
      NextIsInOrder(p, s.a, s.b, k);
    } else {
      HealthyFlips(p, s.a, s.b);
      NextIsInOrder(p, s.b, s.a, k);
    }
    if e.side == side {
      NoEnd(e, side, k);
      ActInLoop(p, Me(s, side), Peer(s, side), e.op, k);
    }
  }

  lemma NoEnd(e: Event, side: Side, k: nat)
    requires !Ends(e, side, k) && e.side == side
    ensures e.op != DoStop(k) && e.op != DoHandle(k, true)
  {
  }

  /** What the deliverer would take next has the number it expects. */
  predicate Expected(x: End, k: nat) {
    k in x.deliverers && CanDeliver(x.deliverers[k]) ==> x.deliverers[k].queue[0].order == x.deliverers[k].order
  }

  lemma NextIsInOrder(p: Pars, x: End, y: End, k: nat)
    requires Healthy(p, x, y)
    ensures Expected(x, k)
  {
    assert BothBooks(p, x, y, k);
    hide Healthy;
    if k in x.deliverers && CanDeliver(x.deliverers[k]) {
      NextInOrder(p, View(y, x, k), k);
    }
  }

  lemma ActInLoop(p: Pars, x: End, y: End, op: Op, k: nat)
    requires Expected(x, k) && Can(p, x, y, op) && InLoop(x, k)
    requires op != DoStop(k) && op != DoHandle(k, true)
    ensures InLoop(Act(p, x, y, op), k)
  {
    hide Sound, Congested, Pack, Prepare, Dispatch;
    if op == DoPrepare {
      PrepareLeaves(p, x);
    } else if op == DoDispatch {
      DispatchInLoop(p, x, k);
    }
  }

  lemma DispatchInLoop(p: Pars, w: End, k: nat)
    requires w.reader.Got? && InLoop(w, k)
    ensures InLoop(Dispatch(p, w), k)
  {
    hide Unpack;
  }

  /** A deliverer's thread goes on, whatever else happens, until it is asked to stop or
      its handler cancels. */
  lemma {:induction false} DeliversUntilStopped(p: Pars, s: Sys, run: seq<Event>, side: Side, k: nat)
    requires Healthy(p, s.a, s.b) && Legal(p, s, run) && InLoop(Me(s, side), k)
    requires forall i :: 0 <= i < |run| ==> !Ends(run[i], side, k)
    ensures InLoop(Me(After(p, s, run), side), k)
    decreases |run|
  {
    hide Enabled, Next, InLoop, Ends, Healthy;
    if run != [] {
      StepInLoop(p, s, run[0], side, k);
      NextHealthy(p, s, run[0]);
      DeliversUntilStopped(p, Next(p, s, run[0]), run[1..], side, k);
    }
  }
}
