/**
 Back-pressure makes progress: after any refused push there is a schedule of
 the threads that empties the estimate, so that the push is accepted when it is
 offered again. It rests on the query that every refusal leaves behind.
 */
module Progress {
  import opened Messages
  import opened ChannelModel
  import opened Ledger
  import opened ChannelInvariant
  import opened ChannelRuns

  /** Steps of the sender, receiver and deliverer threads; handlers carry on. */
  predicate ThreadOp(op: Op) {
    op.DoPull? || op.DoPrepare? || op.DoSend? || op.DoReceive? || op.DoDispatch? || op.DoReply?
    || op.DoTake? || (op.DoHandle? && !op.cancel)
  }

  ghost predicate ThreadRun(run: seq<Event>) {
    forall i :: 0 <= i < |run| ==> ThreadOp(run[i].op)
  }

  /** No GOODBYE has been said from w to r. */
  ghost predicate Open(p: Pars, w: End, r: End) {
    w.hand != Exited && r.reader != Left && Total(p, Pipe(w, r), Tagged(Goodbye)) == 0
  }

  ghost predicate BothOpen(p: Pars, x: End, y: End) {
    Healthy(p, x, y) && Open(p, x, y) && Open(p, y, x)
  }

  /** What a client can see of its end has not changed, and nothing it relies on is gone. */
  predicate SameClient(x: End, x': End) {
    && x'.offering == x.offering && x'.log.accepted == x.log.accepted && x'.endRun == x.endRun
    && Grows(x, x')
  }

  // ---------------------------------------------------------------------------
  // Queries that come after all the data

  /** Whether all of stream k has been reported once the messages have been read
      by an end whose deliverer is emptied before each query, when `all` says so now. */
  function Settles(q: seq<Message>, all: bool, k: nat): bool {
    if q == [] then all else Settles(q[1..], SettlesOne(q[0], all, k), k)
  }

  function SettlesOne(m: Message, all: bool, k: nat): bool {
    if m.stream != k then all
    else if m.tag == PushData then false
    else if m.tag == QueryBuffer then true
    else all
  }

  lemma {:induction false} SettlesAppend(x: seq<Message>, y: seq<Message>, all: bool, k: nat)
    ensures Settles(x + y, all, k) == Settles(y, Settles(x, all, k), k)
  {
    if x == [] {
      assert x + y == y;
    } else {
      assert (x + y)[1..] == x[1..] + y;
      SettlesAppend(x[1..], y, SettlesOne(x[0], all, k), k);
    }
  }

  lemma SettlesPush(q: seq<Message>, m: Message, all: bool, k: nat)
    ensures m.tag == QueryBuffer && m.stream == k ==> Settles(q + [m], all, k)
    ensures IgnoredForward(m, k) ==> Settles(q + [m], all, k) == Settles(q, all, k)
  {
    SettlesAppend(q, [m], all, k);
    assert [m][1..] == [];
  }

  /** Messages between two parts of a queue count by their tag and stream only. */
  lemma SettlesMiddle(x: seq<Message>, m: Message, y: seq<Message>, all: bool, k: nat)
    ensures forall n: Message :: n.tag == m.tag && n.stream == m.stream ==>
      Settles(x + [n] + y, all, k) == Settles(x + [m] + y, all, k)
    ensures IgnoredForward(m, k) ==> Settles(x + [] + y, all, k) == Settles(x + [m] + y, all, k)
  {
    forall n: Message | n.tag == m.tag && n.stream == m.stream
      ensures Settles(x + [n] + y, all, k) == Settles(x + [m] + y, all, k)
    {
      SettlesAppend(x + [n], y, all, k);
      SettlesAppend(x, [n], all, k);
      SettlesAppend(x + [m], y, all, k);
      SettlesAppend(x, [m], all, k);
      assert [m][1..] == [] && [n][1..] == [];
    }
    SettlesAppend(x + [], y, all, k);
    SettlesAppend(x, [], all, k);
    SettlesAppend(x + [m], y, all, k);
    SettlesAppend(x, [m], all, k);
    assert [m][1..] == [];
  }

  /** The deliverer has handed out all it has got, and all of that is reported. */
  predicate Reported(d: Deliverer) {
    d.queue == [] && d.audit.items == 0
  }

  predicate Settled(w: End, r: End, k: nat) {
    Settles(Pipe(w, r), Reported(Dlv(r, k)), k)
  }

  // ---------------------------------------------------------------------------
  // Steps of the sender thread

  predicate SenderOp(op: Op) {
    op.DoPull? || op.DoPrepare? || op.DoSend?
  }

  /** A sender step touches nothing but the sending side of its own end. */
  predicate SenderFrame(x: End, x': End) {
    && SameClient(x, x') && x'.reader == x.reader && x'.deliverers == x.deliverers
  }

  function Effort(m: Message): nat {
    if m.tag == PushData then 7 else 3
  }

  function QueueEffort(q: seq<Message>): nat {
    if q == [] then 0 else Effort(q[0]) + QueueEffort(q[1..])
  }

  lemma {:induction false} QueueEffortPush(q: seq<Message>, m: Message)
    ensures QueueEffort(q + [m]) == QueueEffort(q) + Effort(m)
  {
    if q == [] {
      assert [m][1..] == [];
    } else {
      assert (q + [m])[1..] == q[1..] + [m];
      QueueEffortPush(q[1..], m);
    }
  }

  /** Steps left for the sender thread. */
  function SenderWork(w: End): nat {
    QueueEffort(w.sendQ) + (if w.hand.Pulled? then Effort(w.hand.m) - 1 else if w.hand.Charged? then 1 else 0)
  }

  lemma PullProgress(p: Pars, x: End, y: End)
    requires BothOpen(p, x, y) && x.hand == Idle && x.sendQ != []
    ensures SenderFrame(x, Pull(x)) && SenderWork(Pull(x)) < SenderWork(x)
    ensures Open(p, Pull(x), y) && Open(p, y, Pull(x))
    ensures forall k :: Settled(x, y, k) ==> Settled(Pull(x), y, k)
  {
    hide Healthy, Total, Settles;
    assert Pipe(Pull(x), y) == Pipe(x, y);
    assert Pipe(y, Pull(x)) == Pipe(y, x);
  }

  lemma QueueQueryProgress(p: Pars, x: End, y: End, j: nat)
    ensures Open(p, x, y) ==> Open(p, Queue(x, Control(QueryBuffer, j)), y)
    ensures forall k :: Settled(x, y, k) ==> Settled(Queue(x, Control(QueryBuffer, j)), y, k)
    ensures SenderWork(Queue(x, Control(QueryBuffer, j))) == SenderWork(x) + 3
  {
    hide Total, Settles;
    var m := Control(QueryBuffer, j);
    assert Pipe(Queue(x, m), y) == Pipe(x, y) + [m];
    TotalPush(p, Pipe(x, y), m, Tagged(Goodbye));
    forall k ensures Settled(x, y, k) ==> Settled(Queue(x, m), y, k) {
      SettlesPush(Pipe(x, y), m, Reported(Dlv(y, k)), k);
    }
    QueueEffortPush(x.sendQ, m);
  }

  lemma PrepareProgress(p: Pars, x: End, y: End)
    requires BothShapes(p, x, y) && Open(p, x, y) && Open(p, y, x) && x.hand.Pulled?
    ensures SenderFrame(x, Prepare(p, x)) && SenderWork(Prepare(p, x)) < SenderWork(x)
    ensures Open(p, Prepare(p, x), y) && Open(p, y, Prepare(p, x))
    ensures forall k :: Settled(x, y, k) ==> Settled(Prepare(p, x), y, k)
  {
    hide Total, Settles;
    var m, x', front := x.hand.m, Prepare(p, x), Held(y.reader) + x.wire;
    assert Pipe(y, x') == Pipe(y, x);
    if m.tag == PushData {
      var c, j := ChargeOnly(p, x), m.stream;
      PrepareData(p, x);
      assert Pipe(c, y) == Pipe(x, y);
      QueueQueryProgress(p, c.(audits := c.audits[j := c.audits[j].(queries := c.audits[j].queries + 1)]), y, j);
    } else if m.tag == Flush {
      assert Pipe(x, y) == front + [m] + x.sendQ;
      assert Pipe(x', y) == front + [] + x.sendQ;
      TotalMiddle(p, front, m, x.sendQ, Tagged(Goodbye));
      TotalAppend(p, front + [], x.sendQ, Tagged(Goodbye));
      assert front + [] == front;
      forall k ensures Settled(x, y, k) ==> Settled(x', y, k) {
        SettlesMiddle(front, m, x.sendQ, Reported(Dlv(y, k)), k);
      }
    } else {
      assert Pipe(x', y) == Pipe(x, y);
    }
  }

  lemma SendProgress(p: Pars, x: End, y: End)
    requires Open(p, x, y) && Open(p, y, x) && x.hand.Charged?
    ensures SenderFrame(x, Send(p, x)) && SenderWork(Send(p, x)) < SenderWork(x)
    ensures Open(p, Send(p, x), y) && Open(p, y, Send(p, x))
    ensures forall k :: Settled(x, y, k) ==> Settled(Send(p, x), y, k)
  {
    hide Total, Settles;
    var m, x', front := x.hand.m, Send(p, x), Held(y.reader) + x.wire;
    assert Pipe(x, y) == front + [m] + x.sendQ;
    assert Pipe(x', y) == front + [Pack(p, m)] + x.sendQ;
    assert Pipe(y, x') == Pipe(y, x);
    TotalMiddle(p, front, m, x.sendQ, Tagged(Goodbye));
    TotalMiddle(p, front, Pack(p, m), x.sendQ, Tagged(Goodbye));
    forall k ensures Settled(x, y, k) ==> Settled(x', y, k) {
      SettlesMiddle(front, m, x.sendQ, Reported(Dlv(y, k)), k);
    }
  }

  /** The next step of a sender thread that has something to do. */
  function NextSend(w: End): Op {
    if w.hand.Pulled? then DoPrepare else if w.hand.Charged? then DoSend else DoPull
  }

  lemma SenderCan(p: Pars, x: End, y: End)
    ensures x.hand == Idle && x.sendQ != [] ==>
      Can(p, x, y, DoPull) && Act(p, x, y, DoPull) == Pull(x) && React(y, DoPull) == y
    ensures x.hand.Pulled? ==>
      Can(p, x, y, DoPrepare) && Act(p, x, y, DoPrepare) == Prepare(p, x) && React(y, DoPrepare) == y
    ensures x.hand.Charged? ==>
      Can(p, x, y, DoSend) && Act(p, x, y, DoSend) == Send(p, x) && React(y, DoSend) == y
  {
    hide Pull, Prepare, Send;
  }

  predicate SenderDone(w: End) {
    w.hand == Idle && w.sendQ == []
  }

  lemma SenderStep(p: Pars, x: End, y: End)
    requires BothOpen(p, x, y) && !SenderDone(x)
    ensures
      var op := NextSend(x);
      && Can(p, x, y, op) && React(y, op) == y
      && (var x' := Act(p, x, y, op);
          && BothOpen(p, x', y) && SenderFrame(x, x') && SenderWork(x') < SenderWork(x)
          && (forall k :: Settled(x, y, k) ==> Settled(x', y, k)))
  {
    hide BothShapes, BothBooks, Settled;
    var op := NextSend(x);
    ActShape(p, x, y, op);
    forall k: nat ensures BothBooks(p, Act(p, x, y, op), y, k) {
      ActBooks(p, x, y, op, k);
    }
    if x.hand.Pulled? {
      PrepareProgress(p, x, y);
    } else if x.hand.Charged? {
      SendProgress(p, x, y);
    } else {
      PullProgress(p, x, y);
    }
  }

  lemma SideStep(p: Pars, s: Sys, side: Side, op: Op)
    requires Can(p, Me(s, side), Peer(s, side), op)
    ensures Enabled(p, s, Event(side, op))
    ensures Me(Next(p, s, Event(side, op)), side) == Act(p, Me(s, side), Peer(s, side), op)
    ensures Peer(Next(p, s, Event(side, op)), side) == React(Peer(s, side), op)
  {
    hide Can, Act, React;
  }

  lemma RunCons(p: Pars, s: Sys, e: Event, rest: seq<Event>)
    requires Enabled(p, s, e) && Legal(p, Next(p, s, e), rest) && ThreadOp(e.op) && ThreadRun(rest)
    ensures Legal(p, s, [e] + rest) && After(p, s, [e] + rest) == After(p, Next(p, s, e), rest) && ThreadRun([e] + rest)
  {
    assert ([e] + rest)[1..] == rest;
  }

  /** The sender thread sends all that is queued. */
  lemma {:induction false} DrainSender(p: Pars, s: Sys, side: Side) returns (run: seq<Event>)
    requires BothOpen(p, Me(s, side), Peer(s, side))
    ensures Legal(p, s, run) && ThreadRun(run)
    ensures
      var x, x', y := Me(s, side), Me(After(p, s, run), side), Peer(s, side);
      && Peer(After(p, s, run), side) == y
      && BothOpen(p, x', y) && SenderFrame(x, x') && SenderDone(x')
      && (forall k :: Settled(x, y, k) ==> Settled(x', y, k))
    decreases SenderWork(Me(s, side))
  {
    hide BothOpen, Can, Act, React, Next, Enabled, Settled;
    var x, y := Me(s, side), Peer(s, side);
    if SenderDone(x) {
      run := [];
    } else {
      var e := Event(side, NextSend(x));
      SenderStep(p, x, y);
      SideStep(p, s, side, e.op);
      var rest := DrainSender(p, Next(p, s, e), side);
      RunCons(p, s, e, rest);
      run := [e] + rest;
    }
  }

  // ---------------------------------------------------------------------------
  // Steps of the receiver thread, and of one stream's deliverer

  /** Reading touches neither the sender thread's message nor the wire. */
  predicate ReaderFrame(x: End, x': End) {
    && SameClient(x, x') && x'.hand == x.hand && x'.wire == x.wire
  }

  function ReaderWork(x: End, y: End): nat {
    5 * |y.wire| + (if x.reader.Got? then 4 else if x.reader.Replying? then 1 else 0)
  }

  function DelivererWork(d: Deliverer): nat {
    2 * |d.queue| + |OptSeq(d.hand)|
  }

  predicate Working(x: End, k: nat) {
    k in x.deliverers && x.deliverers[k].phase == Running
  }

  lemma OpenReceive(p: Pars, x: End, y: End)
    requires Open(p, x, y) && Open(p, y, x) && x.reader == Waiting && y.wire != []
    requires Receive(x, y.wire[0]).reader.Got?
    ensures Open(p, Receive(x, y.wire[0]), y.(wire := y.wire[1..])) && Open(p, y.(wire := y.wire[1..]), Receive(x, y.wire[0]))
    ensures forall k :: Settled(y, x, k) ==> Settled(y.(wire := y.wire[1..]), Receive(x, y.wire[0]), k)
  {
    hide Total, Settles;
    var x', y' := Receive(x, y.wire[0]), y.(wire := y.wire[1..]);
    assert Pipe(y', x') == Pipe(y, x);
    assert Pipe(x', y') == Pipe(x, y);
  }

  /** An open receiver thread that runs into no error goes on reading. */
  lemma DispatchGoesOn(p: Pars, x: End)
    requires x.reader.Got? && x.reader.m.tag != Goodbye && x.fault == None && Dispatch(p, x).fault == None
    ensures Dispatch(p, x).reader == Waiting || Dispatch(p, x).reader.Replying?
    ensures ReaderFrame(x, Dispatch(p, x)) && Dispatch(p, x).sendQ == x.sendQ
  {
    hide DeliverPush, Unpack;
  }

  lemma NoGoodbyeHeld(p: Pars, x: End, y: End)
    requires Open(p, y, x) && x.reader.Got?
    ensures x.reader.m.tag != Goodbye
  {
    assert Pipe(y, x)[0] == x.reader.m;
    TotalPop(p, Pipe(y, x), Tagged(Goodbye));
  }

  lemma OpenDispatch(p: Pars, x: End, y: End)
    requires Open(p, x, y) && Open(p, y, x) && x.reader.Got? && x.fault == None && Dispatch(p, x).fault == None
    ensures Open(p, Dispatch(p, x), y) && Open(p, y, Dispatch(p, x))
    ensures Dispatch(p, x).reader == Waiting || Dispatch(p, x).reader.Replying?
    ensures ReaderFrame(x, Dispatch(p, x)) && Dispatch(p, x).sendQ == x.sendQ
  {
    hide Dispatch, Total;
    NoGoodbyeHeld(p, x, y);
    DispatchGoesOn(p, x);
    var x' := Dispatch(p, x);
    DispatchPipes(x, y, x');
    TotalPop(p, Pipe(y, x), Tagged(Goodbye));
    assert Pipe(x', y) == Pipe(x, y);
  }

  /** What reading one message does to a deliverer. */
  lemma DispatchDlv(p: Pars, x: End, k: nat)
    requires x.reader.Got? && k in x.deliverers && x.fault == None && Dispatch(p, x).fault == None
    ensures k in Dispatch(p, x).deliverers
    ensures
      var m, d, d' := x.reader.m, x.deliverers[k], Dispatch(p, x).deliverers[k];
      d' == if m.stream != k then d
            else if m.tag == PushData then DeliverPush(d, Unpack(p, m))
            else if m.tag == QueryBuffer then d.(audit := EmptyAudit)
            else d
  {
    hide DeliverPush, Unpack;
  }

  /** What it does to a running, emptied one. */
  lemma DispatchDeliverer(p: Pars, x: End, k: nat)
    requires x.reader.Got? && Working(x, k) && Dlv(x, k).queue == [] && x.fault == None && Dispatch(p, x).fault == None
    ensures Working(Dispatch(p, x), k)
    ensures DelivererWork(Dlv(Dispatch(p, x), k)) <= DelivererWork(Dlv(x, k)) + 2
    ensures Reported(Dlv(Dispatch(p, x), k)) == SettlesOne(x.reader.m, Reported(Dlv(x, k)), k)
  {
    hide Dispatch;
    DispatchDlv(p, x, k);
  }

  /** A query read when the deliverer has been emptied reports all there is. */
  lemma SettledDispatch(p: Pars, x: End, y: End, k: nat)
    requires x.reader.Got? && Settled(y, x, k) && Working(x, k) && Dlv(x, k).queue == []
    requires x.fault == None && Dispatch(p, x).fault == None && !Dispatch(p, x).reader.Got?
    ensures Settled(y, Dispatch(p, x), k)
    ensures Working(Dispatch(p, x), k)
    ensures DelivererWork(Dlv(Dispatch(p, x), k)) <= DelivererWork(Dlv(x, k)) + 2
  {
    hide Dispatch;
    DispatchDeliverer(p, x, k);
    DispatchPipes(x, y, Dispatch(p, x));
  }

  lemma OpenReply(p: Pars, x: End, y: End)
    requires Open(p, x, y) && Open(p, y, x) && x.reader.Replying?
    ensures Open(p, Reply(x), y) && Open(p, y, Reply(x))
    ensures forall k :: Settled(y, x, k) ==> Settled(y, Reply(x), k)
  {
    hide Total, Settles;
    var m := Control(UsedData, x.reader.stream, x.reader.audit);
    assert Pipe(Reply(x), y) == Pipe(x, y) + [m];
    assert Pipe(y, Reply(x)) == Pipe(y, x);
    TotalPush(p, Pipe(x, y), m, Tagged(Goodbye));
  }

  lemma OpenDeliverer(p: Pars, x: End, y: End, k: nat, d: Deliverer)
    requires Open(p, x, y) && Open(p, y, x)
    ensures Open(p, SetDeliverer(x, k, d), y) && Open(p, y, SetDeliverer(x, k, d))
    ensures Settled(y, x, k) && (Reported(d) == Reported(Dlv(x, k))) ==> Settled(y, SetDeliverer(x, k, d), k)
  {
    hide Total, Settles;
    assert Pipe(SetDeliverer(x, k, d), y) == Pipe(x, y);
    assert Pipe(y, SetDeliverer(x, k, d)) == Pipe(y, x);
  }

  /** The next step of a receiver thread that has something to do. */
  function NextRead(x: End): Op {
    if x.reader.Got? then DoDispatch else if x.reader.Replying? then DoReply else DoReceive
  }

  predicate ReaderDone(x: End, y: End) {
    x.reader == Waiting && y.wire == []
  }

  lemma ActHealthy(p: Pars, x: End, y: End, op: Op)
    requires Healthy(p, x, y) && Can(p, x, y, op)
    ensures Healthy(p, Act(p, x, y, op), React(y, op))
  {
    hide BothShapes, BothBooks, Act, Can, React;
    ActShape(p, x, y, op);
    forall k: nat ensures BothBooks(p, Act(p, x, y, op), React(y, op), k) {
      ActBooks(p, x, y, op, k);
    }
  }

  lemma ReaderStep(p: Pars, x: End, y: End)
    requires BothOpen(p, x, y) && !ReaderDone(x, y)
    ensures
      var op := NextRead(x);
      && Can(p, x, y, op)
      && (var x', y' := Act(p, x, y, op), React(y, op);
          && BothOpen(p, x', y') && ReaderFrame(x, x') && ReaderWork(x', y') + (if x.reader.Got? then 3 else 1) <= ReaderWork(x, y)
          && y' == y.(wire := y'.wire)
          && (op == DoReceive ==> x'.reader.Got?))
  {
    hide BothShapes, BothBooks, Dispatch, Total;
    var op := NextRead(x);
    ActHealthy(p, x, y, op);
    if x.reader.Got? {
      OpenDispatch(p, x, y);
    } else if x.reader.Replying? {
      OpenReply(p, x, y);
    } else {
      ReceiveShape(p, x, y);
      OpenReceive(p, x, y);
    }
  }

  /** The receiver thread reads all that is on the wire. */
  lemma {:induction false} DrainReader(p: Pars, s: Sys, side: Side) returns (run: seq<Event>)
    requires BothOpen(p, Me(s, side), Peer(s, side))
    ensures Legal(p, s, run) && ThreadRun(run)
    ensures
      var x, x', y := Me(s, side), Me(After(p, s, run), side), Peer(s, side);
      var y' := Peer(After(p, s, run), side);
      && y' == y.(wire := []) && x'.reader == Waiting && BothOpen(p, x', y') && ReaderFrame(x, x')
    decreases ReaderWork(Me(s, side), Peer(s, side))
  {
    hide BothOpen, Can, Act, React, Next, Enabled;
    var x, y := Me(s, side), Peer(s, side);
    if ReaderDone(x, y) {
      run := [];
    } else {
      var e := Event(side, NextRead(x));
      ReaderStep(p, x, y);
      SideStep(p, s, side, e.op);
      var rest := DrainReader(p, Next(p, s, e), side);
      RunCons(p, s, e, rest);
      run := [e] + rest;
    }
  }

  predicate DelivererDone(d: Deliverer) {
    d.queue == [] && d.hand == None
  }

  /** The same, emptying stream k's deliverer before each message. */
  function NextDeliver(x: End, k: nat): Op {
    if Dlv(x, k).hand.Some? then DoHandle(k, false) else if Dlv(x, k).queue != [] then DoTake(k) else NextRead(x)
  }

  lemma DelivererStep(p: Pars, x: End, y: End, k: nat)
    requires BothOpen(p, x, y) && Working(x, k) && Settled(y, x, k) && !DelivererDone(Dlv(x, k))
    ensures
      var op := NextDeliver(x, k);
      && Can(p, x, y, op) && React(y, op) == y
      && (var x' := Act(p, x, y, op);
          && BothOpen(p, x', y) && ReaderFrame(x, x') && x'.reader == x.reader
          && Working(x', k) && Settled(y, x', k) && DelivererWork(Dlv(x', k)) < DelivererWork(Dlv(x, k)))
  {
    hide BothShapes, BothBooks, Total, Settles;
    var op := NextDeliver(x, k);
    ActHealthy(p, x, y, op);
    assert BothBooks(p, x, y, k);
    if Dlv(x, k).hand.Some? {
      OpenDeliverer(p, x, y, k, DeliverHandle(x.deliverers[k], false));
    } else {
      DelivererNoFault(p, x, y, k);
      OpenDeliverer(p, x, y, k, DeliverPull(p, x.deliverers[k]).0);
    }
  }

  lemma ReadStep(p: Pars, x: End, y: End, k: nat)
    requires BothOpen(p, x, y) && Working(x, k) && Settled(y, x, k) && DelivererDone(Dlv(x, k)) && !ReaderDone(x, y)
    ensures
      var op := NextDeliver(x, k);
      && Can(p, x, y, op)
      && (var x', y' := Act(p, x, y, op), React(y, op);
          && BothOpen(p, x', y') && ReaderFrame(x, x') && y' == y.(wire := y'.wire)
          && Working(x', k) && Settled(y', x', k)
          && ReaderWork(x', y') + DelivererWork(Dlv(x', k)) < ReaderWork(x, y) + DelivererWork(Dlv(x, k)))
  {
    hide BothShapes, BothBooks, Dispatch, Total, Settled;
    ReaderStep(p, x, y);
    if x.reader.Got? {
      OpenDispatch(p, x, y);
      SettledDispatch(p, x, y, k);
    } else if x.reader.Replying? {
      OpenReply(p, x, y);
    } else {
      OpenReceive(p, x, y);
    }
  }

  lemma {:induction false} DrainReaderDelivering(p: Pars, s: Sys, side: Side, k: nat) returns (run: seq<Event>)
    requires BothOpen(p, Me(s, side), Peer(s, side))
    requires Working(Me(s, side), k) && Settled(Peer(s, side), Me(s, side), k)
    ensures Legal(p, s, run) && ThreadRun(run)
    ensures
      var x, x', y := Me(s, side), Me(After(p, s, run), side), Peer(s, side);
      var y' := Peer(After(p, s, run), side);
      && y' == y.(wire := []) && x'.reader == Waiting && BothOpen(p, x', y') && ReaderFrame(x, x')
      && Working(x', k) && Settled(y', x', k) && DelivererDone(Dlv(x', k))
    decreases ReaderWork(Me(s, side), Peer(s, side)) + DelivererWork(Dlv(Me(s, side), k))
  {
    hide BothOpen, Can, Act, React, Next, Enabled, Settled;
    var x, y := Me(s, side), Peer(s, side);
    if ReaderDone(x, y) && DelivererDone(Dlv(x, k)) {
      run := [];
    } else {
      var e := Event(side, NextDeliver(x, k));
      if DelivererDone(Dlv(x, k)) {
        ReadStep(p, x, y, k);
      } else {
        DelivererStep(p, x, y, k);
      }
      SideStep(p, s, side, e.op);
      var rest := DrainReaderDelivering(p, Next(p, s, e), side, k);
      RunCons(p, s, e, rest);
      run := [e] + rest;
    }
  }

  // ---------------------------------------------------------------------------
  // The whole schedule

  function Other(side: Side): Side {
    if side == SideA then SideB else SideA
  }

  lemma ThreadRunAppend(p: Pars, s: Sys, x: seq<Event>, y: seq<Event>)
    requires Legal(p, s, x) && ThreadRun(x) && Legal(p, After(p, s, x), y) && ThreadRun(y)
    ensures Legal(p, s, x + y) && After(p, s, x + y) == After(p, After(p, s, x), y) && ThreadRun(x + y)
  {
    RunAppend(p, s, x, y);
  }

  /** With no data under way and all of it reported and credited, nothing is outstanding. */
  lemma NothingUnderWay(p: Pars, w: End, r: End, k: nat)
    requires Healthy(p, w, r) && Working(r, k) && Reported(Dlv(r, k))
    requires w.hand == Idle && w.wire == [] && w.reader == Waiting
    requires SenderDone(r) && r.wire == [] && r.reader == Waiting
    ensures Est(w, k).items == 0 && Est(w, k).bytes == 0
  {
    hide Books, BothShapes;
    assert BothBooks(p, w, r, k);
    assert ChargedPipe(w, r) == [] && Pipe(r, w) == [];
    NothingLeft(p, View(w, r, k), k);
  }

  /** A refused push leaves a query behind all of its stream's data. */
  lemma RefusalAsks(p: Pars, w: End, r: End, m: Message)
    requires BothOpen(p, w, r) && Can(p, w, r, DoOffer(m)) && Congested(p, Est(w, m.stream)) && !w.endRun
    ensures BothOpen(p, Offer(p, w, m), r) && SameClient(w, Offer(p, w, m)) && Settled(Offer(p, w, m), r, m.stream)
  {
    hide BothShapes, BothBooks, Total, Settles;
    ActHealthy(p, w, r, DoOffer(m));
    var q, w' := Control(QueryBuffer, m.stream), Offer(p, w, m);
    assert Pipe(w', r) == Pipe(w, r) + [q];
    assert Pipe(r, w') == Pipe(r, w);
    TotalPush(p, Pipe(w, r), q, Tagged(Goodbye));
    SettlesPush(Pipe(w, r), q, Reported(Dlv(r, m.stream)), m.stream);
  }

  /** The schedule of the threads after a query has been left. */
  lemma Unblock(p: Pars, s: Sys, side: Side, k: nat) returns (run: seq<Event>)
    requires BothOpen(p, Me(s, side), Peer(s, side))
    requires Working(Peer(s, side), k) && Settled(Me(s, side), Peer(s, side), k)
    ensures Legal(p, s, run) && ThreadRun(run)
    ensures
      var t := After(p, s, run);
      && Est(Me(t, side), k).items == 0 && Est(Me(t, side), k).bytes == 0
      && SameClient(Me(s, side), Me(t, side)) && SameClient(Peer(s, side), Peer(t, side))
  {
    hide Healthy, Open, Next, Enabled;
    var a := DrainSender(p, s, side);
    var s1 := After(p, s, a);
    BothOpenFlips(p, s1, side);
    var b := DrainReaderDelivering(p, s1, Other(side), k);
    var s2 := After(p, s1, b);
    assert Pipe(Me(s2, side), Peer(s2, side)) == [];
    assert Reported(Dlv(Peer(s2, side), k));
    var c := DrainSender(p, s2, Other(side));
    var s3 := After(p, s2, c);
    BothOpenFlips(p, s3, Other(side));
    var d := DrainReader(p, s3, side);
    NothingUnderWay(p, Me(After(p, s3, d), side), Peer(After(p, s3, d), side), k);
    ThreadRunAppend(p, s2, c, d);
    ThreadRunAppend(p, s1, b, c + d);
    ThreadRunAppend(p, s, a, b + (c + d));
    run := a + (b + (c + d));
  }

  lemma BothOpenFlips(p: Pars, s: Sys, side: Side)
    requires BothOpen(p, Me(s, side), Peer(s, side))
    ensures BothOpen(p, Me(s, Other(side)), Peer(s, Other(side)))
  {
    hide Healthy;
    HealthyFlips(p, Me(s, side), Peer(s, side));
  }

  /** Back-pressure progress: from any state a run can reach in which a push is
      refused, the run phase and the channel being open and the stream's
      deliverer at work, finitely many steps of the threads alone bring the
      estimate to zero, and the push is accepted when offered again. */
  lemma RefusedPushGetsThrough(p: Pars, run: seq<Event>, side: Side, m: Message) returns (schedule: seq<Event>)
    requires p.Valid() && Legal(p, Start, run)
    requires
      var w, r := Me(After(p, Start, run), side), Peer(After(p, Start, run), side);
      && Can(p, w, r, DoOffer(m)) && Congested(p, w.audits[m.stream]) && !w.endRun
      && Open(p, w, r) && Open(p, r, w) && Working(r, m.stream)
    ensures
      var s := After(p, Start, run);
      var refused := Next(p, s, Event(side, DoOffer(m)));
      && Me(refused, side).offering == None
      && Legal(p, refused, schedule) && ThreadRun(schedule)
      && (var t := After(p, refused, schedule);
          && Est(Me(t, side), m.stream).items == 0 && Est(Me(t, side), m.stream).bytes == 0
          && Can(p, Me(t, side), Peer(t, side), DoOffer(m))
          && Me(Next(p, t, Event(side, DoOffer(m))), side).offering == Some(m))
  {
    hide Healthy, Open, Settled;
    var s := After(p, Start, run);
    HealthyAfter(p, run, side);
    RefusalAsks(p, Me(s, side), Peer(s, side), m);
    var refused := Next(p, s, Event(side, DoOffer(m)));
    SideStep(p, s, side, DoOffer(m));
    schedule := Unblock(p, refused, side, m.stream);
    SideStep(p, After(p, refused, schedule), side, DoOffer(m));
  }
}
