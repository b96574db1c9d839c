/**
 GOODBYE and FLUSH: what is known to have been sent and read when a thread has
 exited or a flush has returned.
 */
module Shutdown {
  import opened Messages
  import opened ChannelModel
  import opened Ledger
  import opened ChannelInvariant
  import opened ChannelRuns
  import opened Progress
  import opened SenderReach

  /** What the sender thread writes for a queue of messages: a FLUSH is not sent. */
  function Outgoing(p: Pars, q: seq<Message>): seq<Message> {
    if q == [] then []
    else (if q[0].tag == Flush then [] else [Pack(p, q[0])]) + Outgoing(p, q[1..])
  }

  lemma {:induction false} OutgoingAppend(p: Pars, x: seq<Message>, y: seq<Message>)
    ensures Outgoing(p, x + y) == Outgoing(p, x) + Outgoing(p, y)
  {
    if x == [] {
      assert x + y == y;
    } else {
      assert (x + y)[1..] == x[1..] + y;
      OutgoingAppend(p, x[1..], y);
    }
  }

  lemma OutgoingPush(p: Pars, x: seq<Message>, m: Message)
    ensures Outgoing(p, x + [m]) == Outgoing(p, x) + if m.tag == Flush then [] else [Pack(p, m)]
  {
    OutgoingAppend(p, x, [m]);
    assert [m][1..] == [];
  }

  predicate Lacks(q: seq<Message>, t: Tag) {
    forall i :: 0 <= i < |q| ==> q[i].tag != t
  }

  /** Only the last message has the tag. */
  predicate EndsWith(q: seq<Message>, t: Tag) {
    q != [] && q[|q| - 1].tag == t && Lacks(q[..|q| - 1], t)
  }

  /** The records of the writing end. */
  ghost predicate TidyWriter(p: Pars, w: End) {
    && w.log.enqueued == w.log.handled + InHand(w.hand) + w.sendQ
    && w.log.sent == Outgoing(p, w.log.handled)
    && (w.hand != Exited ==> Lacks(w.log.handled, Goodbye))
    && (w.hand == Exited ==> EndsWith(w.log.handled, Goodbye))
    && (w.flushed <==> !Lacks(w.log.handled, Flush))
    && (w.hand.Charged? ==> w.hand.m.tag != Flush)
  }

  ghost predicate TidyReader(w: End, r: End) {
    && w.log.sent == r.log.received + w.wire
    && (r.reader.Got? ==> r.log.received != [] && r.log.received[|r.log.received| - 1] == r.reader.m)
    && (r.reader == Left ==> r.log.received != [] && r.log.received[|r.log.received| - 1].tag == Goodbye)
  }

  /** Nothing about sending or flushing has changed. */
  predicate SameRecords(w: End, w': End) {
    && w'.log.handled == w.log.handled && w'.log.sent == w.log.sent && w'.log.enqueued == w.log.enqueued
    && w'.hand == w.hand && w'.sendQ == w.sendQ && w'.flushed == w.flushed && w'.wire == w.wire
  }

  lemma QueueTidy(p: Pars, w: End, m: Message)
    requires TidyWriter(p, w)
    ensures TidyWriter(p, Queue(w, m))
  {
  }

  lemma PullTidy(p: Pars, w: End)
    requires TidyWriter(p, w) && w.hand == Idle && w.sendQ != []
    ensures TidyWriter(p, Pull(w))
  {
    hide Outgoing;
    assert w.sendQ == [w.sendQ[0]] + w.sendQ[1..];
  }

  lemma PrepareTidy(p: Pars, w: End)
    requires TidyWriter(p, w) && w.hand.Pulled? && (w.hand.m.tag == PushData ==> w.hand.m.stream < |w.audits|)
    ensures TidyWriter(p, Prepare(p, w))
  {
    OutgoingPush(p, w.log.handled, w.hand.m);
    if w.hand.m.tag == PushData {
      PrepareData(p, w);
      var c := ChargeOnly(p, w);
      var j := w.hand.m.stream;
      assert TidyWriter(p, c);
      QueueTidy(p, c.(audits := c.audits[j := c.audits[j].(queries := c.audits[j].queries + 1)]),
                Control(QueryBuffer, j));
    } else if w.hand.m.tag == Flush {
      var h := w.log.handled + [w.hand.m];
      assert h[|h| - 1].tag == Flush;
    }
  }

  lemma SendTidy(p: Pars, w: End)
    requires TidyWriter(p, w) && w.hand.Charged?
    ensures TidyWriter(p, Send(p, w))
  {
    hide Outgoing, Pack;
    OutgoingPush(p, w.log.handled, w.hand.m);
    var h := w.log.handled + [w.hand.m];
    assert h[..|h| - 1] == w.log.handled;
    assert forall i :: 0 <= i < |w.log.handled| ==> h[i] == w.log.handled[i];
  }

  predicate QuietOp(op: Op) {
    op.DoEndRun? || op.DoReceive? || op.DoDispatch? || op.DoRoute? || op.DoStop? || op.DoBreak?
    || op.DoTake? || op.DoHandle? || op.DoDrop?
  }

  lemma CreditKeepsRecords(w: End, m: Message)
    ensures SameRecords(w, Credit(w, m)) && Credit(w, m).log.received == w.log.received
    ensures !Credit(w, m).reader.Got? && (Credit(w, m).reader == Left ==> Credit(w, m).fault.Some?)
    ensures w.fault.Some? ==> Credit(w, m).fault.Some?
  {
  }

  lemma AnswerKeepsRecords(w: End, m: Message)
    ensures SameRecords(w, Answer(w, m)) && Answer(w, m).log.received == w.log.received
    ensures !Answer(w, m).reader.Got? && (Answer(w, m).reader == Left ==> Answer(w, m).fault.Some?)
    ensures w.fault.Some? ==> Answer(w, m).fault.Some?
  {
  }

  lemma RouteKeepsRecords(p: Pars, w: End, m: Message)
    ensures SameRecords(w, Route(p, w, m)) && Route(p, w, m).log.received == w.log.received
    ensures !Route(p, w, m).reader.Got? && (Route(p, w, m).reader == Left ==> Route(p, w, m).fault.Some?)
    ensures w.fault.Some? ==> Route(p, w, m).fault.Some?
  {
    hide DeliverPush, Unpack;
  }

  lemma DispatchKeepsRecords(p: Pars, w: End)
    requires w.reader.Got?
    ensures SameRecords(w, Dispatch(p, w)) && Dispatch(p, w).log.received == w.log.received
    ensures !Dispatch(p, w).reader.Got?
    ensures Dispatch(p, w).fault == None && Dispatch(p, w).reader == Left ==> w.reader.m.tag == Goodbye || w.fault.Some?
    ensures w.fault.Some? ==> Dispatch(p, w).fault.Some?
  {
    hide Credit, Answer, Route;
    CreditKeepsRecords(w, w.reader.m);
    AnswerKeepsRecords(w, w.reader.m);
    RouteKeepsRecords(p, w, w.reader.m);
  }

  lemma DelivererKeepsRecords(p: Pars, w: End, r: End, op: Op)
    requires Can(p, w, r, op) && DelivererOp(op)
    ensures SameRecords(w, Act(p, w, r, op))
    ensures Act(p, w, r, op).reader == w.reader && Act(p, w, r, op).log == w.log
  {
  }

  lemma QuietKeepsRecords(p: Pars, w: End, r: End, op: Op)
    requires Can(p, w, r, op) && QuietOp(op)
    ensures SameRecords(w, Act(p, w, r, op))
  {
    hide Dispatch;
    if op == DoDispatch {
      DispatchKeepsRecords(p, w);
    } else if DelivererOp(op) {
      DelivererKeepsRecords(p, w, r, op);
    }
  }

  lemma SameRecordsTidy(p: Pars, w: End, w': End)
    requires TidyWriter(p, w) && SameRecords(w, w')
    ensures TidyWriter(p, w')
  {
    hide Outgoing;
  }

  lemma WriterTidy(p: Pars, w: End, r: End, op: Op)
    requires BothShapes(p, w, r) && TidyWriter(p, w) && Can(p, w, r, op)
    ensures TidyWriter(p, Act(p, w, r, op))
  {
    if QuietOp(op) {
      hide Act, Can;
      QuietKeepsRecords(p, w, r, op);
      SameRecordsTidy(p, w, Act(p, w, r, op));
    } else {
      BusyWriterTidy(p, w, r, op);
    }
  }

  lemma BusyWriterTidy(p: Pars, w: End, r: End, op: Op)
    requires BothShapes(p, w, r) && TidyWriter(p, w) && Can(p, w, r, op) && !QuietOp(op)
    ensures TidyWriter(p, Act(p, w, r, op))
  {
    hide Prepare, Dispatch, Outgoing, Sound, DeliverPull, DeliverHandle, DeliverFlush, Lacks, EndsWith;
    match op
    case DoOffer(m) => QueueTidy(p, w, Control(QueryBuffer, m.stream));
    case DoEnqueue => QueueTidy(p, w, w.offering.value);
    case DoPut(m) => QueueTidy(p, w, m);
    case DoTimeout => QueueTidy(p, w, Control(KeepAlive, 0));
    case DoPull => PullTidy(p, w);
    case DoPrepare => PrepareTidy(p, w);
    case DoSend => SendTidy(p, w);
    case DoReply => QueueTidy(p, w, Control(UsedData, w.reader.stream, w.reader.audit));
  }

  /** Only the sender thread writes to the wire. */
  lemma WriterLeavesWire(p: Pars, w: End, r: End, op: Op)
    requires Can(p, w, r, op) && op != DoSend
    ensures Act(p, w, r, op).wire == w.wire && Act(p, w, r, op).log.sent == w.log.sent
  {
    hide Dispatch, DeliverPull, DeliverHandle, DeliverFlush, Sound;
    if QuietOp(op) {
      QuietKeepsRecords(p, w, r, op);
    }
  }

  lemma WriterTidyReader(p: Pars, w: End, r: End, op: Op)
    requires TidyReader(w, r) && Can(p, w, r, op)
    ensures TidyReader(Act(p, w, r, op), React(r, op))
  {
    if op != DoSend {
      hide Act, Can;
      WriterLeavesWire(p, w, r, op);
    }
  }

  /** The other steps of the reading end leave its reading alone. */
  lemma ReaderLeavesReading(p: Pars, w: End, r: End, op: Op)
    requires Can(p, r, w, op) && op != DoReceive && op != DoDispatch && op != DoReply
    ensures Act(p, r, w, op).reader == r.reader && Act(p, r, w, op).log.received == r.log.received
  {
    hide Dispatch, DeliverPull, DeliverHandle, DeliverFlush, Sound;
    if DelivererOp(op) {
      DelivererKeepsRecords(p, r, w, op);
    }
  }

  lemma ReaderTidyReader(p: Pars, w: End, r: End, op: Op)
    requires TidyReader(w, r) && Can(p, r, w, op) && r.fault == None && Act(p, r, w, op).fault == None
    ensures TidyReader(React(w, op), Act(p, r, w, op))
  {
    hide Dispatch, Sound, DeliverPull, DeliverHandle, DeliverFlush;
    if op == DoDispatch {
      DispatchKeepsRecords(p, r);
    } else if op != DoReceive && op != DoReply {
      ReaderLeavesReading(p, w, r, op);
    }
  }

  ghost predicate Tidy(p: Pars, x: End, y: End) {
    TidyWriter(p, x) && TidyWriter(p, y) && TidyReader(x, y) && TidyReader(y, x)
  }

  lemma ReactTidy(p: Pars, w: End, op: Op)
    requires TidyWriter(p, w)
    ensures TidyWriter(p, React(w, op))
  {
  }

  lemma NextTidy(p: Pars, s: Sys, e: Event)
    requires Healthy(p, s.a, s.b) && Tidy(p, s.a, s.b) && Enabled(p, s, e)
    ensures Tidy(p, Next(p, s, e).a, Next(p, s, e).b)
  {
    hide TidyWriter, TidyReader, BothShapes, Act, Can, React;
    NextHealthy(p, s, e);
    HealthyFlips(p, s.a, s.b);
    var x, y := Me(s, e.side), Peer(s, e.side);
    WriterTidy(p, x, y, e.op);
    ReactTidy(p, y, e.op);
    WriterTidyReader(p, x, y, e.op);
    ReaderTidyReader(p, y, x, e.op);
  }

  lemma {:induction false} RunTidy(p: Pars, s: Sys, run: seq<Event>)
    requires Healthy(p, s.a, s.b) && Tidy(p, s.a, s.b) && Legal(p, s, run)
    ensures Healthy(p, After(p, s, run).a, After(p, s, run).b) && Tidy(p, After(p, s, run).a, After(p, s, run).b)
    decreases |run|
  {
    hide Healthy, Tidy, Enabled, Next;
    if run != [] {
      NextHealthy(p, s, run[0]);
      NextTidy(p, s, run[0]);
      RunTidy(p, Next(p, s, run[0]), run[1..]);
    }
  }

  lemma ReachedTidy(p: Pars, run: seq<Event>, side: Side)
    requires p.Valid() && Legal(p, Start, run)
    ensures
      var s := After(p, Start, run);
      Healthy(p, s.a, s.b) && TidyWriter(p, Me(s, side)) && TidyReader(Me(s, side), Peer(s, side))
  {
    StartHealthy(p);
    RunTidy(p, Start, run);
  }

  // ---------------------------------------------------------------------------
  // The theorems

  /** Clean shutdown: when a receiver thread has exited, the peer's sender thread
      has too, the wire between them is empty, and everything queued up to and
      including the first GOODBYE, flushes apart, has been sent and read, in order. */
  lemma CleanShutdown(p: Pars, run: seq<Event>, side: Side)
    requires p.Valid() && Legal(p, Start, run)
    requires Peer(After(p, Start, run), side).reader == Left
    ensures
      var w, r := Me(After(p, Start, run), side), Peer(After(p, Start, run), side);
      && w.hand == Exited && w.wire == []
      && r.log.received == w.log.sent == Outgoing(p, w.log.handled)
      && w.log.handled <= w.log.enqueued && EndsWith(w.log.handled, Goodbye)
  {
    ReachedTidy(p, run, side);
    var w, r := Me(After(p, Start, run), side), Peer(After(p, Start, run), side);
    var got := r.log.received;
    assert w.log.sent[|got| - 1] == got[|got| - 1];
    if w.hand != Exited {
      OutgoingLacks(p, w.log.handled, Goodbye);
      assert false;
    }
    var h := w.log.handled;
    OutgoingPush(p, h[..|h| - 1], h[|h| - 1]);
    assert h == h[..|h| - 1] + [h[|h| - 1]];
    OutgoingLacks(p, h[..|h| - 1], Goodbye);
    assert |got| == |w.log.sent|;
  }

  lemma {:induction false} OutgoingLacks(p: Pars, q: seq<Message>, t: Tag)
    requires Lacks(q, t)
    ensures Lacks(Outgoing(p, q), t)
  {
    if q != [] {
      assert forall i :: 0 <= i < |q[1..]| ==> q[1..][i] == q[i + 1];
      OutgoingLacks(p, q[1..], t);
    }
  }

  lemma ExitedIsFinalNext(p: Pars, s: Sys, e: Event, side: Side)
    requires Enabled(p, s, e) && Me(s, side).hand == Exited
    ensures Me(Next(p, s, e), side).hand == Exited && Me(Next(p, s, e), side).log.sent == Me(s, side).log.sent
  {
    hide Dispatch, DeliverPull, DeliverHandle, DeliverFlush, Sound;
    if e.side == side && QuietOp(e.op) {
      QuietKeepsRecords(p, Me(s, side), Peer(s, side), e.op);
    }
  }

  /** Nothing is sent after GOODBYE, whatever the rest of the run. */
  lemma {:induction false} NothingAfterGoodbye(p: Pars, s: Sys, run: seq<Event>, side: Side)
    requires Legal(p, s, run) && Me(s, side).hand == Exited
    ensures Me(After(p, s, run), side).hand == Exited && Me(After(p, s, run), side).log.sent == Me(s, side).log.sent
    decreases |run|
  {
    hide Enabled, Next;
    if run != [] {
      ExitedIsFinalNext(p, s, run[0], side);
      NothingAfterGoodbye(p, Next(p, s, run[0]), run[1..], side);
    }
  }

  /** Nor is anything ever sent that was queued behind the first GOODBYE. */
  lemma SentUpToGoodbye(p: Pars, run: seq<Event>, side: Side, g: nat)
    requires p.Valid() && Legal(p, Start, run)
    requires
      var queued := Me(After(p, Start, run), side).log.enqueued;
      g < |queued| && queued[g].tag == Goodbye
    ensures
      var w := Me(After(p, Start, run), side);
      w.log.handled <= w.log.enqueued[..g + 1] && w.log.sent <= Outgoing(p, w.log.enqueued[..g + 1])
  {
    hide Enabled, Next, Outgoing;
    ReachedTidy(p, run, side);
    var w := Me(After(p, Start, run), side);
    var handled, head := w.log.handled, w.log.enqueued[..g + 1];
    assert |handled| > g ==> handled[g] == w.log.enqueued[g];
    assert |handled| <= g + 1;
    OutgoingPrefix(p, handled, head);
  }

  lemma EnqueuedGrowsAct(p: Pars, w: End, r: End, op: Op)
    requires Can(p, w, r, op)
    ensures w.log.enqueued <= Act(p, w, r, op).log.enqueued
  {
    hide Dispatch, DeliverPull, DeliverHandle, DeliverFlush, Sound;
    if QuietOp(op) {
      QuietKeepsRecords(p, w, r, op);
    }
  }

  lemma EnqueuedGrowsNext(p: Pars, s: Sys, e: Event, side: Side)
    requires Enabled(p, s, e)
    ensures Me(s, side).log.enqueued <= Me(Next(p, s, e), side).log.enqueued
  {
    hide Act, Can;
    if e.side == side {
      EnqueuedGrowsAct(p, Me(s, side), Peer(s, side), e.op);
    }
  }

  lemma {:induction false} EnqueuedGrows(p: Pars, s: Sys, run: seq<Event>, side: Side)
    requires Legal(p, s, run)
    ensures Me(s, side).log.enqueued <= Me(After(p, s, run), side).log.enqueued
    decreases |run|
  {
    hide Enabled, Next;
    if run != [] {
      EnqueuedGrowsNext(p, s, run[0], side);
      EnqueuedGrows(p, Next(p, s, run[0]), run[1..], side);
    }
  }

  /** A call of `flush`: its message is queued, and it returns once `flushed` is set. */
  function FlushCall(side: Side): Event {
    Event(side, DoPut(Control(Flush, 0)))
  }

  /** Whenever a flush called now returns, all that was queued has been sent. */
  ghost predicate FlushKeepsPromise(p: Pars, s: Sys, side: Side) {
    forall more: seq<Event> :: Legal(p, s, [FlushCall(side)] + more) ==> KeptAfter(p, s, side, [FlushCall(side)] + more)
  }

  /** If the flag is set after the run, what was queued before it has been sent. */
  ghost predicate KeptAfter(p: Pars, s: Sys, side: Side, run: seq<Event>)
    requires Legal(p, s, run)
  {
    Me(After(p, s, run), side).flushed ==>
      Outgoing(p, Me(s, side).log.enqueued) <= Me(After(p, s, run), side).log.sent
  }

  lemma FlushSends(p: Pars, run: seq<Event>, more: seq<Event>, side: Side)
    requires p.Valid() && Legal(p, Start, run) && Legal(p, After(p, Start, run), [FlushCall(side)] + more)
    requires
      var w := Me(After(p, Start, run), side);
      !w.flushed && Lacks(InHand(w.hand), Flush) && Lacks(w.sendQ, Flush)
    requires Me(After(p, After(p, Start, run), [FlushCall(side)] + more), side).flushed
    ensures
      var s := After(p, Start, run);
      var w := Me(After(p, s, [FlushCall(side)] + more), side);
      Me(s, side).log.enqueued <= w.log.handled && Outgoing(p, Me(s, side).log.enqueued) <= w.log.sent
  {
    hide Enabled, Next;
    var s := After(p, Start, run);
    var rest := [FlushCall(side)] + more;
    var w, w' := Me(s, side), Me(After(p, s, rest), side);
    ReachedTidy(p, run, side);
    RunAppend(p, Start, run, rest);
    ReachedTidy(p, run + rest, side);
    EnqueuedGrows(p, s, rest, side);
    var before, handled := w.log.enqueued, w'.log.handled;
    assert Lacks(before, Flush);
    var all := w'.log.enqueued;
    assert |handled| > |before| by {
      assert forall i :: 0 <= i < |handled| ==> handled[i] == all[i];
      assert forall i :: 0 <= i < |before| ==> before[i] == all[i];
    }
    OutgoingPrefix(p, before, handled);
  }

  /** What a flush called now does not wait for: all that is pending, once the flag is
      set; what is queued behind an earlier FLUSH, if the sender thread comes to it. */
  function Unawaited(w: End): seq<Message> {
    if w.flushed then InHand(w.hand) + w.sendQ
    else if CanReach(w, AFlush) then Uncharged(w)[Place(Uncharged(w), AFlush).value + 1..]
    else []
  }

  /** A flush keeps its promise exactly when there is nothing to send in what it does not
      wait for: the flag is never cleared, and any FLUSH sets it. */
  lemma FlushPromise(p: Pars, run: seq<Event>, side: Side)
    requires p.Valid() && Legal(p, Start, run)
    ensures
      var s := After(p, Start, run);
      FlushKeepsPromise(p, s, side) <==> Outgoing(p, Unawaited(Me(s, side))) == []
  {
    hide Enabled, Next, Outgoing, Unawaited, KeptAfter;
    var s := After(p, Start, run);
    if Outgoing(p, Unawaited(Me(s, side))) == [] {
      forall more: seq<Event> | Legal(p, s, [FlushCall(side)] + more)
        ensures KeptAfter(p, s, side, [FlushCall(side)] + more)
      {
        PromiseKept(p, run, [FlushCall(side)] + more, side);
      }
    } else {
      var more := PromiseBroken(p, run, side);
    }
  }

  /** What was queued, by what has been handled, what a flush waits for and what it does not. */
  lemma UnawaitedIsLast(p: Pars, w: End)
    requires TidyWriter(p, w)
    ensures
      var ahead := if !w.flushed && CanReach(w, AFlush) then
                     Ahead(w, AFlush) + [Uncharged(w)[Place(Uncharged(w), AFlush).value]]
                   else if w.flushed then w.log.handled
                   else w.log.enqueued;
      w.log.enqueued == ahead + Unawaited(w)
  {
    hide Outgoing, Place, Lacks, EndsWith;
    var past, q := w.log.handled + ChargedHand(w.hand), Uncharged(w);
    assert w.log.enqueued == past + q;
    if w.flushed {
      assert w.log.enqueued == w.log.handled + Unawaited(w);
    } else if CanReach(w, AFlush) {
      hide TidyWriter, Uncharged, ChargedHand;
      CutAt(past, q, Place(q, AFlush).value);
    }
  }

  lemma CutAt(past: seq<Message>, q: seq<Message>, n: nat)
    requires n < |q|
    ensures past + q == past + q[..n] + [q[n]] + q[n + 1..]
  {
  }

  lemma PromiseKept(p: Pars, run: seq<Event>, more: seq<Event>, side: Side)
    requires p.Valid() && Legal(p, Start, run) && Legal(p, After(p, Start, run), more)
    requires Outgoing(p, Unawaited(Me(After(p, Start, run), side))) == []
    ensures KeptAfter(p, After(p, Start, run), side, more)
  {
    hide Enabled, Next, Outgoing, Unawaited, CanReach;
    var s := After(p, Start, run);
    var w, w' := Me(s, side), Me(After(p, s, more), side);
    ReachedTidy(p, run, side);
    HandledGrows(p, run, more, side);
    if w.flushed {
      UnawaitedIsLast(p, w);
      OutgoingAppend(p, w.log.handled, Unawaited(w));
    } else if w'.flushed {
      RunAppend(p, Start, run, more);
      ReachedTidy(p, run + more, side);
      EnqueuedGrows(p, s, more, side);
      FirstFlushSends(p, w, w');
    }
  }

  /** Once the flag is set, everything ahead of the first FLUSH has been sent. */
  lemma FirstFlushSends(p: Pars, w: End, w': End)
    requires TidyWriter(p, w) && TidyWriter(p, w') && !w.flushed && w'.flushed
    requires w.log.enqueued <= w'.log.enqueued && w.log.handled <= w'.log.handled
    requires Outgoing(p, Unawaited(w)) == []
    ensures Outgoing(p, w.log.enqueued) <= w'.log.sent
  {
    var before, handled := w.log.enqueued, w'.log.handled;
    assert handled <= w'.log.enqueued && w'.log.sent == Outgoing(p, handled);
    assert Lacks(w.log.handled, Flush) && !Lacks(handled, Flush);
    assert Lacks(handled, Goodbye) || EndsWith(handled, Goodbye);
    hide Outgoing, TidyWriter, Unawaited, CanReach, Place, Ahead, Lacks, EndsWith;
    if |before| <= |handled| {
      assert before <= handled;
      OutgoingPrefix(p, before, handled);
    } else {
      assert handled <= before;
      FlushAhead(p, w, handled);
      UnawaitedIsLast(p, w);
      var ahead := Ahead(w, AFlush) + [Uncharged(w)[Place(Uncharged(w), AFlush).value]];
      OutgoingAppend(p, ahead, Unawaited(w));
      OutgoingPrefix(p, ahead, handled);
    }
  }

  lemma OutgoingPrefix(p: Pars, x: seq<Message>, y: seq<Message>)
    requires x <= y
    ensures Outgoing(p, x) <= Outgoing(p, y)
  {
    hide Outgoing;
    assert y == x + y[|x|..];
    OutgoingAppend(p, x, y[|x|..]);
  }

  /** A FLUSH that has been handled by then was ahead of all GOODBYEs. */
  lemma FlushAhead(p: Pars, w: End, handled: seq<Message>)
    requires TidyWriter(p, w) && w.log.handled <= handled <= w.log.enqueued
    requires !Lacks(handled, Flush) && Lacks(w.log.handled, Flush)
    requires Lacks(handled, Goodbye) || EndsWith(handled, Goodbye)
    ensures CanReach(w, AFlush)
    ensures Ahead(w, AFlush) + [Uncharged(w)[Place(Uncharged(w), AFlush).value]] <= handled
  {
    var past, q := w.log.handled + ChargedHand(w.hand), Uncharged(w);
    assert w.log.enqueued == past + q && Lacks(past, Flush);
    var i :| 0 <= i < |handled| && handled[i].tag == Flush;
    NoneBefore(handled, i);
    PastLacks(past, q, handled, i);
    GoesOn(p, w);
    hide Outgoing, Place, Lacks, EndsWith, TidyWriter;
    FlushInQueue(past, q, handled, i);
    assert CanReach(w, AFlush) && Ahead(w, AFlush) == past + q[..Place(q, AFlush).value];
  }

  lemma PastLacks(past: seq<Message>, q: seq<Message>, handled: seq<Message>, i: nat)
    requires handled <= past + q && Lacks(past, Flush) && i < |handled| && handled[i].tag == Flush
    requires Lacks(handled[..i], Goodbye)
    ensures |past| <= i && Lacks(past, Goodbye)
  {
    assert handled[i] == (past + q)[i];
    assert |past| <= i;
    assert past == handled[..i][..|past|];
  }

  lemma GoesOn(p: Pars, w: End)
    requires TidyWriter(p, w) && Lacks(w.log.handled + ChargedHand(w.hand), Goodbye)
    ensures w.hand != Exited && !(w.hand.Charged? && w.hand.m.tag == Goodbye)
  {
    hide Outgoing;
    var past := w.log.handled + ChargedHand(w.hand);
    if w.hand == Exited || w.hand.Charged? {
      assert past[|past| - 1].tag != Goodbye;
    }
  }

  lemma NoneBefore(handled: seq<Message>, i: nat)
    requires i < |handled| && handled[i].tag == Flush
    requires Lacks(handled, Goodbye) || EndsWith(handled, Goodbye)
    ensures Lacks(handled[..i], Goodbye)
  {
    if EndsWith(handled, Goodbye) {
      assert handled[..i] == handled[..|handled| - 1][..i];
    }
  }

  lemma FlushInQueue(past: seq<Message>, q: seq<Message>, handled: seq<Message>, i: nat)
    requires handled <= past + q && |past| <= i < |handled| && handled[i].tag == Flush
    requires Lacks(handled[..i], Goodbye)
    ensures Place(q, AFlush).Some?
    ensures past + q[..Place(q, AFlush).value] + [q[Place(q, AFlush).value]] <= handled
  {
    var at := i - |past|;
    assert handled[i] == (past + q)[i] == q[at];
    forall j | 0 <= j < at ensures q[j].tag != Goodbye {
      assert q[j] == (past + q)[|past| + j] == handled[..i][|past| + j];
    }
    PlaceExists(q, at);
    var n := Place(q, AFlush).value;
    assert past + q[..n] + [q[n]] == (past + q)[..|past| + n + 1] == handled[..|past| + n + 1];
  }

  lemma {:induction false} PlaceExists(q: seq<Message>, i: nat)
    requires i < |q| && q[i].tag == Flush && forall j :: 0 <= j < i ==> q[j].tag != Goodbye
    ensures Place(q, AFlush).Some? && Place(q, AFlush).value <= i
  {
    if q[0].tag != Flush {
      assert q[1..][i - 1] == q[i];
      assert forall j :: 0 <= j < i - 1 ==> q[1..][j] == q[j + 1];
      PlaceExists(q[1..], i - 1);
    }
  }

  /** A continuation in which the flush returns too early. */
  lemma PromiseBroken(p: Pars, run: seq<Event>, side: Side) returns (more: seq<Event>)
    requires p.Valid() && Legal(p, Start, run)
    requires Outgoing(p, Unawaited(Me(After(p, Start, run), side))) != []
    ensures
      var s := After(p, Start, run);
      Legal(p, s, [FlushCall(side)] + more) && !KeptAfter(p, s, side, [FlushCall(side)] + more)
  {
    var s := After(p, Start, run);
    var w := Me(s, side);
    assert w.flushed || CanReach(w, AFlush);
    hide Enabled, Next, Outgoing, Unawaited, CanReach, Place;
    ReachedTidy(p, run, side);
    UnawaitedIsLast(p, w);
    if w.flushed {
      more := [];
      FlushReturnsAtOnce(p, s, side);
    } else {
      more := FlushOvertakes(p, run, side);
    }
    SentNoMore(p, run, [FlushCall(side)] + more, side);
  }

  /** With `flushed` set already, the call can return with nothing sent since. */
  lemma FlushReturnsAtOnce(p: Pars, s: Sys, side: Side)
    requires Me(s, side).flushed
    ensures
      var now := [FlushCall(side)] + [];
      && Legal(p, s, now) && Me(After(p, s, now), side).flushed
      && Me(After(p, s, now), side).log.handled == Me(s, side).log.handled
  {
    var now := [FlushCall(side)] + [];
    assert now[1..] == [];
    assert Sound(p, Control(Flush, 0));
  }

  lemma SentNoMore(p: Pars, run: seq<Event>, more: seq<Event>, side: Side)
    requires p.Valid() && Legal(p, Start, run) && Legal(p, After(p, Start, run), more)
    requires Outgoing(p, Unawaited(Me(After(p, Start, run), side))) != []
    requires
      var w, w' := Me(After(p, Start, run), side), Me(After(p, After(p, Start, run), more), side);
      && w'.flushed && |w'.log.handled| + |Unawaited(w)| == |w.log.enqueued|
      && w.log.enqueued[|w'.log.handled|..] == Unawaited(w)
    ensures !KeptAfter(p, After(p, Start, run), side, more)
  {
    hide Enabled, Next, Outgoing, Unawaited;
    var w, w' := Me(After(p, Start, run), side), Me(After(p, After(p, Start, run), more), side);
    RunAppend(p, Start, run, more);
    ReachedTidy(p, run + more, side);
    EnqueuedGrows(p, After(p, Start, run), more, side);
    var handled := w'.log.handled;
    assert handled <= w'.log.enqueued && w'.log.sent == Outgoing(p, handled);
    hide TidyWriter, TidyReader, Healthy, Legal, After;
    assert handled == w.log.enqueued[..|handled|];
    assert w.log.enqueued == handled + Unawaited(w);
    OutgoingAppend(p, handled, Unawaited(w));
  }

  /** The sender thread comes to the earlier FLUSH, and the flag is set. */
  lemma FlushOvertakes(p: Pars, run: seq<Event>, side: Side) returns (more: seq<Event>)
    requires p.Valid() && Legal(p, Start, run) && CanReach(Me(After(p, Start, run), side), AFlush)
    ensures
      var s := After(p, Start, run);
      && Legal(p, s, [FlushCall(side)] + more) && Me(After(p, s, [FlushCall(side)] + more), side).flushed
      && |Me(After(p, s, [FlushCall(side)] + more), side).log.handled| == |Ahead(Me(s, side), AFlush)| + 1
  {
    var s, call := After(p, Start, run), FlushCall(side);
    HealthyAfter(p, run, side);
    QueueReaches(Me(s, side), call.op.m);
    assert Can(p, Me(s, side), Peer(s, side), call.op);
    hide Enabled, Next, Healthy, Can, Place, CanReach, Ahead, Uncharged;
    ActHealthy(p, Me(s, side), Peer(s, side), call.op);
    SideStep(p, s, side, call.op);
    var s1 := Next(p, s, call);
    assert Me(s1, side) == Queue(Me(s, side), call.op.m);
    var first := Reach(p, s1, side, AFlush);
    var t := After(p, s1, first);
    SenderCan(p, Me(t, side), Peer(t, side));
    SideStep(p, t, side, DoPrepare);
    var last := Event(side, DoPrepare);
    assert [last][1..] == [];
    RunAppend(p, s1, first, [last]);
    more := first + [last];
    assert ([call] + more)[1..] == more;
  }

  lemma QueueReaches(w: End, m: Message)
    requires CanReach(w, AFlush)
    ensures CanReach(Queue(w, m), AFlush) && Ahead(Queue(w, m), AFlush) == Ahead(w, AFlush)
  {
    hide Place;
    assert Uncharged(Queue(w, m)) == Uncharged(w) + [m];
    PlaceAppend(Uncharged(w), m, AFlush);
  }

  // ---------------------------------------------------------------------------
  // Two flushes that return too early

  function Greeting(): Message {
    Control(Hello, 0)
  }

  /** A flush that has returned, and a message put since. */
  function FlushedOps(side: Side): seq<Event> {
    [FlushCall(side), Event(side, DoPull), Event(side, DoPrepare), Event(side, DoPut(Greeting()))]
  }

  /** A flush still under way, and a message put since. */
  function FlushingOps(side: Side): seq<Event> {
    [FlushCall(side), Event(side, DoPut(Greeting()))]
  }

  lemma SecondFlushBreaks(p: Pars, side: Side)
    requires p.Valid()
    ensures Legal(p, Start, FlushedOps(side)) && Me(After(p, Start, FlushedOps(side)), side).flushed
    ensures !FlushKeepsPromise(p, After(p, Start, FlushedOps(side)), side)
    ensures Legal(p, Start, FlushingOps(side)) && !Me(After(p, Start, FlushingOps(side)), side).flushed
    ensures !FlushKeepsPromise(p, After(p, Start, FlushingOps(side)), side)
  {
    hide FlushKeepsPromise;
    FlushedLeaves(p, side);
    FlushingLeaves(p, side);
    OutgoingPush(p, [], Greeting());
    FlushPromise(p, FlushedOps(side), side);
    FlushPromise(p, FlushingOps(side), side);
  }

  lemma FlushedLeaves(p: Pars, side: Side)
    ensures Legal(p, Start, FlushedOps(side))
    ensures
      var w := Me(After(p, Start, FlushedOps(side)), side);
      w.flushed && Unawaited(w) == [] + [Greeting()]
  {
    assert [Control(Flush, 0)][1..] == [];
  }

  lemma FlushingLeaves(p: Pars, side: Side)
    ensures Legal(p, Start, FlushingOps(side))
    ensures
      var w := Me(After(p, Start, FlushingOps(side)), side);
      !w.flushed && Unawaited(w) == [] + [Greeting()]
  {
  }

  lemma HandledGrows(p: Pars, run: seq<Event>, more: seq<Event>, side: Side)
    requires p.Valid() && Legal(p, Start, run) && Legal(p, After(p, Start, run), more)
    ensures
      var w, w' := Me(After(p, Start, run), side), Me(After(p, After(p, Start, run), more), side);
      w.log.handled <= w'.log.handled && Outgoing(p, w.log.handled) <= w'.log.sent
  {
    hide Enabled, Next;
    ReachedTidy(p, run, side);
    RunAppend(p, Start, run, more);
    ReachedTidy(p, run + more, side);
    HandledGrowsRun(p, After(p, Start, run), more, side);
    var h, h' := Me(After(p, Start, run), side).log.handled, Me(After(p, After(p, Start, run), more), side).log.handled;
    OutgoingPrefix(p, h, h');
  }

  lemma HandledGrowsNext(p: Pars, s: Sys, e: Event, side: Side)
    requires Enabled(p, s, e)
    ensures Me(s, side).log.handled <= Me(Next(p, s, e), side).log.handled
  {
    hide Dispatch, DeliverPull, DeliverHandle, DeliverFlush, Sound;
    var w, r := Me(s, side), Peer(s, side);
    if e.side == side && QuietOp(e.op) {
      QuietKeepsRecords(p, w, r, e.op);
    }
  }

  lemma {:induction false} HandledGrowsRun(p: Pars, s: Sys, run: seq<Event>, side: Side)
    requires Legal(p, s, run)
    ensures Me(s, side).log.handled <= Me(After(p, s, run), side).log.handled
    decreases |run|
  {
    hide Enabled, Next;
    if run != [] {
      HandledGrowsNext(p, s, run[0], side);
      HandledGrowsRun(p, Next(p, s, run[0]), run[1..], side);
    }
  }
}
