/**
 What the receiver thread makes of what it reads, over whole runs: which
 messages come to the channel's client, and when the thread leaves.
 */
module ChannelReading {
  import opened Messages
  import opened ChannelModel
  import opened ChannelInvariant
  import opened ChannelRuns
  import opened Shutdown

  /** A message that the channel keeps to itself. */
  predicate KeptBack(m: Message) {
    m.tag in {Goodbye, Cancel, UsedData, QueryBuffer, PushData}
  }

  /** The others of a queue, in order. */
  function ForClient(q: seq<Message>): seq<Message> {
    if q == [] then [] else (if KeptBack(q[0]) then [] else [q[0]]) + ForClient(q[1..])
  }

  lemma {:induction false} ForClientAppend(x: seq<Message>, y: seq<Message>)
    ensures ForClient(x + y) == ForClient(x) + ForClient(y)
  {
    if x == [] {
      assert x + y == y;
    } else {
      assert (x + y)[1..] == x[1..] + y;
      ForClientAppend(x[1..], y);
    }
  }

  lemma ForClientPush(q: seq<Message>, m: Message)
    ensures ForClient(q + [m]) == ForClient(q) + if KeptBack(m) then [] else [m]
  {
    ForClientAppend(q, [m]);
    assert [m][1..] == [];
  }

  /** What has been read, without the message that the thread still holds. */
  function DoneWith(r: End): seq<Message> {
    if r.reader.Got? && r.log.received != [] then r.log.received[..|r.log.received| - 1] else r.log.received
  }

  /** The records of the reading end. */
  ghost predicate ReadSoFar(r: End) {
    && (r.reader.Got? ==> r.log.received != [] && r.log.received[|r.log.received| - 1] == r.reader.m)
    && r.inbox == ForClient(DoneWith(r))
    && (r.reader == Left <==> !Lacks(DoneWith(r), Goodbye))
  }

  predicate SameReading(r: End, r': End) {
    && r'.log.received == r.log.received && r'.inbox == r.inbox
    && (r'.reader == r.reader || (r.reader.Replying? && r'.reader == Waiting))
  }

  lemma ReceiveReads(r: End, m: Message)
    requires ReadSoFar(r) && r.reader == Waiting && Receive(r, m).fault == None
    ensures ReadSoFar(Receive(r, m))
  {
    assert (r.log.received + [m])[..|r.log.received|] == r.log.received;
  }

  /** What handling a message does to the reading, whatever else it does. */
  lemma DispatchPasses(p: Pars, r: End)
    requires r.reader.Got? && Dispatch(p, r).fault == None && r.fault == None
    ensures
      var m, r' := r.reader.m, Dispatch(p, r);
      && r'.log.received == r.log.received && !r'.reader.Got?
      && r'.inbox == r.inbox + (if KeptBack(m) then [] else [m])
      && (r'.reader == Left <==> m.tag == Goodbye)
  {
    hide DeliverPush, Unpack;
  }

  lemma DispatchReads(p: Pars, r: End)
    requires ReadSoFar(r) && r.reader.Got? && r.fault == None && Dispatch(p, r).fault == None
    ensures ReadSoFar(Dispatch(p, r))
  {
    DispatchPasses(p, r);
    hide Dispatch;
    var done, m, got := DoneWith(r), r.reader.m, r.log.received;
    assert got == done + [m];
    ForClientPush(done, m);
    assert Lacks(got, Goodbye) <==> Lacks(done, Goodbye) && m.tag != Goodbye by {
      assert got[|done|] == m;
      assert forall i :: 0 <= i < |done| ==> got[i] == done[i];
    }
  }

  lemma OthersRead(p: Pars, r: End, w: End, op: Op)
    requires Can(p, r, w, op) && op != DoReceive && op != DoDispatch
    ensures SameReading(r, Act(p, r, w, op))
  {
    hide Dispatch, DeliverPull, DeliverHandle, DeliverFlush, Sound;
    if DelivererOp(op) {
      DelivererReads(p, r, w, op);
    }
  }

  lemma DelivererReads(p: Pars, r: End, w: End, op: Op)
    requires Can(p, r, w, op) && DelivererOp(op)
    ensures SameReading(r, Act(p, r, w, op))
  {
  }

  lemma ActReads(p: Pars, r: End, w: End, op: Op)
    requires ReadSoFar(r) && Can(p, r, w, op) && r.fault == None && Act(p, r, w, op).fault == None
    ensures ReadSoFar(Act(p, r, w, op))
  {
    if op == DoReceive {
      ReceiveReads(r, w.wire[0]);
    } else if op == DoDispatch {
      DispatchReads(p, r);
    } else {
      OthersRead(p, r, w, op);
      hide Act, Can;
    }
  }

  lemma NextReads(p: Pars, s: Sys, e: Event)
    requires Healthy(p, s.a, s.b) && Enabled(p, s, e) && ReadSoFar(s.a) && ReadSoFar(s.b)
    ensures ReadSoFar(Next(p, s, e).a) && ReadSoFar(Next(p, s, e).b)
  {
    NextHealthy(p, s, e);
    hide ReadSoFar, Act, Can, BothShapes;
    if e.side == SideA {
      ActReads(p, s.a, s.b, e.op);
      ReactReads(s.b, e.op);
    } else {
      ActReads(p, s.b, s.a, e.op);
      ReactReads(s.a, e.op);
    }
  }

  lemma ReactReads(r: End, op: Op)
    requires ReadSoFar(r)
    ensures ReadSoFar(React(r, op))
  {
    hide ForClient, Lacks;
  }

  lemma {:induction false} RunReads(p: Pars, s: Sys, run: seq<Event>)
    requires Healthy(p, s.a, s.b) && Legal(p, s, run) && ReadSoFar(s.a) && ReadSoFar(s.b)
    ensures ReadSoFar(After(p, s, run).a) && ReadSoFar(After(p, s, run).b)
    decreases |run|
  {
    hide Healthy, ReadSoFar, Enabled, Next;
    if run != [] {
      NextReads(p, s, run[0]);
      NextHealthy(p, s, run[0]);
      RunReads(p, Next(p, s, run[0]), run[1..]);
    }
  }

  /** In every run: what the client of an end has been passed is, in order, all that
      its receiver thread has read and is done with, apart from the messages that
      the channel keeps to itself; and the thread has left if and only if a GOODBYE
      is among those it is done with. */
  lemma InboxIsWhatWasRead(p: Pars, run: seq<Event>, side: Side)
    requires p.Valid() && Legal(p, Start, run)
    ensures
      var r := Me(After(p, Start, run), side);
      var done := DoneWith(r);
      && r.log.received == done + Held(r.reader)
      && r.inbox == ForClient(done)
      && (r.reader == Left <==> exists i :: 0 <= i < |done| && done[i].tag == Goodbye)
  {
    StartHealthy(p);
    RunReads(p, Start, run);
  }

  lemma {:induction false} ForClientOutgoing(p: Pars, q: seq<Message>)
    ensures ForClient(Outgoing(p, q)) == ForClient(Unflushed(q))
  {
    if q != [] {
      ForClientOutgoing(p, q[1..]);
      var m, rest, plain := q[0], Outgoing(p, q[1..]), Unflushed(q[1..]);
      if m.tag == Flush {
        assert [] + rest == rest && [] + plain == plain;
      } else {
        ForClientAppend([Pack(p, m)], rest);
        ForClientAppend([m], plain);
        assert [m][1..] == [] && [Pack(p, m)][1..] == [];
      }
    }
  }

  /** A queue without its FLUSHes. */
  function Unflushed(q: seq<Message>): seq<Message> {
    if q == [] then [] else (if q[0].tag == Flush then [] else [q[0]]) + Unflushed(q[1..])
  }

  lemma {:induction false} UnflushedAppend(x: seq<Message>, y: seq<Message>)
    ensures Unflushed(x + y) == Unflushed(x) + Unflushed(y)
  {
    if x == [] {
      assert x + y == y;
    } else {
      assert (x + y)[1..] == x[1..] + y;
      UnflushedAppend(x[1..], y);
    }
  }

  /** From end to end: what a client has been passed is a prefix of what was queued for
      it at the other end, each message as it was put, whatever is compressed. */
  lemma ClientsHearEachOther(p: Pars, run: seq<Event>, side: Side)
    requires p.Valid() && Legal(p, Start, run)
    ensures
      var s := After(p, Start, run);
      Peer(s, side).inbox <= ForClient(Unflushed(Me(s, side).log.enqueued))
  {
    hide Legal, After, Outgoing, ForClient, Unflushed;
    InboxIsWhatWasRead(p, run, if side == SideA then SideB else SideA);
    ReachedTidy(p, run, side);
    ClientHears(p, Me(After(p, Start, run), side), Peer(After(p, Start, run), side));
  }

  lemma ClientHears(p: Pars, w: End, r: End)
    requires TidyWriter(p, w) && TidyReader(w, r)
    requires r.log.received == DoneWith(r) + Held(r.reader) && r.inbox == ForClient(DoneWith(r))
    ensures r.inbox <= ForClient(Unflushed(w.log.enqueued))
  {
    var done := DoneWith(r);
    var handled, queued := w.log.handled, w.log.enqueued;
    hide Outgoing, ForClient, Unflushed, DoneWith;
    assert w.log.sent == done + w.log.sent[|done|..];
    assert queued == handled + queued[|handled|..];
    ForClientAppend(done, w.log.sent[|done|..]);
    ForClientOutgoing(p, handled);
    UnflushedAppend(handled, queued[|handled|..]);
    ForClientAppend(Unflushed(handled), Unflushed(queued[|handled|..]));
  }
}
