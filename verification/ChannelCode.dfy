/**
 The sockets channel object: `push`, `addRoutingEntry`, and the loops of the
 sender and receiver threads, each tied to the steps of the transition system.
 */
module ChannelCode {
  import opened Messages
  import opened ChannelModel
  import opened Fifo
  import opened DelivererCode
  import opened Progress

  // ---------------------------------------------------------------------------
  // What one turn of each loop amounts to in steps

  function SenderTurnOf(p: Pars, e: End): End
    requires e.hand == Idle && e.sendQ != []
  {
    var e' := Prepare(p, Pull(e));
    if e'.hand.Charged? then Send(p, e') else e'
  }

  lemma SenderTurnShrinks(p: Pars, e: End)
    requires e.hand == Idle && e.sendQ != []
    ensures SenderWork(SenderTurnOf(p, e)) < SenderWork(e)
  {
    var e1 := Pull(e);
    PrepareShrinks(p, e1);
  }

  /** A turn ends with nothing in hand, and the rest of the thread's work still to do. */
  lemma TurnEnds(p: Pars, e: End)
    requires e.hand == Idle && e.sendQ != []
    ensures SenderTurnOf(p, e).hand == Idle || SenderTurnOf(p, e).hand == Exited
    ensures SendAll(p, SenderTurnOf(p, e)) == SendAll(p, e) && SenderWork(SenderTurnOf(p, e)) < SenderWork(e)
  {
    SenderTurnShrinks(p, e);
  }

  lemma SentAll(p: Pars, e: End)
    ensures e.hand != Idle || e.sendQ == [] ==> SendAll(p, e) == e
  {
  }

  lemma PrepareShrinks(p: Pars, e: End)
    requires e.hand.Pulled?
    ensures SenderWork(Prepare(p, e)) < SenderWork(e)
    ensures Prepare(p, e).hand.Charged? ==> 1 <= SenderWork(Prepare(p, e))
  {
    QueueEffortPush(e.sendQ, Control(QueryBuffer, e.hand.m.stream));
  }

  /** The sender thread, for as long as it has something to send. */
  function SendAll(p: Pars, e: End): End
    decreases SenderWork(e)
  {
    if e.hand != Idle || e.sendQ == [] then e
    else
      SenderTurnShrinks(p, e);
      SendAll(p, SenderTurnOf(p, e))
  }

  function ReceiverTurnOf(p: Pars, e: End, m: Message): End
    requires e.reader == Waiting
  {
    var e1 := Receive(e, m);
    if !e1.reader.Got? then e1
    else
      var e2 := Dispatch(p, e1);
      if e2.reader.Replying? then Reply(e2) else e2
  }

  /** The receiver thread, reading the messages that come until it leaves its loop. */
  function ReadAll(p: Pars, e: End, arriving: seq<Message>): End
    decreases |arriving|
  {
    if e.reader != Waiting || arriving == [] then e
    else ReadAll(p, ReceiverTurnOf(p, e, arriving[0]), arriving[1..])
  }

  lemma ReadTurn(p: Pars, e: End, arriving: seq<Message>)
    ensures e.reader != Waiting || arriving == [] ==> ReadAll(p, e, arriving) == e
    ensures e.reader == Waiting && arriving != [] ==>
      ReadAll(p, e, arriving) == ReadAll(p, ReceiverTurnOf(p, e, arriving[0]), arriving[1..])
  {
  }

  lemma DispatchCases(p: Pars, e: End)
    requires e.reader.Got?
    ensures
      var m := e.reader.m;
      && (m.tag == UsedData ==> Dispatch(p, e) == Credit(e, m) && (Credit(e, m).reader == Waiting || Credit(e, m).reader == Left))
      && (m.tag == QueryBuffer ==> Dispatch(p, e) == Answer(e, m) && !Answer(e, m).reader.Got?)
      && (m.tag == PushData ==> Dispatch(p, e) == Route(p, e, m) && (Route(p, e, m).reader == Waiting || Route(p, e, m).reader == Left))
      && (Plainly(m.tag) ==> Dispatch(p, e).reader == Waiting || Dispatch(p, e).reader == Left)
  {
  }

  // ---------------------------------------------------------------------------
  // Both loops are runs of the transition system

  lemma SoloStep(p: Pars, s: Sys, side: Side, op: Op, rest: seq<Event>)
    requires Can(p, Me(s, side), Peer(s, side), op)
    requires Legal(p, Next(p, s, Event(side, op)), rest)
    ensures Legal(p, s, [Event(side, op)] + rest)
    ensures After(p, s, [Event(side, op)] + rest) == After(p, Next(p, s, Event(side, op)), rest)
  {
    LegalCons(p, s, Event(side, op), rest);
  }

  lemma SenderTurnIsRun(p: Pars, s: Sys, side: Side) returns (run: seq<Event>)
    requires Me(s, side).hand == Idle && Me(s, side).sendQ != []
    ensures Legal(p, s, run)
    ensures Me(After(p, s, run), side) == SenderTurnOf(p, Me(s, side)) && Peer(After(p, s, run), side) == Peer(s, side)
  {
    hide Act, Can, React, Next, Enabled;
    var e0 := Event(side, DoPull);
    SenderCan(p, Me(s, side), Peer(s, side));
    SideStep(p, s, side, DoPull);
    var s1 := Next(p, s, e0);
    SenderCan(p, Me(s1, side), Peer(s1, side));
    SideStep(p, s1, side, DoPrepare);
    var s2 := Next(p, s1, Event(side, DoPrepare));
    run := [];
    if Me(s2, side).hand.Charged? {
      SenderCan(p, Me(s2, side), Peer(s2, side));
      SideStep(p, s2, side, DoSend);
      run := [Event(side, DoSend)] + [];
      SoloStep(p, s2, side, DoSend, []);
    }
    SoloStep(p, s1, side, DoPrepare, run);
    SoloStep(p, s, side, DoPull, [Event(side, DoPrepare)] + run);
    run := [e0] + ([Event(side, DoPrepare)] + run);
  }

  lemma {:induction false} SendAllIsRun(p: Pars, s: Sys, side: Side) returns (run: seq<Event>)
    ensures Legal(p, s, run)
    ensures Me(After(p, s, run), side) == SendAll(p, Me(s, side)) && Peer(After(p, s, run), side) == Peer(s, side)
    decreases SenderWork(Me(s, side))
  {
    hide Next, Enabled, SenderTurnOf;
    var e := Me(s, side);
    if e.hand != Idle || e.sendQ == [] {
      run := [];
    } else {
      SenderTurnShrinks(p, e);
      var first := SenderTurnIsRun(p, s, side);
      var rest := SendAllIsRun(p, After(p, s, first), side);
      RunAppend(p, s, first, rest);
      run := first + rest;
    }
  }

  lemma ReaderCan(p: Pars, x: End, y: End)
    ensures x.reader == Waiting && y.wire != [] ==>
      Can(p, x, y, DoReceive) && Act(p, x, y, DoReceive) == Receive(x, y.wire[0]) && React(y, DoReceive) == y.(wire := y.wire[1..])
    ensures x.reader.Got? ==> Can(p, x, y, DoDispatch) && Act(p, x, y, DoDispatch) == Dispatch(p, x) && React(y, DoDispatch) == y
    ensures x.reader.Replying? ==> Can(p, x, y, DoReply) && Act(p, x, y, DoReply) == Reply(x) && React(y, DoReply) == y
  {
  }

  lemma ReceiverTurnIsRun(p: Pars, s: Sys, side: Side) returns (run: seq<Event>)
    requires Me(s, side).reader == Waiting && Peer(s, side).wire != []
    ensures Legal(p, s, run)
    ensures Me(After(p, s, run), side) == ReceiverTurnOf(p, Me(s, side), Peer(s, side).wire[0])
    ensures Peer(After(p, s, run), side) == Peer(s, side).(wire := Peer(s, side).wire[1..])
  {
    hide Act, Can, React, Next, Enabled, Dispatch, Receive;
    ReaderCan(p, Me(s, side), Peer(s, side));
    SideStep(p, s, side, DoReceive);
    var s1 := Next(p, s, Event(side, DoReceive));
    run := [];
    if Me(s1, side).reader.Got? {
      ReaderCan(p, Me(s1, side), Peer(s1, side));
      SideStep(p, s1, side, DoDispatch);
      var s2 := Next(p, s1, Event(side, DoDispatch));
      if Me(s2, side).reader.Replying? {
        ReaderCan(p, Me(s2, side), Peer(s2, side));
        SideStep(p, s2, side, DoReply);
        SoloStep(p, s2, side, DoReply, []);
        run := [Event(side, DoReply)] + [];
      }
      SoloStep(p, s1, side, DoDispatch, run);
      run := [Event(side, DoDispatch)] + run;
    }
    SoloStep(p, s, side, DoReceive, run);
    run := [Event(side, DoReceive)] + run;
  }

  lemma {:induction false} ReadAllIsRun(p: Pars, s: Sys, side: Side) returns (run: seq<Event>)
    ensures Legal(p, s, run)
    ensures Me(After(p, s, run), side) == ReadAll(p, Me(s, side), Peer(s, side).wire)
    decreases |Peer(s, side).wire|
  {
    hide Next, Enabled, ReceiverTurnOf;
    var x, y := Me(s, side), Peer(s, side);
    if x.reader != Waiting || y.wire == [] {
      run := [];
    } else {
      var first := ReceiverTurnIsRun(p, s, side);
      var rest := ReadAllIsRun(p, After(p, s, first), side);
      RunAppend(p, s, first, rest);
      run := first + rest;
    }
  }

  /** The step before a send, for a message that is charged. */
  lemma PrepareCharges(p: Pars, e: End, m: Message)
    requires e.hand == Hand.Pulled(m) && m.tag == PushData && m.stream < |e.audits|
    ensures
      var est := e.audits[m.stream];
      var items, bytes := est.items + 1, est.bytes + p.header + m.length;
      var ask := (2 * items >= p.maxItems || 2 * bytes >= p.maxBytes) && est.queries == 0;
      var charged := e.(audits := e.audits[m.stream := Estimate(items, bytes, est.queries + if ask then 1 else 0)],
                        hand := Charged(m));
      Prepare(p, e) == if ask then Queue(charged, Control(QueryBuffer, m.stream)) else charged
  {
    hide Queue;
  }

  // ---------------------------------------------------------------------------
  // The channel object

  datatype PushOutcome = Queued | WaitAndRetry | ChannelDropped

  class ProtocolChannel {
    const p: Pars
    const senderQ: IpmFifo
    const receiverQ: IpmFifo
    var audits: seq<Estimate>
    var flushed: bool
    var senderExited: bool
    var senderError: bool
    var receiverLeft: bool
    ghost var hand: Hand     // the sender thread's message
    ghost var reader: Reader // the receiver thread's
    var wire: seq<Message>
    var deliverers: map<nat, DelivererThread>
    var endRun: bool
    var fault: Option<Fault>
    ghost var inbox: seq<Message> // all that has been put into receiverQ
    ghost var taken: seq<Message> // what of that the client has pulled
    ghost var log: Log
    ghost var parts: set<object> // the objects of the deliverers

    ghost predicate OwnsRoutes()
      reads this`deliverers, this`parts
    {
      forall k :: k in deliverers ==> deliverers[k] in parts && deliverers[k].q in parts
    }

    ghost function Routes(): map<nat, Deliverer>
      requires OwnsRoutes()
      reads this`deliverers, this`parts, parts
    {
      map k | k in deliverers :: deliverers[k].State()
    }

    /** Every deliverer is in order, and no two share anything. */
    ghost predicate ValidRoutes()
      reads this`deliverers, this`parts, parts
    {
      && OwnsRoutes()
      && (forall k :: k in deliverers ==> deliverers[k].Valid())
      && (forall j, k :: j in deliverers && k in deliverers && j != k ==>
            deliverers[j] != deliverers[k] && deliverers[j].q != deliverers[k].q)
    }

    /** The end of the channel this object stands for. */
    ghost function State(): End
      requires OwnsRoutes()
      reads this, senderQ, parts
    {
      End(audits, senderQ.q, hand, flushed, wire, reader, inbox, Routes(), None, endRun, fault, log)
    }

    /** The client's queue has what has been passed on and not been pulled. */
    ghost predicate ValidInbox()
      reads this`inbox, this`taken, receiverQ
    {
      !receiverQ.terminated && WakesUp(receiverQ.AsWake(false)) && inbox == taken + receiverQ.q
    }

    ghost predicate Valid()
      reads this, senderQ, receiverQ, parts
      ensures Valid() ==> OwnsRoutes()
    {
      && senderQ != receiverQ && !senderQ.terminated && WakesUp(senderQ.AsWake(false))
      && this !in parts && senderQ !in parts && receiverQ !in parts
      && (senderExited <==> hand == Exited) && (receiverLeft <==> reader == Left)
      && ValidInbox()
      && ValidRoutes()
    }

    constructor (p: Pars)
      ensures Valid() && this.p == p && State() == FreshEnd && fresh(senderQ) && fresh(receiverQ) && parts == {}
      ensures taken == []
    {
      this.p := p;
      senderQ := new IpmFifo();
      receiverQ := new IpmFifo();
      audits, flushed, senderExited, senderError, receiverLeft, wire := [], false, false, false, false, [];
      deliverers, endRun, fault, inbox, taken, parts := map[], false, None, [], [], {};
      log, hand, reader := FreshEnd.log, Idle, Waiting;
    }

    /** Puts a message into the send queue. */
    method Enqueue(m: Message)
      requires Valid()
      modifies this`log, senderQ
      ensures Valid() && State() == Queue(old(State()), m)
    {
      hide Routes, ValidRoutes, ValidInbox;
      senderQ.Push(m);
      log := log.(enqueued := log.enqueued + [m]);
    }

    /** A push by the channel's client. PUSHDATA is held up while its stream's
        remote buffer is congested, and a query is sent instead. */
    method Push(m: Message) returns (outcome: PushOutcome)
      requires Valid() && (m.tag == PushData ==> m.stream < |audits|)
      modifies this`audits, this`log, senderQ
      ensures Valid()
      ensures outcome == ChannelDropped <==> senderError
      ensures senderError ==> State() == old(State())
      ensures !senderError && m.tag == PushData ==>
        var e := Offer(p, old(State()), m);
        && (outcome == WaitAndRetry <==> e.offering == None)
        && State() == if e.offering == None then e else ChannelModel.Enqueue(e)
      ensures !senderError && m.tag != PushData ==> outcome == Queued && State() == Queue(old(State()), m)
    {
      hide Routes, ValidRoutes, ValidInbox, WakesUp;
      if senderError {
        return ChannelDropped;
      }
      if m.tag == PushData {
        var items, bytes := audits[m.stream].items, audits[m.stream].bytes;
        if items > p.maxItems || bytes > p.maxBytes {
          if !endRun {
            Enqueue(Control(QueryBuffer, m.stream));
            audits := audits[m.stream := audits[m.stream].(queries := audits[m.stream].queries + 1)];
            return WaitAndRetry;
          }
        }
      }
      Enqueue(m);
      if m.tag == PushData {
        log := log.(accepted := log.accepted + [m]);
      }
      return Queued;
    }

    /** The sender thread pulls the next message. */
    method PullMessage() returns (m: Message)
      requires Valid() && hand == Idle && senderQ.q != []
      modifies this`hand, senderQ
      ensures Valid() && State() == Pull(old(State())) && hand == Hand.Pulled(m)
    {
      hide Routes, ValidRoutes, ValidInbox;
      var result := senderQ.Pull(p.header, false);
      m := result.m;
      hand := Hand.Pulled(m);
    }

    /** Charges a message of a known stream, and asks about the stream if its
        remote buffer is getting full and no query is out already. */
    method ChargeMessage(m: Message)
      requires Valid() && hand == Hand.Pulled(m) && m.tag == PushData && m.stream < |audits|
      modifies this`audits, this`hand, this`log, senderQ
      ensures Valid() && State() == Prepare(p, old(State())) && hand == Charged(m)
    {
      hide Routes, ValidRoutes, ValidInbox, WakesUp, Prepare, Queue;
      PrepareCharges(p, State(), m);
      audits := audits[m.stream := Estimate(audits[m.stream].items + 1,
                                            audits[m.stream].bytes + p.header + m.length, audits[m.stream].queries)];
      var items, bytes := audits[m.stream].items, audits[m.stream].bytes;
      hand := Charged(m);
      if (2 * items >= p.maxItems || 2 * bytes >= p.maxBytes) && audits[m.stream].queries == 0 {
        audits := audits[m.stream := audits[m.stream].(queries := audits[m.stream].queries + 1)];
        assert audits == old(audits)[m.stream := Estimate(items, bytes, old(audits[m.stream].queries) + 1)];
        Enqueue(Control(QueryBuffer, m.stream));
      }
    }

    /** Handles what goes before the send; false if there is nothing to send. */
    method PrepareMessage(m: Message) returns (send: bool)
      requires Valid() && hand == Hand.Pulled(m)
      modifies this`audits, this`flushed, this`hand, this`senderExited, this`fault, this`log, senderQ
      ensures Valid() && State() == Prepare(p, old(State()))
      ensures if send then hand == Charged(m) else !hand.Charged?
    {
      hide Routes, ValidRoutes, ValidInbox, WakesUp;
      if m.tag == Flush {
        flushed, hand := true, Idle;
        log := log.(handled := log.handled + [m]);
        return false;
      }
      if m.tag == OutputFound {
        if |audits| <= m.stream {
          audits := audits + seq(m.stream + 1 - |audits|, i => NothingOutstanding);
        }
      }
      if m.tag == PushData {
        if m.stream >= |audits| {
          fault, senderExited, hand := Some(AuditIndex), true, Exited;
          return false;
        }
        ChargeMessage(m);
      }
      hand := Charged(m);
      return true;
    }

    /** Compresses the message if it is to be, and writes it to the socket. */
    method SendMessage(m: Message)
      requires Valid() && hand == Charged(m)
      modifies this`wire, this`hand, this`senderExited, this`log
      ensures Valid() && State() == Send(p, old(State()))
    {
      hide Routes, ValidRoutes, ValidInbox, WakesUp;
      var sent := m;
      if p.deflating && m.tag == PushData {
        sent := m.(body := p.deflate(m.body), deflated := true);
      }
      wire := wire + [sent];
      var goodbye := m.tag == Goodbye;
      hand := if goodbye then Exited else Idle;
      if goodbye {
        senderExited := true;
      }
      log := log.(handled := log.handled + [m], sent := log.sent + [sent]);
    }

    /** The sender thread's loop, for as long as it need not wait. */
    method SenderThread()
      requires Valid() && (hand == Idle || hand == Exited)
      modifies this`audits, this`flushed, this`hand, this`senderExited, this`wire, this`fault, this`log, senderQ
      ensures Valid() && State() == SendAll(p, old(State()))
      ensures hand == Exited || (hand == Idle && senderQ.q == [])
    {
      hide Routes, ValidRoutes, ValidInbox, Prepare, Send, SendAll, WakesUp, SenderWork;
      while !senderExited && |senderQ.q| != 0
        invariant Valid() && SendAll(p, State()) == SendAll(p, old(State())) && deliverers == old(deliverers)
        invariant (hand == Idle || hand == Exited) && parts == old(parts)
        decreases SenderWork(State())
      {
        ghost var e := State();
        TurnEnds(p, e);
        var m := PullMessage();
        var send := PrepareMessage(m);
        if send {
          SendMessage(m);
        }
      }
      SentAll(p, State());
    }

    twostate lemma RoutesGrow(k: nat, new d: DelivererThread)
      requires old(ValidRoutes()) && k !in old(deliverers) && unchanged(old(parts))
      requires deliverers == old(deliverers)[k := d] && parts == old(parts) + {d, d.q}
      requires d !in old(parts) && d.q !in old(parts) && d.Valid() && d.State() == FreshDeliverer
      ensures ValidRoutes() && Routes() == old(Routes())[k := FreshDeliverer]
    {
      hide DelivererThread.Valid, DelivererThread.State;
    }

    /** Adds a deliverer for a stream; false if the stream has one already. */
    method AddRoutingEntry(k: nat) returns (added: bool)
      requires Valid()
      modifies this`deliverers, this`parts
      ensures Valid() && added == (k !in old(deliverers)) && fresh(parts - old(parts))
      ensures State() == if added then SetDeliverer(old(State()), k, FreshDeliverer) else old(State())
    {
      hide WakesUp, DelivererThread.Valid, DelivererThread.State, ValidRoutes, Routes;
      if k in deliverers {
        return false;
      }
      var d := new DelivererThread();
      assert OwnsRoutes();
      deliverers := deliverers[k := d];
      parts := parts + {d, d.q};
      RoutesGrow(k, d);
      return true;
    }

    twostate lemma RouteChanges(k: nat)
      requires old(ValidRoutes()) && deliverers == old(deliverers) && parts == old(parts)
      requires k in deliverers && deliverers[k].Valid()
      requires forall o :: o in parts && o != deliverers[k].q ==> unchanged(o)
      ensures ValidRoutes() && Routes() == old(Routes())[k := deliverers[k].State()]
    {
      forall j | j in deliverers && j != k
        ensures deliverers[j].Valid() && deliverers[j].State() == old(deliverers[j].State())
      {
      }
    }

    /** An internal error ends the receiver thread. */
    method Leave(error: Fault)
      requires Valid()
      modifies this`reader, this`receiverLeft, this`fault
      ensures Valid() && State() == old(State()).(fault := Some(error), reader := Left)
    {
      hide Routes, ValidRoutes, ValidInbox, WakesUp;
      fault, reader, receiverLeft := Some(error), Left, true;
    }

    /** The receiver thread takes a whole message from the socket; false on a routing error. */
    method ReceiveMessage(m: Message) returns (ok: bool)
      requires Valid() && reader == Waiting
      modifies this`reader, this`receiverLeft, this`fault, this`log
      ensures Valid() && State() == Receive(old(State()), m) && reader == if ok then Got(m) else Left
      ensures ok && (m.tag == PushData || m.tag == QueryBuffer) ==> m.stream in deliverers
    {
      hide Routes, ValidRoutes, ValidInbox, WakesUp;
      RouteKeys();
      if m.tag == PushData || m.tag == QueryBuffer {
        if m.stream !in deliverers {
          Leave(RoutingOverflow);
          return false;
        }
      }
      reader := Got(m);
      log := log.(received := log.received + [m]);
      return true;
    }

    lemma RouteKeys()
      requires OwnsRoutes()
      ensures Routes().Keys == deliverers.Keys
      ensures forall k :: k in deliverers ==> Routes()[k] == deliverers[k].State()
    {
    }

    /** USEDDATA: the sender's estimate goes down by what it reports. */
    method CreditEstimate(m: Message)
      requires Valid() && reader == Got(m) && m.tag == UsedData
      modifies this`audits, this`reader, this`receiverLeft, this`fault
      ensures Valid() && State() == Credit(old(State()), m)
    {
      hide Routes, ValidRoutes, ValidInbox, WakesUp;
      if m.stream >= |audits| {
        Leave(AuditIndex);
        return;
      }
      if m.audit.bytes > audits[m.stream].bytes {
        Leave(AuditOverflow);
        return;
      }
      var est := audits[m.stream];
      audits := audits[m.stream := Estimate(est.items - m.audit.items, est.bytes - m.audit.bytes, est.queries - 1)];
      reader := Waiting;
    }

    /** QUERYBUFFER: takes the audit of the stream's deliverer, for the reply if there is to be one. */
    method AnswerQuery(m: Message) returns (audit: Audit)
      requires Valid() && reader == Got(m) && m.tag == QueryBuffer && m.stream in deliverers
      modifies this`reader, this`log, deliverers[m.stream].q
      ensures Valid() && State() == Answer(old(State()), m)
      ensures reader == if audit.items != 0 then Replying(m.stream, audit) else Waiting
    {
      hide Routes, ValidRoutes, ValidInbox, WakesUp, DelivererThread.Valid, DelivererThread.State;
      RouteKeys();
      DelivererValid(m.stream);
      audit := deliverers[m.stream].QueueAudit();
      RouteChanges(m.stream);
      if audit.items != 0 {
        reader := Replying(m.stream, audit);
      } else {
        reader := Waiting;
        log := log.(unanswered := log.unanswered + [m]);
      }
    }

    lemma DelivererValid(k: nat)
      requires ValidRoutes() && k in deliverers
      ensures deliverers[k].Valid() && deliverers[k] in parts && deliverers[k].q in parts
    {
    }

    /** PUSHDATA: inflates the payload if need be and hands the message to its deliverer. */
    method RouteData(m: Message)
      requires Valid() && reader == Got(m) && m.tag == PushData && m.stream in deliverers
      modifies this`reader, this`receiverLeft, this`fault, deliverers[m.stream].q
      ensures Valid() && State() == Route(p, old(State()), m)
    {
      hide Routes, ValidRoutes, ValidInbox, WakesUp, DelivererThread.Valid, DelivererThread.State;
      RouteKeys();
      var received := m;
      if m.deflated {
        var body: Bytes := [];
        if m.length != 0 {
          body := p.inflate(m.body);
          if |body| != m.length {
            Leave(SizeMismatch);
            return;
          }
        }
        received := m.(body := body, deflated := false);
      }
      assert received == Unpack(p, m);
      hide Unpack;
      DelivererValid(m.stream);
      deliverers[m.stream].Push(received);
      RouteChanges(m.stream);
      reader := Waiting;
    }

    /** A message that goes to the channel's client, or nowhere. */
    method PassOn(m: Message)
      requires Valid() && reader == Got(m) && Plainly(m.tag)
      modifies this`reader, this`receiverLeft, this`inbox, receiverQ
      ensures Valid() && State() == Dispatch(p, old(State()))
    {
      hide Routes, ValidRoutes;
      if m.tag == Goodbye {
        reader, receiverLeft := Left, true;
      } else if m.tag == Cancel {
        reader := Waiting;
      } else {
        receiverQ.Push(m);
        inbox := inbox + [m];
        reader := Waiting;
      }
    }

    /** The client takes the next message that was passed on to it; if there is none, it is not kept waiting here. */
    method TakeForClient() returns (result: PullResult)
      requires Valid()
      modifies this`taken, receiverQ
      ensures Valid() && State() == old(State())
      ensures result.Pulled? <==> |old(taken)| < |inbox|
      ensures result.Pulled? ==> result.m == inbox[|old(taken)|] && taken == inbox[..|old(taken)| + 1]
      ensures !result.Pulled? ==> result == PullTimedOut && taken == old(taken)
    {
      hide Routes, ValidRoutes;
      result := receiverQ.Pull(p.header, false);
      if result.Pulled? {
        taken := taken + [result.m];
      }
    }

    /** Handles a message; a query's answer is left to be sent. */
    method DispatchMessage(m: Message) returns (audit: Audit)
      requires Valid() && reader == Got(m)
      requires m.tag == PushData || m.tag == QueryBuffer ==> m.stream in deliverers
      modifies this`audits, this`reader, this`receiverLeft, this`fault, this`inbox, this`log, receiverQ, parts
      ensures Valid() && State() == Dispatch(p, old(State())) && !reader.Got?
      ensures if audit.items != 0 then reader == Replying(m.stream, audit) else !reader.Replying?
    {
      audit := EmptyAudit;
      hide Routes, ValidRoutes, ValidInbox, WakesUp, Credit, Answer, Route, DelivererThread.Valid, DelivererThread.State;
      DispatchCases(p, State());
      if m.tag == UsedData {
        CreditEstimate(m);
      } else if m.tag == QueryBuffer {
        DelivererValid(m.stream);
        audit := AnswerQuery(m);
      } else if m.tag == PushData {
        DelivererValid(m.stream);
        RouteData(m);
      } else {
        PassOn(m);
      }
    }

    /** Sends back what was found for a query. */
    method SendReply(stream: nat, audit: Audit)
      requires Valid() && reader == Replying(stream, audit)
      modifies this`reader, this`log, senderQ
      ensures Valid() && State() == Reply(old(State())) && reader == Waiting
    {
      hide Routes, ValidRoutes, ValidInbox, WakesUp;
      Enqueue(Control(UsedData, stream, audit));
      reader := Waiting;
    }

    /** The receiver thread's loop over the messages that arrive. */
    method ReceiverThread(arriving: seq<Message>)
      requires Valid() && (reader == Waiting || reader == Left)
      modifies this`audits, this`reader, this`receiverLeft, this`fault, this`inbox, this`log, senderQ, receiverQ, parts
      ensures Valid() && State() == ReadAll(p, old(State()), arriving)
      ensures reader == Waiting || reader == Left
    {
      hide Routes, ValidRoutes, ValidInbox, WakesUp, Receive, Dispatch, Reply, ReadAll, DelivererThread.Valid, DelivererThread.State;
      var n := 0;
      while !receiverLeft && n < |arriving|
        invariant n <= |arriving| && Valid() && (reader == Waiting || reader == Left)
        invariant parts == old(parts) && deliverers == old(deliverers)
        invariant ReadAll(p, State(), arriving[n..]) == ReadAll(p, old(State()), arriving)
      {
        ReadTurn(p, State(), arriving[n..]);
        var m := arriving[n];
        var ok := ReceiveMessage(m);
        if ok {
          var audit := DispatchMessage(m);
          if audit.items != 0 {
            SendReply(m.stream, audit);
          }
        }
        n := n + 1;
      }
      ReadTurn(p, State(), arriving[n..]);
    }
  }
}
