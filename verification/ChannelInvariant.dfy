/**
 Every step of either end keeps the books of every stream, in both directions,
 and never runs into one of the channel's internal errors.
 */
module ChannelInvariant {
  import opened Messages
  import opened ChannelModel
  import opened Ledger

  // ---------------------------------------------------------------------------
  // The messages themselves

  /** A message on its way from w to r is sound, its stream is announced at the
      sending end and routed at the receiving one. */
  predicate Fits(p: Pars, w: End, r: End, m: Message) {
    && Sound(p, m)
    && (m.tag == PushData || m.tag == QueryBuffer ==> m.stream < |w.audits| && m.stream in r.deliverers)
    && (m.tag == UsedData ==> m.stream < |r.audits|)
  }

  predicate FitsFresh(p: Pars, w: End, r: End, m: Message) {
    !m.deflated && Fits(p, w, r, m)
  }

  ghost predicate Shape(p: Pars, w: End, r: End) {
    && (w.offering.Some? ==> FitsFresh(p, w, r, w.offering.value) && w.offering.value.tag == PushData)
    && (w.hand.Pulled? || w.hand.Charged? ==> FitsFresh(p, w, r, w.hand.m))
    && (forall i :: 0 <= i < |w.sendQ| ==> FitsFresh(p, w, r, w.sendQ[i]))
    && (forall i :: 0 <= i < |w.wire| ==> Fits(p, w, r, w.wire[i]))
    && (r.reader.Got? ==> Fits(p, w, r, r.reader.m))
    && (r.reader.Replying? ==> r.reader.stream < |w.audits|)
  }

  /** The routing tables of an end and its peer only grow. */
  predicate Grows(x: End, x': End) {
    |x.audits| <= |x'.audits| && x.deliverers.Keys <= x'.deliverers.Keys
  }

  /** Growth alone spoils no message. */
  lemma ShapeGrows(p: Pars, w: End, r: End, w': End, r': End)
    requires Shape(p, w, r) && Grows(w, w') && Grows(r, r')
    requires w'.offering == w.offering && w'.hand == w.hand && w'.sendQ == w.sendQ && w'.wire == w.wire && r'.reader == r.reader
    ensures Shape(p, w', r')
  {
  }

  ghost predicate BothBooks(p: Pars, x: End, y: End, k: nat) {
    Books(p, View(x, y, k), k) && Books(p, View(y, x, k), k)
  }

  ghost predicate BothShapes(p: Pars, x: End, y: End) {
    p.Valid() && Shape(p, x, y) && Shape(p, y, x)
  }

  // ---------------------------------------------------------------------------
  // Queueing a message

  lemma QueueViews(x: End, y: End, m: Message, k: nat)
    ensures View(Queue(x, m), y, k) == View(x, y, k).(pipe := View(x, y, k).pipe + [m])
    ensures View(y, Queue(x, m), k) == View(y, x, k).(back := View(y, x, k).back + [m])
  {
    assert Pipe(Queue(x, m), y) == Pipe(x, y) + [m];
  }

  lemma QueueShape(p: Pars, x: End, y: End, m: Message)
    requires BothShapes(p, x, y) && FitsFresh(p, x, y, m)
    ensures BothShapes(p, Queue(x, m), y)
  {
  }

  lemma QueueIgnored(p: Pars, x: End, y: End, m: Message, k: nat)
    requires BothBooks(p, x, y, k) && IgnoredForward(m, k) && IgnoredBack(m, k)
    ensures BothBooks(p, Queue(x, m), y, k)
  {
    hide Books;
    QueueViews(x, y, m, k);
    ForwardIgnored(p, View(x, y, k), m, k);
    BackIgnored(p, View(y, x, k), m, k);
  }

  // ---------------------------------------------------------------------------
  // The client

  lemma OfferShape(p: Pars, x: End, y: End, m: Message)
    requires BothShapes(p, x, y) && Can(p, x, y, DoOffer(m))
    ensures BothShapes(p, Offer(p, x, m), y)
  {
    var q := Control(QueryBuffer, m.stream);
    QueueShape(p, x, y, q);
    if Congested(p, x.audits[m.stream]) && !x.endRun {
      ShapeGrows(p, Queue(x, q), y, Offer(p, x, m), y);
      ShapeGrows(p, y, Queue(x, q), y, Offer(p, x, m));
    }
  }

  /** A query of stream j joins the queue and the record of queries. */
  lemma AskBooks(p: Pars, x: End, y: End, j: nat, k: nat)
    requires BothBooks(p, x, y, k) && j < |x.audits|
    ensures BothBooks(p, Queue(x.(audits := x.audits[j := x.audits[j].(queries := x.audits[j].queries + 1)]),
                               Control(QueryBuffer, j)), y, k)
  {
    hide Books;
    var m := Control(QueryBuffer, j);
    var x' := x.(audits := x.audits[j := x.audits[j].(queries := x.audits[j].queries + 1)]);
    QueueViews(x', y, m, k);
    assert View(y, x', k) == View(y, x, k);
    BackIgnored(p, View(y, x, k), m, k);
    if j == k {
      assert View(x', y, k) == View(x, y, k).(est := x'.audits[j]);
      ForwardQuery(p, View(x, y, k), m, k);
    } else {
      assert View(x', y, k) == View(x, y, k);
      ForwardIgnored(p, View(x, y, k), m, k);
    }
  }

  lemma OfferBooks(p: Pars, x: End, y: End, m: Message, k: nat)
    requires BothBooks(p, x, y, k) && Can(p, x, y, DoOffer(m))
    ensures BothBooks(p, Offer(p, x, m), y, k)
  {
    hide Books;
    if Congested(p, x.audits[m.stream]) && !x.endRun {
      AskBooks(p, x, y, m.stream, k);
      var x' := x.(audits := x.audits[m.stream := x.audits[m.stream].(queries := x.audits[m.stream].queries + 1)]);
      assert Offer(p, x, m) == Queue(x', Control(QueryBuffer, m.stream));
    } else {
      OfferKeeps(p, View(x, y, k), m, k);
      var x' := Offer(p, x, m);
      assert View(y, x', k) == View(y, x, k);
      assert View(x', y, k) == View(x, y, k).(offering := Some(m));
    }
  }

  lemma EnqueueShape(p: Pars, x: End, y: End)
    requires BothShapes(p, x, y) && x.offering.Some?
    ensures BothShapes(p, Enqueue(x), y)
  {
    QueueShape(p, x, y, x.offering.value);
  }

  lemma EnqueueBooks(p: Pars, x: End, y: End, k: nat)
    requires BothBooks(p, x, y, k) && x.offering.Some? && x.offering.value.tag == PushData
    ensures BothBooks(p, Enqueue(x), y, k)
  {
    hide Books;
    var m := x.offering.value;
    QueueViews(x, y, m, k);
    ForwardData(p, View(x, y, k), m, k);
    BackIgnored(p, View(y, x, k), m, k);
    assert View(y, Enqueue(x), k) == View(y, Queue(x, m), k);
    assert View(Enqueue(x), y, k) == View(Queue(x, m), y, k).(accepted := x.log.accepted + [m], offering := None);
  }

  // ---------------------------------------------------------------------------
  // The sender thread

  lemma PullShape(p: Pars, x: End, y: End)
    requires BothShapes(p, x, y) && x.hand == Idle && x.sendQ != []
    ensures BothShapes(p, Pull(x), y)
  {
  }

  lemma PullBooks(p: Pars, x: End, y: End, k: nat)
    requires BothBooks(p, x, y, k) && x.hand == Idle && x.sendQ != []
    ensures BothBooks(p, Pull(x), y, k)
  {
    hide Books;
    assert Pipe(Pull(x), y) == Pipe(x, y);
    assert View(Pull(x), y, k) == View(x, y, k);
    assert View(y, Pull(x), k) == View(y, x, k);
  }

  /** Charging, once the query it may call for is left aside. */
  function ChargeOnly(p: Pars, e: End): End
    requires e.hand.Pulled? && e.hand.m.stream < |e.audits|
  {
    e.(audits := e.audits[e.hand.m.stream := Charge(p, e, e.hand.m)], hand := Charged(e.hand.m))
  }

  lemma PrepareData(p: Pars, e: End)
    requires e.hand.Pulled? && e.hand.m.tag == PushData && e.hand.m.stream < |e.audits|
    ensures
      var j, c := e.hand.m.stream, ChargeOnly(p, e);
      Prepare(p, e) ==
        if HalfFull(p, c.audits[j]) && c.audits[j].queries == 0 then
          Queue(c.(audits := c.audits[j := c.audits[j].(queries := c.audits[j].queries + 1)]), Control(QueryBuffer, j))
        else c
  {
    var j, c := e.hand.m.stream, ChargeOnly(p, e);
    if HalfFull(p, c.audits[j]) && c.audits[j].queries == 0 {
      assert e.audits[j := c.audits[j].(queries := c.audits[j].queries + 1)]
          == c.audits[j := c.audits[j].(queries := c.audits[j].queries + 1)];
    } else {
      assert Charge(p, e, e.hand.m).(queries := Charge(p, e, e.hand.m).queries + 0) == Charge(p, e, e.hand.m);
    }
  }

  lemma ChargeOnlyKeeps(p: Pars, x: End, y: End, k: nat)
    requires BothShapes(p, x, y) && BothBooks(p, x, y, k) && x.hand.Pulled? && x.hand.m.tag == PushData
    requires x.hand.m.stream < |x.audits|
    ensures BothShapes(p, ChargeOnly(p, x), y) && BothBooks(p, ChargeOnly(p, x), y, k)
  {
    hide Books;
    var m, x' := x.hand.m, ChargeOnly(p, x);
    assert ChargedPipe(x', y) == ChargedPipe(x, y) + [m];
    assert View(y, x', k) == View(y, x, k);
    if m.stream == k {
      assert View(x', y, k) == View(x, y, k).(charged := ChargedPipe(x, y) + [m], est := Charge(p, x, m));
      ChargeData(p, View(x, y, k), m, k);
    } else {
      assert View(x', y, k) == View(x, y, k).(charged := ChargedPipe(x, y) + [m]);
      ChargeIgnored(p, View(x, y, k), m, k);
    }
  }

  lemma ChargeOtherKeeps(p: Pars, x: End, y: End, k: nat)
    requires BothBooks(p, x, y, k) && x.hand.Pulled? && x.hand.m.tag != PushData && x.hand.m.tag != Flush
    ensures BothBooks(p, Prepare(p, x), y, k)
  {
    hide Books;
    var m, x' := x.hand.m, Prepare(p, x);
    assert ChargedPipe(x', y) == ChargedPipe(x, y) + [m];
    assert View(y, x', k) == View(y, x, k);
    assert View(x', y, k) == View(x, y, k).(charged := ChargedPipe(x, y) + [m]);
    ChargeIgnored(p, View(x, y, k), m, k);
  }

  lemma FlushKeeps(p: Pars, x: End, y: End, k: nat)
    requires BothBooks(p, x, y, k) && x.hand.Pulled? && x.hand.m.tag == Flush
    ensures BothBooks(p, Prepare(p, x), y, k)
  {
    hide Books;
    var m, x', front := x.hand.m, Prepare(p, x), Held(y.reader) + x.wire;
    assert Pipe(x, y) == front + [m] + x.sendQ;
    assert Pipe(x', y) == front + [] + x.sendQ;
    DataOne(p, m, k);
    ForwardMiddle(p, View(x, y, k), front, m, [], x.sendQ, k);
    BackMiddle(p, View(y, x, k), front, m, [], x.sendQ, k);
    assert View(x', y, k) == View(x, y, k).(pipe := Pipe(x', y));
    assert View(y, x', k) == View(y, x, k).(back := Pipe(x', y));
  }

  lemma PrepareOtherShape(p: Pars, x: End, y: End)
    requires BothShapes(p, x, y) && x.hand.Pulled? && x.hand.m.tag != PushData
    ensures BothShapes(p, Prepare(p, x), y) && Prepare(p, x).fault == x.fault
  {
    if x.hand.m.tag != Flush {
      ShapeGrows(p, y, x, y, Prepare(p, x));
    }
  }

  lemma ChargeOnlyShape(p: Pars, x: End, y: End)
    requires BothShapes(p, x, y) && x.hand.Pulled? && x.hand.m.tag == PushData
    ensures x.hand.m.stream < |x.audits| && BothShapes(p, ChargeOnly(p, x), y)
    ensures FitsFresh(p, ChargeOnly(p, x), y, Control(QueryBuffer, x.hand.m.stream))
  {
    ShapeGrows(p, y, x, y, ChargeOnly(p, x));
  }

  lemma AuditsShape(p: Pars, x: End, y: End, audits: seq<Estimate>)
    requires BothShapes(p, x, y) && |audits| == |x.audits|
    ensures BothShapes(p, x.(audits := audits), y)
  {
    ShapeGrows(p, x, y, x.(audits := audits), y);
    ShapeGrows(p, y, x, y, x.(audits := audits));
  }

  lemma PrepareDataShape(p: Pars, x: End, y: End)
    requires BothShapes(p, x, y) && x.hand.Pulled? && x.hand.m.tag == PushData
    ensures BothShapes(p, Prepare(p, x), y) && Prepare(p, x).fault == x.fault
  {
    hide BothShapes, Prepare;
    ChargeOnlyShape(p, x, y);
    PrepareData(p, x);
    var j, c := x.hand.m.stream, ChargeOnly(p, x);
    var asked := c.audits[j := c.audits[j].(queries := c.audits[j].queries + 1)];
    AuditsShape(p, c, y, asked);
    QueueShape(p, c.(audits := asked), y, Control(QueryBuffer, j));
  }

  lemma PrepareShape(p: Pars, x: End, y: End)
    requires BothShapes(p, x, y) && x.hand.Pulled?
    ensures BothShapes(p, Prepare(p, x), y) && Prepare(p, x).fault == x.fault
  {
    hide BothShapes, Prepare;
    if x.hand.m.tag == PushData {
      PrepareDataShape(p, x, y);
    } else {
      PrepareOtherShape(p, x, y);
    }
  }

  lemma PrepareBooks(p: Pars, x: End, y: End, k: nat)
    requires BothShapes(p, x, y) && BothBooks(p, x, y, k) && x.hand.Pulled?
    ensures BothBooks(p, Prepare(p, x), y, k)
  {
    hide BothBooks, BothShapes, Prepare;
    if x.hand.m.tag == PushData {
      ChargeOnlyShape(p, x, y);
      PrepareData(p, x);
      ChargeOnlyKeeps(p, x, y, k);
      AskBooks(p, ChargeOnly(p, x), y, x.hand.m.stream, k);
    } else if x.hand.m.tag == Flush {
      FlushKeeps(p, x, y, k);
    } else {
      ChargeOtherKeeps(p, x, y, k);
    }
  }

  lemma SendShape(p: Pars, x: End, y: End)
    requires BothShapes(p, x, y) && x.hand.Charged?
    ensures BothShapes(p, Send(p, x), y)
  {
    PackKeepsContent(p, x.hand.m);
  }

  /** Packing a message leaves every weight and the data as they were. */
  lemma PackWeighs(p: Pars, m: Message, k: nat)
    requires p.Valid() && !m.deflated && Sound(p, m)
    ensures forall w: Meter :: Weigh(p, Pack(p, m), w) == Weigh(p, m, w)
    ensures forall w: Meter :: Total(p, [Pack(p, m)], w) == Weigh(p, m, w)
    ensures Data(p, [Pack(p, m)], k) == Data(p, [m], k)
  {
    PackKeepsContent(p, m);
    forall w: Meter ensures Total(p, [Pack(p, m)], w) == Weigh(p, Pack(p, m), w) {
      TotalOne(p, Pack(p, m), w);
    }
    DataOne(p, m, k);
    DataOne(p, Pack(p, m), k);
  }

  lemma SendBooks(p: Pars, x: End, y: End, k: nat)
    requires p.Valid() && BothBooks(p, x, y, k) && x.hand.Charged? && !x.hand.m.deflated && Sound(p, x.hand.m)
    ensures BothBooks(p, Send(p, x), y, k)
  {
    hide Books, Pack, Total, Data, Weigh;
    var m, n, x', front := x.hand.m, Pack(p, x.hand.m), Send(p, x), Held(y.reader) + x.wire;
    PackWeighs(p, m, k);
    assert Pipe(x, y) == front + [m] + x.sendQ;
    assert Pipe(x', y) == front + [n] + x.sendQ;
    assert ChargedPipe(x, y) == front + [m];
    assert ChargedPipe(x', y) == front + [n];
    ForwardMiddle(p, View(x, y, k), front, m, [n], x.sendQ, k);
    ChargedLast(p, View(x, y, k).(pipe := Pipe(x', y)), front, m, n, k);
    BackMiddle(p, View(y, x, k), front, m, [n], x.sendQ, k);
    assert View(x', y, k) == View(x, y, k).(pipe := Pipe(x', y), charged := ChargedPipe(x', y));
    assert View(y, x', k) == View(y, x, k).(back := Pipe(x', y));
  }

  // ---------------------------------------------------------------------------
  // The receiver thread

  lemma ReceiveShape(p: Pars, x: End, y: End)
    requires BothShapes(p, x, y) && x.reader == Waiting && y.wire != []
    ensures BothShapes(p, Receive(x, y.wire[0]), y.(wire := y.wire[1..]))
    ensures Receive(x, y.wire[0]).fault == x.fault && Receive(x, y.wire[0]).reader == Got(y.wire[0])
  {
  }

  lemma ReceiveBooks(p: Pars, x: End, y: End, k: nat)
    requires BothShapes(p, x, y) && BothBooks(p, x, y, k) && x.reader == Waiting && y.wire != []
    ensures BothBooks(p, Receive(x, y.wire[0]), y.(wire := y.wire[1..]), k)
  {
    hide Books, BothShapes;
    ReceiveShape(p, x, y);
    var x', y' := Receive(x, y.wire[0]), y.(wire := y.wire[1..]);
    assert Pipe(y', x') == Pipe(y, x);
    assert ChargedPipe(y', x') == ChargedPipe(y, x);
    assert View(x', y', k) == View(x, y, k);
    assert View(y', x', k) == View(y, x, k);
  }

  /** What dispatching does to the queue it reads from. */
  lemma DispatchPipes(x: End, y: End, x': End)
    requires x.reader.Got? && !x'.reader.Got?
    ensures Pipe(y, x) == [x.reader.m] + Pipe(y, x') && ChargedPipe(y, x) == [x.reader.m] + ChargedPipe(y, x')
    ensures Pipe(y, x') == Pipe(y, x)[1..] && ChargedPipe(y, x') == ChargedPipe(y, x)[1..]
  {
  }

  /** Messages that neither books nor deliverers take notice of. */
  lemma DispatchPlainBooks(p: Pars, x: End, y: End, k: nat)
    requires BothBooks(p, x, y, k) && x.reader.Got? && Plainly(x.reader.m.tag)
    ensures BothBooks(p, Dispatch(p, x), y, k)
  {
    hide Books;
    var x' := Dispatch(p, x);
    DispatchPipes(x, y, x');
    ReadIgnored(p, View(y, x, k), k);
    BackReadIgnored(p, View(x, y, k), k);
    assert View(y, x', k) == View(y, x, k).(pipe := Pipe(y, x)[1..], charged := ChargedPipe(y, x)[1..]);
    assert View(x', y, k) == View(x, y, k).(back := Pipe(y, x)[1..]);
  }

  lemma CreditNoFault(p: Pars, x: End, y: End)
    requires BothShapes(p, x, y) && x.reader.Got? && x.reader.m.tag == UsedData
    requires BothBooks(p, x, y, x.reader.m.stream)
    ensures
      var m := x.reader.m;
      && m.stream < |x.audits| && m.audit.bytes <= x.audits[m.stream].bytes && m.audit.items <= x.audits[m.stream].items
      && 1 <= x.audits[m.stream].queries
  {
    CreditCovered(p, View(x, y, x.reader.m.stream), x.reader.m.stream);
  }

  lemma CreditBooks(p: Pars, x: End, y: End, k: nat)
    requires BothShapes(p, x, y) && x.reader.Got? && x.reader.m.tag == UsedData
    requires BothBooks(p, x, y, k) && BothBooks(p, x, y, x.reader.m.stream)
    ensures BothBooks(p, Credit(x, x.reader.m), y, k)
  {
    hide Books;
    CreditNoFault(p, x, y);
    var m, x' := x.reader.m, Credit(x, x.reader.m);
    DispatchPipes(x, y, x');
    ReadIgnored(p, View(y, x, k), k);
    assert View(y, x', k) == View(y, x, k).(pipe := Pipe(y, x)[1..], charged := ChargedPipe(y, x)[1..]);
    if m.stream == k {
      BackReadCredit(p, View(x, y, k), k);
      assert View(x', y, k) == View(x, y, k).(back := Pipe(y, x)[1..], est := x'.audits[k]);
    } else {
      BackReadIgnored(p, View(x, y, k), k);
      assert View(x', y, k) == View(x, y, k).(back := Pipe(y, x)[1..]);
    }
  }

  lemma AnswerBooks(p: Pars, x: End, y: End, k: nat)
    requires BothShapes(p, x, y) && BothBooks(p, x, y, k) && x.reader.Got? && x.reader.m.tag == QueryBuffer
    ensures BothBooks(p, Answer(x, x.reader.m), y, k)
  {
    hide Books;
    var m, x' := x.reader.m, Answer(x, x.reader.m);
    DispatchPipes(x, y, x');
    BackReadIgnored(p, View(x, y, k), k);
    assert View(x', y, k) == View(x, y, k).(back := Pipe(y, x)[1..]);
    var l := View(y, x, k);
    var l1 := l.(pipe := Pipe(y, x)[1..], charged := ChargedPipe(y, x)[1..]);
    if m.stream == k {
      ReadQuery(p, l, k);
      if l.d.audit.items != 0 {
        assert View(y, x', k) == l1.(d := l.d.(audit := EmptyAudit), pending := Some(l.d.audit));
      } else {
        assert View(y, x', k) == l1.(d := l.d.(audit := EmptyAudit), unanswered := l.unanswered + [m]);
      }
    } else {
      ReadIgnored(p, l, k);
      if x'.reader == Waiting {
        OtherUnanswered(p, l1, m, k);
        assert View(y, x', k) == l1.(unanswered := l.unanswered + [m]);
      } else {
        assert View(y, x', k) == l1;
      }
    }
  }

  lemma RouteBooks(p: Pars, x: End, y: End, k: nat)
    requires BothShapes(p, x, y) && BothBooks(p, x, y, k) && x.reader.Got? && x.reader.m.tag == PushData
    ensures BothBooks(p, Route(p, x, x.reader.m), y, k)
  {
    hide Books;
    var m, x' := x.reader.m, Route(p, x, x.reader.m);
    DispatchPipes(x, y, x');
    BackReadIgnored(p, View(x, y, k), k);
    assert View(x', y, k) == View(x, y, k).(back := Pipe(y, x)[1..]);
    var l := View(y, x, k);
    var l1 := l.(pipe := Pipe(y, x)[1..], charged := ChargedPipe(y, x)[1..]);
    if m.stream == k {
      ReadData(p, l, k);
      assert View(y, x', k) == l1.(d := DeliverPush(l.d, Unpack(p, m)));
    } else {
      ReadIgnored(p, l, k);
      assert View(y, x', k) == l1;
    }
  }

  /** Dropping what the receiver thread holds, whatever happens to audits and routes. */
  lemma ReadShape(p: Pars, x: End, y: End, x': End)
    requires BothShapes(p, x, y) && x.reader.Got? && Grows(x, x') && !x'.reader.Got?
    requires x'.reader.Replying? ==> x'.reader.stream == x.reader.m.stream && x.reader.m.tag == QueryBuffer
    requires x'.offering == x.offering && x'.hand == x.hand && x'.sendQ == x.sendQ && x'.wire == x.wire
    ensures BothShapes(p, x', y)
  {
  }

  lemma HeldFits(p: Pars, x: End, y: End)
    requires BothShapes(p, x, y) && x.reader.Got?
    ensures Fits(p, y, x, x.reader.m)
  {
  }

  lemma DispatchShape(p: Pars, x: End, y: End)
    requires BothShapes(p, x, y) && x.reader.Got?
    requires BothBooks(p, x, y, x.reader.m.stream)
    ensures BothShapes(p, Dispatch(p, x), y) && Dispatch(p, x).fault == x.fault
  {
    hide BothBooks, BothShapes;
    if x.reader.m.tag == UsedData {
      CreditNoFault(p, x, y);
    }
    HeldFits(p, x, y);
    ReadShape(p, x, y, Dispatch(p, x));
  }

  lemma DispatchBooks(p: Pars, x: End, y: End, k: nat)
    requires BothShapes(p, x, y) && BothBooks(p, x, y, k) && x.reader.Got?
    requires BothBooks(p, x, y, x.reader.m.stream)
    ensures BothBooks(p, Dispatch(p, x), y, k)
  {
    hide BothBooks, BothShapes;
    match x.reader.m.tag
    case UsedData => CreditBooks(p, x, y, k);
    case QueryBuffer => AnswerBooks(p, x, y, k);
    case PushData => RouteBooks(p, x, y, k);
    case _ => DispatchPlainBooks(p, x, y, k);
  }

  lemma ReplyShape(p: Pars, x: End, y: End)
    requires BothShapes(p, x, y) && x.reader.Replying?
    ensures BothShapes(p, Reply(x), y)
  {
    QueueShape(p, x, y, Control(UsedData, x.reader.stream, x.reader.audit));
  }

  lemma ReplyBooks(p: Pars, x: End, y: End, k: nat)
    requires BothBooks(p, x, y, k) && x.reader.Replying?
    ensures BothBooks(p, Reply(x), y, k)
  {
    hide Books;
    var m := Control(UsedData, x.reader.stream, x.reader.audit);
    QueueViews(x, y, m, k);
    ForwardIgnored(p, View(x, y, k), m, k);
    assert View(Reply(x), y, k) == View(Queue(x, m), y, k);
    if x.reader.stream == k {
      BackReply(p, View(y, x, k), m, k);
      assert View(y, Reply(x), k) == View(y, Queue(x, m), k).(pending := None);
    } else {
      BackIgnored(p, View(y, x, k), m, k);
      assert View(y, Reply(x), k) == View(y, Queue(x, m), k);
    }
  }

  // ---------------------------------------------------------------------------
  // The deliverer threads

  lemma SetDelivererShape(p: Pars, x: End, y: End, j: nat, d: Deliverer)
    requires BothShapes(p, x, y)
    ensures BothShapes(p, SetDeliverer(x, j, d), y)
  {
  }

  lemma SetDelivererBooks(p: Pars, x: End, y: End, j: nat, d: Deliverer, k: nat)
    requires BothBooks(p, x, y, k)
    requires j == k ==> Books(p, View(y, x, k).(d := d), k)
    ensures BothBooks(p, SetDeliverer(x, j, d), y, k)
  {
    hide Books;
    var x' := SetDeliverer(x, j, d);
    assert View(x', y, k) == View(x, y, k);
    assert View(y, x', k) == if j == k then View(y, x, k).(d := d) else View(y, x, k);
  }

  lemma DelivererNoFault(p: Pars, x: End, y: End, j: nat)
    requires BothBooks(p, x, y, j) && j in x.deliverers && CanDeliver(x.deliverers[j])
    ensures DeliverPull(p, x.deliverers[j]).1
  {
    hide Books;
    TakeKeeps(p, View(y, x, j), j);
  }

  predicate DelivererOp(op: Op) {
    op.DoRoute? || op.DoStop? || op.DoBreak? || op.DoTake? || op.DoHandle? || op.DoDrop?
  }

  lemma DelivererBooks(p: Pars, x: End, y: End, op: Op, k: nat)
    requires BothBooks(p, x, y, k) && DelivererOp(op) && Can(p, x, y, op)
    requires BothBooks(p, x, y, op.k)
    ensures BothBooks(p, Act(p, x, y, op), y, k) && Act(p, x, y, op).fault == x.fault
  {
    hide Books;
    var j := op.k;
    match op
    case DoRoute(_) => SetDelivererBooks(p, x, y, j, FreshDeliverer, k);
    case DoStop(_) =>
      FlagsKeep(p, View(y, x, j), x.deliverers[j].(stop := true), j);
      SetDelivererBooks(p, x, y, j, x.deliverers[j].(stop := true), k);
    case DoBreak(_) =>
      FlagsKeep(p, View(y, x, j), x.deliverers[j].(phase := Breaking), j);
      SetDelivererBooks(p, x, y, j, x.deliverers[j].(phase := Breaking), k);
    case DoTake(_) =>
      TakeKeeps(p, View(y, x, j), j);
      SetDelivererBooks(p, x, y, j, DeliverPull(p, x.deliverers[j]).0, k);
    case DoHandle(_, cancel) =>
      HandleKeeps(p, View(y, x, j), cancel, j);
      SetDelivererBooks(p, x, y, j, DeliverHandle(x.deliverers[j], cancel), k);
    case DoDrop(_) =>
      DropKeeps(p, View(y, x, j), j);
      SetDelivererBooks(p, x, y, j, DeliverFlush(x.deliverers[j]), k);
  }
}
