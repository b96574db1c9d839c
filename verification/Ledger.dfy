/**
 The books of one stream: what its writing end has on record against what is
 on its way to the reading end, held there, or on its way back.
 */
module Ledger {
  import opened Messages
  import opened ChannelModel

  /** `pipe` is everything travelling forward (of which `charged` has been
      charged), `back` everything travelling the other way, `pending` the audit
      the receiver thread has taken and not yet sent back. */
  datatype Ledger = Ledger(
    est: Estimate, pipe: seq<Message>, charged: seq<Message>, back: seq<Message>, d: Deliverer,
    pending: Option<Audit>, unanswered: seq<Message>, accepted: seq<Message>, offering: Option<Message>)

  function PendingOf(r: Reader, k: nat): Option<Audit> {
    if r.Replying? && r.stream == k then Some(r.audit) else None
  }

  /** Stream k's books when it goes from w to r. */
  function View(w: End, r: End, k: nat): Ledger {
    Ledger(Est(w, k), Pipe(w, r), ChargedPipe(w, r), Pipe(r, w), Dlv(r, k),
           PendingOf(r.reader, k), r.log.unanswered, w.log.accepted, w.offering)
  }

  function Taken(pending: Option<Audit>, measure: Measure): nat {
    if pending.Some? then Amount(pending.value, measure) else 0
  }

  /** The estimate is exactly what has been charged and not yet credited. */
  ghost predicate Conserved(p: Pars, l: Ledger, k: nat, measure: Measure) {
    l.est.Of(measure) ==
      Total(p, l.charged, Pushed(measure, k))
      + Total(p, l.d.queue, Pushed(measure, k)) + Total(p, l.d.dropped, Pushed(measure, k))
      + Amount(l.d.audit, measure)
      + Taken(l.pending, measure)
      + Total(p, l.back, Returned(measure, k))
  }

  /** Every query is under way, answered by a reply under way, or was left unanswered. */
  ghost predicate QueriesAccounted(p: Pars, l: Ledger, k: nat) {
    l.est.queries ==
      Total(p, l.pipe, Queries(k))
      + (if l.pending.Some? then 1 else 0)
      + Total(p, l.back, Replies(k))
      + Total(p, l.unanswered, Queries(k))
  }

  /** All data accepted for stream k is delivered, dropped or under way, in that order. */
  ghost predicate Ordered(p: Pars, l: Ledger, k: nat) {
    Data(p, l.accepted, k) ==
      l.d.delivered + Data(p, OptSeq(l.d.hand), k) + Data(p, l.d.dropped, k) + Data(p, l.d.queue, k)
      + Data(p, l.pipe, k)
  }

  ghost predicate InSequence(s: seq<Item>) {
    forall i :: 0 <= i < |s| ==> s[i].order == i
  }

  ghost predicate Numbered(p: Pars, l: Ledger, k: nat) {
    && InSequence(Data(p, l.accepted, k))
    && (l.offering.Some? && l.offering.value.stream == k ==> l.offering.value.order == |Data(p, l.accepted, k)|)
  }

  /** A message fit for the queue of stream k's deliverer. */
  predicate Deliverable(m: Message, k: nat) {
    m.tag == PushData && m.stream == k && !m.deflated && |m.body| == m.length
  }

  ghost predicate SoundDeliverer(d: Deliverer, k: nat) {
    && (forall i :: 0 <= i < |d.queue| ==> Deliverable(d.queue[i], k))
    && (forall i :: 0 <= i < |d.dropped| ==> Deliverable(d.dropped[i], k))
    && (d.hand.Some? ==> Deliverable(d.hand.value, k))
    && (d.phase != Finished ==> d.dropped == [])
    && (d.phase == Finished ==> d.queue == [])
    && (d.phase != Running ==> d.hand == None)
    && (d.audit.items == 0 ==> d.audit.bytes == 0)
    && d.order == |d.delivered| + |OptSeq(d.hand)|
  }

  ghost predicate Books(p: Pars, l: Ledger, k: nat) {
    && Conserved(p, l, k, Items) && Conserved(p, l, k, Volume)
    && QueriesAccounted(p, l, k)
    && Ordered(p, l, k) && Numbered(p, l, k)
    && SoundDeliverer(l.d, k)
  }

  /** Neither data nor a query of stream k. */
  predicate IgnoredForward(m: Message, k: nat) {
    !((m.tag == PushData || m.tag == QueryBuffer) && m.stream == k)
  }

  /** Not a credit for stream k. */
  predicate IgnoredBack(m: Message, k: nat) {
    !(m.tag == UsedData && m.stream == k)
  }

  // ---------------------------------------------------------------------------
  // Queues gaining and losing messages

  lemma TotalPush(p: Pars, q: seq<Message>, m: Message, w: Meter)
    ensures Total(p, q + [m], w) == Total(p, q, w) + Weigh(p, m, w)
  {
    TotalAppend(p, q, [m], w);
    TotalOne(p, m, w);
  }

  lemma DataPush(p: Pars, q: seq<Message>, m: Message, k: nat)
    ensures Data(p, q + [m], k) == Data(p, q, k) + if m.tag == PushData && m.stream == k then [ItemOf(p, m)] else []
  {
    DataAppend(p, q, [m], k);
    DataOne(p, m, k);
  }

  lemma DataNone(p: Pars, k: nat)
    ensures Data(p, [], k) == []
  {
  }

  lemma TotalPop(p: Pars, q: seq<Message>, w: Meter)
    requires q != []
    ensures Total(p, q, w) == Weigh(p, q[0], w) + Total(p, q[1..], w)
  {
  }

  lemma DataPop(p: Pars, q: seq<Message>, k: nat)
    requires q != []
    ensures Data(p, q, k) == Data(p, [q[0]], k) + Data(p, q[1..], k)
  {
    DataOne(p, q[0], k);
  }

  /** A message joins the forward pipe: nothing the books count. */
  lemma ForwardIgnored(p: Pars, l: Ledger, m: Message, k: nat)
    requires Books(p, l, k) && IgnoredForward(m, k)
    ensures Books(p, l.(pipe := l.pipe + [m]), k)
  {
    TotalPush(p, l.pipe, m, Queries(k));
    DataPush(p, l.pipe, m, k);
  }

  lemma ForwardQuery(p: Pars, l: Ledger, m: Message, k: nat)
    requires Books(p, l, k) && m.tag == QueryBuffer && m.stream == k
    ensures Books(p, l.(pipe := l.pipe + [m], est := l.est.(queries := l.est.queries + 1)), k)
  {
    TotalPush(p, l.pipe, m, Queries(k));
    DataPush(p, l.pipe, m, k);
  }

  lemma ForwardData(p: Pars, l: Ledger, m: Message, k: nat)
    requires Books(p, l, k) && l.offering == Some(m) && m.tag == PushData
    ensures Books(p, l.(pipe := l.pipe + [m], accepted := l.accepted + [m], offering := None), k)
  {
    hide Total, Data;
    TotalPush(p, l.pipe, m, Queries(k));
    DataPush(p, l.pipe, m, k);
    DataPush(p, l.accepted, m, k);
  }

  /** An offer numbered after all that has been accepted. */
  lemma OfferKeeps(p: Pars, l: Ledger, m: Message, k: nat)
    requires Books(p, l, k) && (m.stream == k ==> m.order == |Data(p, l.accepted, k)|)
    ensures Books(p, l.(offering := Some(m)), k)
  {
    hide Total, Data;
  }

  lemma BackIgnored(p: Pars, l: Ledger, m: Message, k: nat)
    requires Books(p, l, k) && IgnoredBack(m, k)
    ensures Books(p, l.(back := l.back + [m]), k)
  {
    TotalPush(p, l.back, m, Returned(Items, k));
    TotalPush(p, l.back, m, Returned(Volume, k));
    TotalPush(p, l.back, m, Replies(k));
  }

  /** The reply to a query. */
  lemma BackReply(p: Pars, l: Ledger, m: Message, k: nat)
    requires Books(p, l, k) && m.tag == UsedData && m.stream == k && l.pending == Some(m.audit)
    ensures Books(p, l.(back := l.back + [m], pending := None), k)
  {
    TotalPush(p, l.back, m, Returned(Items, k));
    TotalPush(p, l.back, m, Returned(Volume, k));
    TotalPush(p, l.back, m, Replies(k));
  }

  // ---------------------------------------------------------------------------
  // The sender thread

  /** Charging a message of the stream as it becomes the next to be sent. */
  lemma ChargeData(p: Pars, l: Ledger, m: Message, k: nat)
    requires Books(p, l, k) && m.tag == PushData && m.stream == k
    ensures Books(p, l.(charged := l.charged + [m],
                        est := l.est.(items := l.est.items + 1, bytes := l.est.bytes + p.header + m.length)), k)
  {
    TotalPush(p, l.charged, m, Pushed(Items, k));
    TotalPush(p, l.charged, m, Pushed(Volume, k));
  }

  lemma ChargeIgnored(p: Pars, l: Ledger, m: Message, k: nat)
    requires Books(p, l, k) && !(m.tag == PushData && m.stream == k)
    ensures Books(p, l.(charged := l.charged + [m]), k)
  {
    TotalPush(p, l.charged, m, Pushed(Items, k));
    TotalPush(p, l.charged, m, Pushed(Volume, k));
  }

  /** A message in the middle of the forward pipe gives way to `n` (nothing, or its packed form). */
  lemma ForwardMiddle(p: Pars, l: Ledger, x: seq<Message>, m: Message, n: seq<Message>, y: seq<Message>, k: nat)
    requires Books(p, l, k) && l.pipe == x + [m] + y
    requires Total(p, n, Queries(k)) == Weigh(p, m, Queries(k)) && Data(p, n, k) == Data(p, [m], k)
    ensures Books(p, l.(pipe := x + n + y), k)
  {
    TotalMiddle(p, x, m, y, Queries(k));
    TotalAppend(p, x + n, y, Queries(k));
    TotalAppend(p, x, n, Queries(k));
    DataMiddle(p, x, m, y, k);
    DataAppend(p, x + n, y, k);
    DataAppend(p, x, n, k);
  }

  lemma BackMiddle(p: Pars, l: Ledger, x: seq<Message>, m: Message, n: seq<Message>, y: seq<Message>, k: nat)
    requires Books(p, l, k) && l.back == x + [m] + y
    requires forall w: Meter :: (w.Returned? || w.Replies?) ==> Total(p, n, w) == Weigh(p, m, w)
    ensures Books(p, l.(back := x + n + y), k)
  {
    forall w: Meter | w.Returned? || w.Replies? ensures Total(p, x + n + y, w) == Total(p, l.back, w) {
      TotalMiddle(p, x, m, y, w);
      TotalAppend(p, x + n, y, w);
      TotalAppend(p, x, n, w);
    }
    assert Total(p, x + n + y, Returned(Items, k)) == Total(p, l.back, Returned(Items, k));
    assert Total(p, x + n + y, Returned(Volume, k)) == Total(p, l.back, Returned(Volume, k));
    assert Total(p, x + n + y, Replies(k)) == Total(p, l.back, Replies(k));
  }

  lemma ChargedLast(p: Pars, l: Ledger, x: seq<Message>, m: Message, n: Message, k: nat)
    requires Books(p, l, k) && l.charged == x + [m]
    requires forall w: Meter :: w.Pushed? ==> Weigh(p, n, w) == Weigh(p, m, w)
    ensures Books(p, l.(charged := x + [n]), k)
  {
    forall w: Meter | w.Pushed? ensures Total(p, x + [n], w) == Total(p, l.charged, w) {
      TotalPush(p, x, m, w);
      TotalPush(p, x, n, w);
    }
    assert Total(p, x + [n], Pushed(Items, k)) == Total(p, l.charged, Pushed(Items, k));
    assert Total(p, x + [n], Pushed(Volume, k)) == Total(p, l.charged, Pushed(Volume, k));
  }

  // ---------------------------------------------------------------------------
  // The receiver thread

  lemma PopFront(p: Pars, l: Ledger, k: nat)
    requires l.pipe != [] && l.charged != []
    ensures Total(p, l.pipe, Queries(k)) == Weigh(p, l.pipe[0], Queries(k)) + Total(p, l.pipe[1..], Queries(k))
    ensures Total(p, l.charged, Pushed(Items, k)) == Weigh(p, l.charged[0], Pushed(Items, k)) + Total(p, l.charged[1..], Pushed(Items, k))
    ensures Total(p, l.charged, Pushed(Volume, k)) == Weigh(p, l.charged[0], Pushed(Volume, k)) + Total(p, l.charged[1..], Pushed(Volume, k))
    ensures Data(p, l.pipe, k) == Data(p, [l.pipe[0]], k) + Data(p, l.pipe[1..], k)
  {
    DataPop(p, l.pipe, k);
  }

  /** The oldest message leaves the pipe: nothing the books count. */
  lemma ReadIgnored(p: Pars, l: Ledger, k: nat)
    requires Books(p, l, k) && l.pipe != [] && l.charged != [] && l.charged[0] == l.pipe[0]
    requires IgnoredForward(l.pipe[0], k)
    ensures Books(p, l.(pipe := l.pipe[1..], charged := l.charged[1..]), k)
  {
    hide Total, Data;
    PopFront(p, l, k);
    DataOne(p, l.pipe[0], k);
  }

  lemma ReadData(p: Pars, l: Ledger, k: nat)
    requires Books(p, l, k) && l.pipe != [] && l.charged != [] && l.charged[0] == l.pipe[0]
    requires l.pipe[0].tag == PushData && l.pipe[0].stream == k && Sound(p, l.pipe[0])
    ensures Books(p, l.(pipe := l.pipe[1..], charged := l.charged[1..],
                        d := DeliverPush(l.d, Unpack(p, l.pipe[0]))), k)
  {
    hide Total, Data;
    var m := Unpack(p, l.pipe[0]);
    PopFront(p, l, k);
    DataOne(p, l.pipe[0], k);
    assert ItemOf(p, m) == ItemOf(p, l.pipe[0]);
    if l.d.phase == Finished {
      DataNone(p, k);
      TotalPush(p, l.d.dropped, m, Pushed(Items, k));
      TotalPush(p, l.d.dropped, m, Pushed(Volume, k));
      DataPush(p, l.d.dropped, m, k);
    } else {
      TotalPush(p, l.d.queue, m, Pushed(Items, k));
      TotalPush(p, l.d.queue, m, Pushed(Volume, k));
      DataPush(p, l.d.queue, m, k);
    }
  }

  /** A query takes the deliverer's audit, or stays unanswered if there is none. */
  lemma ReadQuery(p: Pars, l: Ledger, k: nat)
    requires Books(p, l, k) && l.pipe != [] && l.charged != [] && l.charged[0] == l.pipe[0]
    requires l.pipe[0].tag == QueryBuffer && l.pipe[0].stream == k && l.pending == None
    ensures
      var l' := l.(pipe := l.pipe[1..], charged := l.charged[1..], d := l.d.(audit := EmptyAudit));
      Books(p, if l.d.audit.items != 0 then l'.(pending := Some(l.d.audit))
               else l'.(unanswered := l.unanswered + [l.pipe[0]]), k)
  {
    hide Total, Data;
    PopFront(p, l, k);
    DataOne(p, l.pipe[0], k);
    TotalPush(p, l.unanswered, l.pipe[0], Queries(k));
  }

  /** Another stream's query goes unanswered. */
  lemma OtherUnanswered(p: Pars, l: Ledger, m: Message, k: nat)
    requires Books(p, l, k) && m.stream != k
    ensures Books(p, l.(unanswered := l.unanswered + [m]), k)
  {
    TotalPush(p, l.unanswered, m, Queries(k));
  }

  lemma BackReadIgnored(p: Pars, l: Ledger, k: nat)
    requires Books(p, l, k) && l.back != [] && IgnoredBack(l.back[0], k)
    ensures Books(p, l.(back := l.back[1..]), k)
  {
  }

  /** A credit never exceeds the estimate. */
  lemma CreditCovered(p: Pars, l: Ledger, k: nat)
    requires Books(p, l, k) && l.back != [] && l.back[0].tag == UsedData && l.back[0].stream == k
    ensures l.back[0].audit.items <= l.est.items && l.back[0].audit.bytes <= l.est.bytes && 1 <= l.est.queries
  {
    assert Total(p, l.back, Returned(Items, k)) >= Weigh(p, l.back[0], Returned(Items, k));
    assert Total(p, l.back, Returned(Volume, k)) >= Weigh(p, l.back[0], Returned(Volume, k));
    assert Total(p, l.back, Replies(k)) >= 1;
    assert l.est.Of(Items) == l.est.items && l.est.Of(Volume) == l.est.bytes;
  }

  lemma BackReadCredit(p: Pars, l: Ledger, k: nat)
    requires Books(p, l, k) && l.back != [] && l.back[0].tag == UsedData && l.back[0].stream == k
    ensures
      var a := l.back[0].audit;
      Books(p, l.(back := l.back[1..],
                  est := Estimate(l.est.items - a.items, l.est.bytes - a.bytes, l.est.queries - 1)), k)
  {
  }

  // ---------------------------------------------------------------------------
  // The deliverer

  /** The next message in the queue is the one the order check expects. */
  lemma NextInOrder(p: Pars, l: Ledger, k: nat)
    requires Books(p, l, k) && CanDeliver(l.d)
    ensures l.d.queue[0].order == l.d.order
  {
    var d := l.d;
    assert d.hand == None && d.dropped == [];
    assert Data(p, d.queue, k)[0] == ItemOf(p, d.queue[0]);
    assert Data(p, l.accepted, k)[|d.delivered|] == ItemOf(p, d.queue[0]);
  }

  lemma TakeKeeps(p: Pars, l: Ledger, k: nat)
    requires Books(p, l, k) && CanDeliver(l.d)
    ensures Books(p, l.(d := DeliverPull(p, l.d).0), k) && DeliverPull(p, l.d).1
  {
    NextInOrder(p, l, k);
    hide Data;
    var m := l.d.queue[0];
    DataNone(p, k);
    DataOne(p, m, k);
    DataFirst(p, l.d.queue, k);
  }

  lemma DataFirst(p: Pars, q: seq<Message>, k: nat)
    requires q != []
    ensures Data(p, q, k) == Data(p, [q[0]], k) + Data(p, q[1..], k)
  {
    DataAppend(p, [q[0]], q[1..], k);
    assert [q[0]] + q[1..] == q;
  }

  lemma FlagsKeep(p: Pars, l: Ledger, d: Deliverer, k: nat)
    requires Books(p, l, k) && d == l.d.(stop := d.stop, phase := d.phase)
    requires d.phase == l.d.phase || (d.phase == Breaking && l.d.phase == Running && l.d.hand == None)
    ensures Books(p, l.(d := d), k)
  {
    hide Total, Data;
  }

  lemma HandleKeeps(p: Pars, l: Ledger, cancel: bool, k: nat)
    requires Books(p, l, k) && l.d.hand.Some?
    ensures Books(p, l.(d := DeliverHandle(l.d, cancel)), k)
  {
    hide Data, Total;
    DataOne(p, l.d.hand.value, k);
    DataNone(p, k);
  }

  lemma DropKeeps(p: Pars, l: Ledger, k: nat)
    requires Books(p, l, k) && l.d.phase == Breaking
    ensures Books(p, l.(d := DeliverFlush(l.d)), k)
  {
    hide Data, Total;
    assert l.d.dropped + l.d.queue == l.d.queue;
    DataNone(p, k);
    TotalNone(p);
  }

  lemma TotalNone(p: Pars)
    ensures forall w :: Total(p, [], w) == 0
  {
  }

  /** With nothing on its way, held or dropped, the estimate is zero. */
  lemma NothingLeft(p: Pars, l: Ledger, k: nat)
    requires Books(p, l, k) && l.charged == [] && l.back == [] && l.pending == None
    requires l.d.queue == [] && l.d.phase == Running && l.d.audit.items == 0
    ensures l.est.items == 0 && l.est.bytes == 0
  {
    assert l.est.Of(Items) == 0 && l.est.Of(Volume) == 0;
  }
}
