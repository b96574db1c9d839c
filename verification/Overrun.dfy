/**
 How far a stream can run past its limits: `push` compares the estimate with
 PushDataMaxItems and PushDataMaxBytes, but the estimate only rises when the
 sender thread comes to a message, and the mutex is released between the
 comparison and the enqueue.
 */
module Overrun {
  import opened Messages
  import opened ChannelModel
  import opened Ledger
  import opened ChannelInvariant
  import opened ChannelRuns
  import opened Progress
  import opened SenderReach

  function Backlog(p: Pars, w: End, k: nat, measure: Measure): nat {
    Total(p, Uncharged(w), Pushed(measure, k))
  }

  /** The estimate plus what is bound to be added to it. */
  function Committed(p: Pars, w: End, k: nat, measure: Measure): int {
    Est(w, k).Of(measure) + Backlog(p, w, k, measure)
  }

  function Limit(p: Pars, measure: Measure): nat {
    if measure == Items then p.maxItems else p.maxBytes
  }

  predicate Offering(w: End, k: nat) {
    w.offering.Some? && w.offering.value.stream == k
  }

  function Offered(p: Pars, w: End, k: nat, measure: Measure): nat {
    if Offering(w, k) then Weigh(p, w.offering.value, Pushed(measure, k)) else 0
  }

  // ---------------------------------------------------------------------------
  // One step

  lemma QueueCommits(p: Pars, w: End, m: Message, k: nat, measure: Measure)
    ensures Committed(p, Queue(w, m), k, measure) == Committed(p, w, k, measure) + Weigh(p, m, Pushed(measure, k))
  {
    assert Uncharged(Queue(w, m)) == Uncharged(w) + [m];
    TotalPush(p, Uncharged(w), m, Pushed(measure, k));
  }

  lemma OfferCommits(p: Pars, w: End, m: Message, k: nat, measure: Measure)
    requires m.stream < |w.audits|
    ensures Committed(p, Offer(p, w, m), k, measure) == Committed(p, w, k, measure)
    ensures Offer(p, w, m).offering != w.offering ==>
      Offer(p, w, m).offering == Some(m) && (Congested(p, Est(w, m.stream)) ==> w.endRun)
      && Offer(p, w, m).audits == w.audits
  {
    QueueCommits(p, w, Control(QueryBuffer, m.stream), k, measure);
  }

  lemma PrepareCommits(p: Pars, w: End, k: nat, measure: Measure)
    requires w.hand.Pulled?
    ensures Committed(p, Prepare(p, w), k, measure) <= Committed(p, w, k, measure)
    ensures (w.hand.m.tag == PushData ==> w.hand.m.stream < |w.audits|) ==>
      && Committed(p, Prepare(p, w), k, measure) == Committed(p, w, k, measure)
      && Est(Prepare(p, w), k).Of(measure) ==
           Est(w, k).Of(measure) + if Meets(w.hand.m, DataOf(k)) then Weigh(p, w.hand.m, Pushed(measure, k)) else 0
    ensures Prepare(p, w).offering == w.offering && Prepare(p, w).endRun == w.endRun
  {
    hide Total;
    var m, e := w.hand.m, Prepare(p, w);
    assert Uncharged(w)[0] == m && Uncharged(w)[1..] == w.sendQ && Uncharged(e) == e.sendQ;
    TotalPop(p, Uncharged(w), Pushed(measure, k));
    if e.sendQ != w.sendQ {
      TotalPush(p, w.sendQ, Control(QueryBuffer, m.stream), Pushed(measure, k));
    }
    if m.tag == PushData {
      assert Est(e, k).Of(measure) <= Est(w, k).Of(measure) + Weigh(p, m, Pushed(measure, k));
    } else {
      assert Est(e, k) == Est(w, k);
    }
  }

  lemma DispatchCommits(p: Pars, w: End, k: nat, measure: Measure)
    requires w.reader.Got?
    ensures Committed(p, Dispatch(p, w), k, measure) <= Committed(p, w, k, measure)
    ensures Dispatch(p, w).offering == w.offering && Dispatch(p, w).endRun == w.endRun
  {
    hide Total, Answer, Route;
    if w.reader.m.tag == UsedData {
      assert Est(Dispatch(p, w), k).Of(measure) <= Est(w, k).Of(measure);
    } else {
      DispatchAudits(p, w);
    }
    DispatchQueue(p, w);
    assert Uncharged(Dispatch(p, w)) == Uncharged(w);
  }

  lemma DispatchAudits(p: Pars, w: End)
    requires w.reader.Got? && w.reader.m.tag != UsedData
    ensures Dispatch(p, w).audits == w.audits
  {
  }

  lemma DispatchQueue(p: Pars, w: End)
    requires w.reader.Got?
    ensures Dispatch(p, w).sendQ == w.sendQ && Dispatch(p, w).hand == w.hand
    ensures Dispatch(p, w).offering == w.offering && Dispatch(p, w).endRun == w.endRun
  {
  }

  lemma ReplyCommits(p: Pars, w: End, k: nat, measure: Measure)
    requires w.reader.Replying?
    ensures Committed(p, Reply(w), k, measure) == Committed(p, w, k, measure)
  {
    var m := Control(UsedData, w.reader.stream, w.reader.audit);
    QueueCommits(p, w, m, k, measure);
    assert Uncharged(Reply(w)) == Uncharged(Queue(w, m));
  }

  lemma EnqueueCommits(p: Pars, w: End, k: nat, measure: Measure)
    requires w.offering.Some?
    ensures Committed(p, Enqueue(w), k, measure) == Committed(p, w, k, measure) + Offered(p, w, k, measure)
    ensures Enqueue(w).audits == w.audits
  {
    QueueCommits(p, w, w.offering.value, k, measure);
    assert Uncharged(Enqueue(w)) == Uncharged(Queue(w, w.offering.value));
  }

  predicate OtherOp(op: Op) {
    op.DoEndRun? || op.DoPull? || op.DoSend? || op.DoReceive? || op.DoRoute? || op.DoStop? || op.DoBreak?
    || op.DoTake? || op.DoHandle? || op.DoDrop?
  }

  lemma OtherCommits(p: Pars, w: End, r: End, op: Op)
    requires Can(p, w, r, op) && OtherOp(op)
    ensures
      var w' := Act(p, w, r, op);
      && Uncharged(w') == Uncharged(w) && w'.audits == w.audits && w'.offering == w.offering
      && (w.endRun ==> w'.endRun)
  {
  }

  /** A step commits more only by enqueueing an offer; and a new offer is made
      only when the estimate is within the limit. */
  lemma ActCommits(p: Pars, w: End, r: End, op: Op, k: nat, measure: Measure)
    requires Can(p, w, r, op)
    ensures
      var w' := Act(p, w, r, op);
      && Committed(p, w', k, measure) <=
           Committed(p, w, k, measure) + (if op == DoEnqueue then Offered(p, w, k, measure) else 0)
      && (w.endRun ==> w'.endRun)
      && (w'.offering == w.offering
          || (op.DoOffer? && w'.offering == Some(op.m) && w'.audits == w.audits
              && (!w'.endRun && op.m.stream == k ==>
                    && Est(w, k).Of(measure) <= Limit(p, measure)
                    && Committed(p, w', k, measure) == Committed(p, w, k, measure)))
          || (op == DoEnqueue && w'.offering == None && w'.audits == w.audits))
      && (op == DoEnqueue ==> w'.offering == None)
  {
    hide Prepare, Dispatch, Total, Weigh;
    match op
    case DoOffer(m) => OfferCommits(p, w, m, k, measure);
    case DoEnqueue => EnqueueCommits(p, w, k, measure);
    case DoPut(m) =>
      PlainWeighs(p, m, k, measure);
      QueueCommits(p, w, m, k, measure);
    case DoTimeout =>
      PlainWeighs(p, Control(KeepAlive, 0), k, measure);
      QueueCommits(p, w, Control(KeepAlive, 0), k, measure);
    case DoPrepare => PrepareCommits(p, w, k, measure);
    case DoDispatch => DispatchCommits(p, w, k, measure);
    case DoReply => ReplyCommits(p, w, k, measure);
    case _ => OtherCommits(p, w, r, op);
  }

  lemma PlainWeighs(p: Pars, m: Message, k: nat, measure: Measure)
    requires m.tag != PushData
    ensures Weigh(p, m, Pushed(measure, k)) == 0
  {
  }

  // ---------------------------------------------------------------------------
  // Whole runs

  /** The most that the stream's backlog at `side` has held at any state of the run. */
  function PeakOf(p: Pars, s: Sys, run: seq<Event>, side: Side, k: nat, measure: Measure): nat
    requires Legal(p, s, run)
    decreases |run|
  {
    var now := Backlog(p, Me(s, side), k, measure);
    if run == [] then now else Max(now, PeakOf(p, Next(p, s, run[0]), run[1..], side, k, measure))
  }

  function Max(x: nat, y: nat): nat {
    if x < y then y else x
  }

  /** No message offered for the stream measures more than `largest`. */
  ghost predicate OffersWithin(p: Pars, run: seq<Event>, side: Side, k: nat, measure: Measure, largest: nat) {
    forall i :: 0 <= i < |run| && run[i].side == side && run[i].op.DoOffer? ==>
      Weigh(p, run[i].op.m, Pushed(measure, k)) <= largest
  }

  /** A push once accepted is enqueued before anything else happens. */
  predicate PushesWhole(p: Pars, s: Sys, run: seq<Event>, side: Side)
    requires Legal(p, s, run)
    decreases |run|
  {
    run != [] ==>
      && (Me(s, side).offering.Some? ==> run[0] == Event(side, DoEnqueue))
      && PushesWhole(p, Next(p, s, run[0]), run[1..], side)
  }

  predicate WithinLimit(p: Pars, w: End, k: nat, measure: Measure, peak: nat, largest: nat) {
    && Offered(p, w, k, measure) <= largest
    && (w.endRun || Committed(p, w, k, measure) <= Limit(p, measure) + peak + if Offering(w, k) then 0 else largest)
  }

  predicate WithinTightLimit(p: Pars, w: End, k: nat, measure: Measure, peak: nat) {
    w.endRun || (Committed(p, w, k, measure) <= Limit(p, measure) + peak
                 && (Offering(w, k) ==> Est(w, k).Of(measure) <= Limit(p, measure)))
  }

  lemma PeerCommits(p: Pars, w: End, op: Op, k: nat, measure: Measure)
    ensures
      var w' := React(w, op);
      && Committed(p, w', k, measure) == Committed(p, w, k, measure) && w'.offering == w.offering
      && w'.endRun == w.endRun && w'.audits == w.audits
  {
    assert Uncharged(React(w, op)) == Uncharged(w);
  }

  lemma StepWithinLimit(p: Pars, s: Sys, e: Event, side: Side, k: nat, measure: Measure, peak: nat, largest: nat)
    requires Enabled(p, s, e) && WithinLimit(p, Me(s, side), k, measure, peak, largest)
    requires OffersWithin(p, [e], side, k, measure, largest)
    requires Backlog(p, Me(s, side), k, measure) <= peak
    ensures WithinLimit(p, Me(Next(p, s, e), side), k, measure, peak, largest)
  {
    hide Act, Can, React, Total, Weigh;
    assert [e][0] == e;
    if e.side == side {
      ActCommits(p, Me(s, side), Peer(s, side), e.op, k, measure);
    } else {
      PeerCommits(p, Me(s, side), e.op, k, measure);
    }
  }

  lemma {:induction false} RunWithinLimit(p: Pars, s: Sys, run: seq<Event>, side: Side, k: nat, measure: Measure,
                                          peak: nat, largest: nat)
    requires Legal(p, s, run) && WithinLimit(p, Me(s, side), k, measure, peak, largest)
    requires PeakOf(p, s, run, side, k, measure) <= peak && OffersWithin(p, run, side, k, measure, largest)
    ensures WithinLimit(p, Me(After(p, s, run), side), k, measure, peak, largest)
    decreases |run|
  {
    hide Enabled, Next, WithinLimit, Backlog, Weigh;
    if run != [] {
      assert forall i :: 0 <= i < |run[1..]| ==> run[1..][i] == run[i + 1];
      StepWithinLimit(p, s, run[0], side, k, measure, peak, largest);
      RunWithinLimit(p, Next(p, s, run[0]), run[1..], side, k, measure, peak, largest);
    }
  }

  lemma StepWithinTightLimit(p: Pars, s: Sys, e: Event, side: Side, k: nat, measure: Measure, peak: nat)
    requires Enabled(p, s, e) && WithinTightLimit(p, Me(s, side), k, measure, peak)
    requires Me(s, side).offering.Some? ==> e == Event(side, DoEnqueue)
    requires Backlog(p, Me(s, side), k, measure) <= peak && Backlog(p, Me(Next(p, s, e), side), k, measure) <= peak
    ensures WithinTightLimit(p, Me(Next(p, s, e), side), k, measure, peak)
  {
    hide Act, Can, React, Total, Weigh;
    var w, w' := Me(s, side), Me(Next(p, s, e), side);
    if e.side == side {
      ActCommits(p, w, Peer(s, side), e.op, k, measure);
    } else {
      PeerCommits(p, w, e.op, k, measure);
    }
  }

  lemma {:induction false} RunWithinTightLimit(p: Pars, s: Sys, run: seq<Event>, side: Side, k: nat,
                                               measure: Measure, peak: nat)
    requires Legal(p, s, run) && WithinTightLimit(p, Me(s, side), k, measure, peak)
    requires PeakOf(p, s, run, side, k, measure) <= peak && PushesWhole(p, s, run, side)
    ensures WithinTightLimit(p, Me(After(p, s, run), side), k, measure, peak)
    decreases |run|
  {
    hide Enabled, Next, WithinTightLimit, Backlog;
    if run != [] {
      PeakBegins(p, Next(p, s, run[0]), run[1..], side, k, measure);
      StepWithinTightLimit(p, s, run[0], side, k, measure, peak);
      RunWithinTightLimit(p, Next(p, s, run[0]), run[1..], side, k, measure, peak);
    }
  }

  lemma PeakBegins(p: Pars, s: Sys, run: seq<Event>, side: Side, k: nat, measure: Measure)
    requires Legal(p, s, run)
    ensures Backlog(p, Me(s, side), k, measure) <= PeakOf(p, s, run, side, k, measure)
  {
  }

  lemma NothingCommitted(p: Pars, k: nat, measure: Measure, peak: nat, largest: nat)
    ensures WithinLimit(p, FreshEnd, k, measure, peak, largest) && WithinTightLimit(p, FreshEnd, k, measure, peak)
  {
    assert Uncharged(FreshEnd) == [];
  }

  /** Bounded overrun, in items and in bytes: until the end of the run phase,
      what a stream has committed never exceeds its limit by more than the most
      its backlog has ever held plus the largest message offered. */
  lemma BoundedOverrun(p: Pars, run: seq<Event>, side: Side, k: nat, measure: Measure, largest: nat)
    requires Legal(p, Start, run) && !Me(After(p, Start, run), side).endRun
    requires OffersWithin(p, run, side, k, measure, largest)
    ensures Committed(p, Me(After(p, Start, run), side), k, measure)
         <= Limit(p, measure) + PeakOf(p, Start, run, side, k, measure) + largest
  {
    var peak := PeakOf(p, Start, run, side, k, measure);
    NothingCommitted(p, k, measure, peak, largest);
    hide Enabled, Next, Legal, After, PeakOf, Committed, Offered, OffersWithin;
    RunWithinLimit(p, Start, run, side, k, measure, peak, largest);
  }

  /** In items, then, the limit is passed by at most the deepest backlog plus one. */
  lemma BoundedOverrunItems(p: Pars, run: seq<Event>, side: Side, k: nat)
    requires Legal(p, Start, run) && !Me(After(p, Start, run), side).endRun
    ensures Committed(p, Me(After(p, Start, run), side), k, Items)
         <= p.maxItems + PeakOf(p, Start, run, side, k, Items) + 1
  {
    hide Enabled, Next, Backlog;
    BoundedOverrun(p, run, side, k, Items, 1);
  }

  /** The extra message goes if no step comes between a push's check and its enqueue. */
  lemma BoundedOverrunWholePushes(p: Pars, run: seq<Event>, side: Side, k: nat, measure: Measure)
    requires Legal(p, Start, run) && !Me(After(p, Start, run), side).endRun
    requires PushesWhole(p, Start, run, side)
    ensures Committed(p, Me(After(p, Start, run), side), k, measure)
         <= Limit(p, measure) + PeakOf(p, Start, run, side, k, measure)
  {
    var peak := PeakOf(p, Start, run, side, k, measure);
    NothingCommitted(p, k, measure, peak, 0);
    hide Enabled, Next, Legal, After, PeakOf, Committed, PushesWhole;
    RunWithinTightLimit(p, Start, run, side, k, measure, peak);
  }

  // ---------------------------------------------------------------------------
  // Which push takes the extra one

  lemma {:induction false} PeakAppend(p: Pars, s: Sys, x: seq<Event>, y: seq<Event>, side: Side, k: nat,
                                      measure: Measure)
    requires Legal(p, s, x) && Legal(p, After(p, s, x), y)
    ensures Legal(p, s, x + y)
    ensures PeakOf(p, s, x + y, side, k, measure)
         == Max(PeakOf(p, s, x, side, k, measure), PeakOf(p, After(p, s, x), y, side, k, measure))
    decreases |x|
  {
    hide Enabled, Next, Backlog;
    RunAppend(p, s, x, y);
    if x == [] {
      assert x + y == y;
    } else {
      assert (x + y)[1..] == x[1..] + y && (x + y)[0] == x[0];
      PeakAppend(p, Next(p, s, x[0]), x[1..], y, side, k, measure);
    }
  }

  lemma PeakOne(p: Pars, s: Sys, e: Event, side: Side, k: nat, measure: Measure)
    requires Enabled(p, s, e)
    ensures Legal(p, s, [e]) && After(p, s, [e]) == Next(p, s, e)
    ensures PeakOf(p, s, [e], side, k, measure)
         == Max(Backlog(p, Me(s, side), k, measure), Backlog(p, Me(Next(p, s, e), side), k, measure))
  {
    hide Enabled, Next, Backlog;
    assert [e][1..] == [];
  }

  lemma {:induction false} PeakEnds(p: Pars, s: Sys, run: seq<Event>, side: Side, k: nat, measure: Measure)
    requires Legal(p, s, run)
    ensures Backlog(p, Me(After(p, s, run), side), k, measure) <= PeakOf(p, s, run, side, k, measure)
    decreases |run|
  {
    hide Enabled, Next, Backlog;
    if run != [] {
      PeakEnds(p, Next(p, s, run[0]), run[1..], side, k, measure);
    }
  }

  ghost predicate NoEnqueue(run: seq<Event>, side: Side) {
    forall i :: 0 <= i < |run| ==> run[i] != Event(side, DoEnqueue)
  }

  /** A push with what happens between its check and its enqueue. */
  function PushAround(side: Side, m: Message, mid: seq<Event>): seq<Event> {
    [Event(side, DoOffer(m))] + mid + [Event(side, DoEnqueue)]
  }

  /** A push that passes its check after `run` and is enqueued after `mid` breaks the sharper bound. */
  ghost predicate Overruns(p: Pars, run: seq<Event>, side: Side, m: Message, mid: seq<Event>, measure: Measure) {
    && NoEnqueue(mid, side) && Legal(p, Start, run + PushAround(side, m, mid))
    && Committed(p, Me(After(p, Start, run + PushAround(side, m, mid)), side), m.stream, measure)
       > Limit(p, measure) + PeakOf(p, Start, run + PushAround(side, m, mid), side, m.stream, measure)
  }

  // What happens in between

  lemma {:induction false} BetweenCommits(p: Pars, s: Sys, mid: seq<Event>, side: Side, k: nat, measure: Measure)
    requires Legal(p, s, mid) && NoEnqueue(mid, side) && Me(s, side).offering.Some?
    ensures Committed(p, Me(After(p, s, mid), side), k, measure) <= Committed(p, Me(s, side), k, measure)
    ensures Me(After(p, s, mid), side).offering == Me(s, side).offering
    decreases |mid|
  {
    hide Enabled, Next, Committed;
    if mid != [] {
      StepBetween(p, s, mid[0], side, k, measure);
      assert forall i :: 0 <= i < |mid[1..]| ==> mid[1..][i] == mid[i + 1];
      BetweenCommits(p, Next(p, s, mid[0]), mid[1..], side, k, measure);
    }
  }

  lemma StepBetween(p: Pars, s: Sys, e: Event, side: Side, k: nat, measure: Measure)
    requires Enabled(p, s, e) && e != Event(side, DoEnqueue) && Me(s, side).offering.Some?
    ensures Committed(p, Me(Next(p, s, e), side), k, measure) <= Committed(p, Me(s, side), k, measure)
    ensures Me(Next(p, s, e), side).offering == Me(s, side).offering
  {
    hide Act, React, Committed, Congested;
    if e.side == side {
      ActCommits(p, Me(s, side), Peer(s, side), e.op, k, measure);
    } else {
      PeerCommits(p, Me(s, side), e.op, k, measure);
    }
  }

  /** The messages ahead of the first GOODBYE. */
  function AheadOfGoodbye(q: seq<Message>): seq<Message> {
    if q == [] || q[0].tag == Goodbye then [] else [q[0]] + AheadOfGoodbye(q[1..])
  }

  /** What of the stream's backlog the sender thread can still come to. */
  function Chargeable(p: Pars, w: End, k: nat, measure: Measure): nat {
    if w.hand == Exited || (w.hand.Charged? && w.hand.m.tag == Goodbye) then 0
    else Total(p, AheadOfGoodbye(Uncharged(w)), Pushed(measure, k))
  }

  /** The most that the estimate can rise to. */
  function Reachable(p: Pars, w: End, k: nat, measure: Measure): int {
    Est(w, k).Of(measure) + Chargeable(p, w, k, measure)
  }

  lemma {:induction false} AheadPush(p: Pars, q: seq<Message>, m: Message, w: Meter)
    requires Weigh(p, m, w) == 0
    ensures Total(p, AheadOfGoodbye(q + [m]), w) == Total(p, AheadOfGoodbye(q), w)
  {
    if q == [] {
      assert [m][1..] == [];
      TotalOne(p, m, w);
    } else {
      assert (q + [m])[1..] == q[1..] + [m];
      AheadPush(p, q[1..], m, w);
      AheadPop(p, q, w);
      AheadPop(p, q + [m], w);
    }
  }

  lemma AheadPop(p: Pars, q: seq<Message>, w: Meter)
    requires q != []
    ensures Total(p, AheadOfGoodbye(q), w)
         == if q[0].tag == Goodbye then 0 else Weigh(p, q[0], w) + Total(p, AheadOfGoodbye(q[1..]), w)
  {
    if q[0].tag != Goodbye {
      assert AheadOfGoodbye(q)[1..] == AheadOfGoodbye(q[1..]);
    }
  }

  /** Nothing is left to charge exactly when the sender thread can come to no message of the stream. */
  lemma {:induction false} AheadPlace(p: Pars, q: seq<Message>, k: nat, measure: Measure)
    ensures Place(q, DataOf(k)).None? ==> Total(p, AheadOfGoodbye(q), Pushed(measure, k)) == 0
    ensures Place(q, DataOf(k)).Some? ==> Total(p, AheadOfGoodbye(q), Pushed(Items, k)) > 0
  {
    if q != [] {
      AheadPlace(p, q[1..], k, measure);
      AheadPop(p, q, Pushed(measure, k));
      AheadPop(p, q, Pushed(Items, k));
    }
  }

  lemma ChargeableExactly(p: Pars, w: End, k: nat, measure: Measure)
    ensures Chargeable(p, w, k, Items) > 0 <==> CanReach(w, DataOf(k))
    ensures !CanReach(w, DataOf(k)) ==> Chargeable(p, w, k, measure) == 0
  {
    hide Place;
    AheadPlace(p, Uncharged(w), k, measure);
    AheadPlace(p, Uncharged(w), k, Items);
  }

  /** Without another enqueue the estimate cannot rise further. */
  lemma {:induction false} BetweenReaches(p: Pars, s: Sys, mid: seq<Event>, side: Side, k: nat, measure: Measure)
    requires Legal(p, s, mid) && NoEnqueue(mid, side)
    ensures Reachable(p, Me(After(p, s, mid), side), k, measure) <= Reachable(p, Me(s, side), k, measure)
    decreases |mid|
  {
    hide Enabled, Next, Reachable;
    if mid != [] {
      StepReaches(p, s, mid[0], side, k, measure);
      assert forall i :: 0 <= i < |mid[1..]| ==> mid[1..][i] == mid[i + 1];
      BetweenReaches(p, Next(p, s, mid[0]), mid[1..], side, k, measure);
    }
  }

  lemma StepReaches(p: Pars, s: Sys, e: Event, side: Side, k: nat, measure: Measure)
    requires Enabled(p, s, e) && e != Event(side, DoEnqueue)
    ensures Reachable(p, Me(Next(p, s, e), side), k, measure) <= Reachable(p, Me(s, side), k, measure)
  {
    hide Act, Can, AheadOfGoodbye, Total;
    if e.side == side {
      hide Reachable;
      ActReaches(p, Me(s, side), Peer(s, side), e.op, k, measure);
    } else {
      assert Uncharged(React(Me(s, side), e.op)) == Uncharged(Me(s, side));
    }
  }

  lemma QueueReachable(p: Pars, w: End, m: Message, k: nat, measure: Measure)
    requires m.tag != PushData
    ensures Reachable(p, Queue(w, m), k, measure) == Reachable(p, w, k, measure)
  {
    hide AheadOfGoodbye, Total;
    assert Uncharged(Queue(w, m)) == Uncharged(w) + [m];
    AheadPush(p, Uncharged(w), m, Pushed(measure, k));
  }

  /** The queries that a step counts are not in what can be reached. */
  lemma SameReachable(p: Pars, w: End, w': End, k: nat, measure: Measure)
    requires w'.hand == w.hand && w'.sendQ == w.sendQ && Est(w', k).Of(measure) == Est(w, k).Of(measure)
    ensures Reachable(p, w', k, measure) == Reachable(p, w, k, measure)
  {
    hide AheadOfGoodbye, Total;
    assert Uncharged(w') == Uncharged(w);
  }

  lemma PrepareReachable(p: Pars, w: End, k: nat, measure: Measure)
    requires w.hand.Pulled?
    ensures Reachable(p, Prepare(p, w), k, measure) <= Reachable(p, w, k, measure)
    ensures (w.hand.m.tag == PushData ==> w.hand.m.stream < |w.audits|) ==>
      Reachable(p, Prepare(p, w), k, measure) == Reachable(p, w, k, measure)
  {
    var m, e := w.hand.m, Prepare(p, w);
    PrepareQueues(p, w);
    PrepareEstimates(p, w, k, measure);
    hide AheadOfGoodbye, Total, Prepare, Est, Weigh;
    AheadPop(p, Uncharged(w), Pushed(measure, k));
    QueryBehind(p, w.sendQ, m.stream, k, measure);
  }

  lemma QueryBehind(p: Pars, q: seq<Message>, stream: nat, k: nat, measure: Measure)
    ensures Total(p, AheadOfGoodbye(q + [Control(QueryBuffer, stream)]), Pushed(measure, k))
         == Total(p, AheadOfGoodbye(q), Pushed(measure, k))
  {
    AheadPush(p, q, Control(QueryBuffer, stream), Pushed(measure, k));
  }

  lemma PrepareEstimates(p: Pars, w: End, k: nat, measure: Measure)
    requires w.hand.Pulled?
    ensures
      var m, e := w.hand.m, Prepare(p, w);
      Est(e, k).Of(measure) == Est(w, k).Of(measure)
        + if m.tag == PushData && m.stream >= |w.audits| then 0 else Weigh(p, m, Pushed(measure, k))
  {
    if w.hand.m.tag == PushData && w.hand.m.stream >= |w.audits| {
      PrepareQueues(p, w);
    } else {
      hide Prepare;
      PrepareCommits(p, w, k, measure);
    }
  }

  lemma PrepareQueues(p: Pars, w: End)
    requires w.hand.Pulled?
    ensures
      var m, e := w.hand.m, Prepare(p, w);
      && Uncharged(w)[0] == m && Uncharged(w)[1..] == w.sendQ && Uncharged(e) == e.sendQ
      && (e.sendQ == w.sendQ || e.sendQ == w.sendQ + [Control(QueryBuffer, m.stream)])
      && (if m.tag == PushData && m.stream >= |w.audits| then e.hand == Exited && e.audits == w.audits
          else e.hand == Charged(m) || (m.tag == Flush && e.hand == Idle))
  {
    hide HalfFull;
  }

  lemma ActReaches(p: Pars, w: End, r: End, op: Op, k: nat, measure: Measure)
    requires Can(p, w, r, op) && op != DoEnqueue
    ensures Reachable(p, Act(p, w, r, op), k, measure) <= Reachable(p, w, k, measure)
  {
    hide Prepare, Dispatch, Reachable, Pack, Sound;
    match op
    case DoOffer(m) =>
      QueueReachable(p, w, Control(QueryBuffer, m.stream), k, measure);
      OfferReachable(p, w, m, k, measure);
    case DoPut(m) => QueueReachable(p, w, m, k, measure);
    case DoTimeout => QueueReachable(p, w, Control(KeepAlive, 0), k, measure);
    case DoPull => PullReachable(p, w, k, measure);
    case DoPrepare => PrepareReachable(p, w, k, measure);
    case DoSend => SendReachable(p, w, k, measure);
    case DoDispatch => DispatchReachable(p, w, k, measure);
    case DoReply =>
      QueueReachable(p, w, Control(UsedData, w.reader.stream, w.reader.audit), k, measure);
      SameReachable(p, Queue(w, Control(UsedData, w.reader.stream, w.reader.audit)), Reply(w), k, measure);
    case DoEnqueue =>
    case _ => SameReachable(p, w, Act(p, w, r, op), k, measure);
  }

  lemma OfferReachable(p: Pars, w: End, m: Message, k: nat, measure: Measure)
    requires m.stream < |w.audits|
    ensures Reachable(p, Offer(p, w, m), k, measure) == Reachable(p, w, k, measure)
  {
    hide Reachable;
    var query := Control(QueryBuffer, m.stream);
    QueueReachable(p, w, query, k, measure);
    if Congested(p, w.audits[m.stream]) && !w.endRun {
      SameReachable(p, Queue(w, query), Offer(p, w, m), k, measure);
    } else {
      SameReachable(p, w, Offer(p, w, m), k, measure);
    }
  }

  lemma PullReachable(p: Pars, w: End, k: nat, measure: Measure)
    requires w.hand == Idle && w.sendQ != []
    ensures Reachable(p, Pull(w), k, measure) == Reachable(p, w, k, measure)
  {
    hide AheadOfGoodbye, Total;
    assert Uncharged(Pull(w)) == Uncharged(w);
  }

  lemma SendReachable(p: Pars, w: End, k: nat, measure: Measure)
    requires w.hand.Charged?
    ensures Reachable(p, Send(p, w), k, measure) == Reachable(p, w, k, measure)
  {
    hide AheadOfGoodbye, Total, Pack;
    assert Uncharged(Send(p, w)) == Uncharged(w);
  }

  lemma DispatchReachable(p: Pars, w: End, k: nat, measure: Measure)
    requires w.reader.Got?
    ensures Reachable(p, Dispatch(p, w), k, measure) <= Reachable(p, w, k, measure)
  {
    hide Dispatch, Total, AheadOfGoodbye;
    DispatchQueue(p, w);
    DispatchCommits(p, w, k, measure);
    assert Uncharged(Dispatch(p, w)) == Uncharged(w);
  }

  // Charging all there is

  lemma SenderCommits(p: Pars, x: End, y: End, op: Op, k: nat, measure: Measure)
    requires BothShapes(p, x, y) && Can(p, x, y, op) && SenderOp(op)
    ensures Committed(p, Act(p, x, y, op), k, measure) == Committed(p, x, k, measure)
    ensures Est(Act(p, x, y, op), k).Of(measure) >= Est(x, k).Of(measure)
    ensures Reachable(p, Act(p, x, y, op), k, measure) == Reachable(p, x, k, measure)
    ensures SenderFrame(x, Act(p, x, y, op))
  {
    hide Reachable;
    if op == DoPrepare {
      PrepareFrame(p, x);
      hide Prepare;
      PrepareCommits(p, x, k, measure);
      PrepareReachable(p, x, k, measure);
    } else {
      hide Prepare, Pack;
      OtherCommits(p, x, y, op);
      if op == DoPull {
        PullReachable(p, x, k, measure);
      } else {
        SendReachable(p, x, k, measure);
      }
    }
  }

  lemma PrepareFrame(p: Pars, x: End)
    requires x.hand.Pulled?
    ensures SenderFrame(x, Prepare(p, x))
  {
    hide HalfFull;
  }

  /** The sender thread's steps only move what is in the backlog into the estimate. */
  lemma {:induction false} SenderRunCommits(p: Pars, s: Sys, run: seq<Event>, side: Side, k: nat, measure: Measure)
    requires Healthy(p, Me(s, side), Peer(s, side)) && Legal(p, s, run) && SenderRun(run, side)
    ensures Healthy(p, Me(After(p, s, run), side), Peer(After(p, s, run), side))
    ensures Committed(p, Me(After(p, s, run), side), k, measure) == Committed(p, Me(s, side), k, measure)
    ensures Reachable(p, Me(After(p, s, run), side), k, measure) == Reachable(p, Me(s, side), k, measure)
    ensures PeakOf(p, s, run, side, k, measure) == Backlog(p, Me(s, side), k, measure)
    ensures Backlog(p, Me(After(p, s, run), side), k, measure) <= Backlog(p, Me(s, side), k, measure)
    ensures SenderFrame(Me(s, side), Me(After(p, s, run), side)) && Peer(After(p, s, run), side) == Peer(s, side)
    decreases |run|
  {
    if run != [] {
      var x, y, e := Me(s, side), Peer(s, side), run[0];
      assert Can(p, x, y, e.op) && Me(Next(p, s, e), side) == Act(p, x, y, e.op);
      assert BothShapes(p, x, y) && React(y, e.op) == y;
      hide Healthy, BothShapes, Can, Act, React, Enabled, Backlog, Est, Reachable;
      SenderCommits(p, x, y, e.op, k, measure);
      ActHealthy(p, x, y, e.op);
      SideStep(p, s, side, e.op);
      assert forall i :: 0 <= i < |run[1..]| ==> run[1..][i] == run[i + 1];
      SenderRunCommits(p, Next(p, s, e), run[1..], side, k, measure);
    }
  }

  /** The sender thread's steps until one more message of the stream is charged. */
  lemma ChargeOne(p: Pars, s: Sys, side: Side, k: nat) returns (run: seq<Event>)
    requires Healthy(p, Me(s, side), Peer(s, side)) && CanReach(Me(s, side), DataOf(k))
    ensures Legal(p, s, run) && SenderRun(run, side)
    ensures Est(Me(After(p, s, run), side), k).items == Est(Me(s, side), k).items + 1
  {
    var first := Reach(p, s, side, DataOf(k));
    var t, e := After(p, s, first), Event(side, DoPrepare);
    var x, y := Me(t, side), Peer(t, side);
    assert x.hand.m.stream < |x.audits|;
    assert Can(p, x, y, DoPrepare) && Act(p, x, y, DoPrepare) == Prepare(p, x);
    hide Healthy, Can, Act, Next, Enabled, Prepare, React, CanReach;
    PrepareCommits(p, x, k, Items);
    SideStep(p, t, side, DoPrepare);
    PeakOne(p, t, e, side, k, Items);
    RunAppend(p, s, first, [e]);
    run := first + [e];
  }

  /** The sender thread's steps until all of the stream that it can come to is charged. */
  lemma {:induction false} ChargeAll(p: Pars, s: Sys, side: Side, k: nat) returns (run: seq<Event>)
    requires Healthy(p, Me(s, side), Peer(s, side))
    ensures Legal(p, s, run) && SenderRun(run, side) && !CanReach(Me(After(p, s, run), side), DataOf(k))
    decreases Backlog(p, Me(s, side), k, Items)
  {
    hide Healthy, CanReach, Enabled, Next, Est, Backlog;
    if CanReach(Me(s, side), DataOf(k)) {
      var first := ChargeOne(p, s, side, k);
      SenderRunCommits(p, s, first, side, k, Items);
      var rest := ChargeAll(p, After(p, s, first), side, k);
      RunAppend(p, s, first, rest);
      run := first + rest;
    } else {
      run := [];
    }
  }

  // The exact condition

  /** The states on the way through a push. */
  lemma PushStates(p: Pars, s: Sys, side: Side, m: Message, mid: seq<Event>)
    requires Legal(p, s, PushAround(side, m, mid))
    ensures Enabled(p, s, Event(side, DoOffer(m))) && Legal(p, Next(p, s, Event(side, DoOffer(m))), mid)
    ensures
      var t := After(p, Next(p, s, Event(side, DoOffer(m))), mid);
      && Enabled(p, t, Event(side, DoEnqueue))
      && After(p, s, PushAround(side, m, mid)) == Next(p, t, Event(side, DoEnqueue))
  {
    var offer, enqueue := Event(side, DoOffer(m)), Event(side, DoEnqueue);
    hide Enabled, Next;
    assert [offer] + mid + [enqueue] == [offer] + (mid + [enqueue]);
    RunSplit(p, s, [offer], mid + [enqueue]);
    assert [offer][1..] == [] && [enqueue][1..] == [];
    RunSplit(p, Next(p, s, offer), mid, [enqueue]);
  }

  lemma PushPeak(p: Pars, s: Sys, side: Side, m: Message, mid: seq<Event>, k: nat, measure: Measure)
    requires Enabled(p, s, Event(side, DoOffer(m))) && Legal(p, Next(p, s, Event(side, DoOffer(m))), mid)
    requires Enabled(p, After(p, Next(p, s, Event(side, DoOffer(m))), mid), Event(side, DoEnqueue))
    ensures Legal(p, s, PushAround(side, m, mid))
    ensures
      var s1 := Next(p, s, Event(side, DoOffer(m)));
      var s2 := After(p, s1, mid);
      var s3 := Next(p, s2, Event(side, DoEnqueue));
      && After(p, s, PushAround(side, m, mid)) == s3
      && PeakOf(p, s, PushAround(side, m, mid), side, k, measure)
      == Max(Backlog(p, Me(s, side), k, measure),
             Max(PeakOf(p, s1, mid, side, k, measure), Backlog(p, Me(s3, side), k, measure)))
  {
    var offer, enqueue := Event(side, DoOffer(m)), Event(side, DoEnqueue);
    hide Enabled, Next, Backlog;
    var s1 := Next(p, s, offer);
    var s2 := After(p, s1, mid);
    PeakOne(p, s, offer, side, k, measure);
    PeakOne(p, s2, enqueue, side, k, measure);
    PeakEnds(p, s1, mid, side, k, measure);
    PeakBegins(p, s1, mid, side, k, measure);
    PeakAppend(p, s1, mid, [enqueue], side, k, measure);
    RunAppend(p, s1, mid, [enqueue]);
    PeakAppend(p, s, [offer], mid + [enqueue], side, k, measure);
    RunAppend(p, s, [offer], mid + [enqueue]);
    assert [offer] + mid + [enqueue] == [offer] + (mid + [enqueue]);
  }

  /** A push that passes its check changes nothing but the offering ... */
  lemma OfferPasses(p: Pars, s: Sys, side: Side, m: Message)
    requires Can(p, Me(s, side), Peer(s, side), DoOffer(m)) && !Congested(p, Est(Me(s, side), m.stream))
    ensures Enabled(p, s, Event(side, DoOffer(m)))
    ensures Peer(Next(p, s, Event(side, DoOffer(m))), side) == Peer(s, side)
    ensures Me(Next(p, s, Event(side, DoOffer(m))), side) == Me(s, side).(offering := Some(m))
  {
  }

  /** ... and its enqueue adds to the backlog. */
  lemma EnqueueAdds(p: Pars, s: Sys, side: Side, m: Message, measure: Measure)
    requires Me(s, side).offering == Some(m) && m.tag == PushData
    ensures Enabled(p, s, Event(side, DoEnqueue))
    ensures
      var w, w' := Me(s, side), Me(Next(p, s, Event(side, DoEnqueue)), side);
      && w' == Enqueue(w) && Est(w', m.stream) == Est(w, m.stream)
      && Backlog(p, w', m.stream, measure)
      == Backlog(p, w, m.stream, measure) + Weigh(p, m, Pushed(measure, m.stream))
  {
    EnqueueCommits(p, Me(s, side), m.stream, measure);
  }

  /** A push that passes its check can be made. */
  predicate Passes(p: Pars, s: Sys, side: Side, m: Message) {
    && Can(p, Me(s, side), Peer(s, side), DoOffer(m))
    && !Congested(p, Est(Me(s, side), m.stream))
  }

  /** Enqueue by enqueue: the sharper bound breaks exactly where the estimate has
      passed its limit since the check, and with the message all that is committed
      is more than the limit and the deepest backlog. */
  lemma OverrunPerEnqueue(p: Pars, run: seq<Event>, side: Side, m: Message, mid: seq<Event>, measure: Measure)
    requires Legal(p, Start, run) && NoEnqueue(mid, side) && Passes(p, After(p, Start, run), side, m)
    requires Legal(p, Next(p, After(p, Start, run), Event(side, DoOffer(m))), mid)
    ensures
      var k, s1 := m.stream, Next(p, After(p, Start, run), Event(side, DoOffer(m)));
      var w2 := Me(After(p, s1, mid), side);
      Overruns(p, run, side, m, mid, measure) <==>
        && Est(w2, k).Of(measure) > Limit(p, measure)
        && Committed(p, w2, k, measure) + Weigh(p, m, Pushed(measure, k)) >
             Limit(p, measure) + Max(PeakOf(p, Start, run, side, k, measure), PeakOf(p, s1, mid, side, k, measure))
  {
    var s, k := After(p, Start, run), m.stream;
    var s1 := Next(p, s, Event(side, DoOffer(m)));
    hide Enabled, Next, Can, Total, Act, React, Congested, Weigh;
    OfferPasses(p, s, side, m);
    assert Uncharged(Me(s1, side)) == Uncharged(Me(s, side));
    BetweenCommits(p, s1, mid, side, k, measure);
    CanOffer(p, Me(s, side), Peer(s, side), m);
    EnqueueAdds(p, After(p, s1, mid), side, m, measure);
    PushPeak(p, s, side, m, mid, k, measure);
    PeakAppend(p, Start, run, PushAround(side, m, mid), side, k, measure);
    RunAppend(p, Start, run, PushAround(side, m, mid));
    PeakEnds(p, Start, run, side, k, measure);
  }

  lemma CanOffer(p: Pars, w: End, r: End, m: Message)
    requires Can(p, w, r, DoOffer(m))
    ensures m.tag == PushData && m.stream < |w.audits| && w.offering == None
  {
  }

  /** Push by push, in items and in bytes: one that passes its check now may break the
      sharper bound if and only if with it more is committed than the limit and the
      deepest backlog, and what the sender thread can still come to takes the
      estimate past its limit. */
  lemma OverrunExactly(p: Pars, run: seq<Event>, side: Side, m: Message, measure: Measure)
    requires p.Valid() && Legal(p, Start, run) && Passes(p, After(p, Start, run), side, m)
    ensures
      (exists mid: seq<Event> :: Overruns(p, run, side, m, mid, measure)) <==> MayOverrun(p, run, side, m, measure)
  {
    hide Legal, After, Passes, Overruns, MayOverrun;
    if MayOverrun(p, run, side, m, measure) {
      var mid := OverrunAhead(p, run, side, m, measure);
    }
    if mid: seq<Event> :| Overruns(p, run, side, m, mid, measure) {
      OverrunNeeds(p, run, side, m, mid, measure);
    }
  }

  predicate MayOverrun(p: Pars, run: seq<Event>, side: Side, m: Message, measure: Measure)
    requires Legal(p, Start, run)
  {
    var w, k := Me(After(p, Start, run), side), m.stream;
    && Committed(p, w, k, measure) + Weigh(p, m, Pushed(measure, k)) >
         Limit(p, measure) + PeakOf(p, Start, run, side, k, measure)
    && Est(w, k).Of(measure) + Chargeable(p, w, k, measure) > Limit(p, measure)
  }

  /** In items: if and only if the estimate is at its limit, the backlog at its deepest,
      and the sender thread can still come to one of the stream's messages. */
  lemma OverrunItemsExactly(p: Pars, run: seq<Event>, side: Side, m: Message)
    requires p.Valid() && Legal(p, Start, run) && Passes(p, After(p, Start, run), side, m)
    ensures
      var w := Me(After(p, Start, run), side);
      (exists mid: seq<Event> :: Overruns(p, run, side, m, mid, Items)) <==>
        && Est(w, m.stream).items == p.maxItems
        && Backlog(p, w, m.stream, Items) == PeakOf(p, Start, run, side, m.stream, Items)
        && CanReach(w, DataOf(m.stream))
  {
    var s := After(p, Start, run);
    CanOffer(p, Me(s, side), Peer(s, side), m);
    assert Est(Me(s, side), m.stream).Of(Items) <= Limit(p, Items);
    hide Enabled, Next, Can, Chargeable, CanReach, Overruns, Congested, Legal, After, PeakOf, Backlog, Est;
    OverrunExactly(p, run, side, m, Items);
    ChargeableExactly(p, Me(s, side), m.stream, Items);
    PeakEnds(p, Start, run, side, m.stream, Items);
  }

  /** And enqueue by enqueue: in between nothing was credited and something charged. */
  lemma OverrunItemsPerEnqueue(p: Pars, run: seq<Event>, side: Side, m: Message, mid: seq<Event>)
    requires Legal(p, Start, run) && NoEnqueue(mid, side) && Passes(p, After(p, Start, run), side, m)
    requires Legal(p, Next(p, After(p, Start, run), Event(side, DoOffer(m))), mid)
    ensures
      var s := After(p, Start, run);
      var k, s1 := m.stream, Next(p, s, Event(side, DoOffer(m)));
      var s2 := After(p, s1, mid);
      Overruns(p, run, side, m, mid, Items) <==>
        && Est(Me(s, side), k).items == p.maxItems
        && Backlog(p, Me(s, side), k, Items)
        == Max(PeakOf(p, Start, run, side, k, Items), PeakOf(p, s1, mid, side, k, Items))
        && Committed(p, Me(s2, side), k, Items) == Committed(p, Me(s, side), k, Items)
        && Backlog(p, Me(s2, side), k, Items) < Backlog(p, Me(s, side), k, Items)
  {
    var s, k := After(p, Start, run), m.stream;
    var s1 := Next(p, s, Event(side, DoOffer(m)));
    CanOffer(p, Me(s, side), Peer(s, side), m);
    assert Est(Me(s, side), k).Of(Items) <= Limit(p, Items);
    OfferPasses(p, s, side, m);
    assert Uncharged(Me(s1, side)) == Uncharged(Me(s, side));
    hide Enabled, Next, Can, Total, Act, React, Congested, Overruns, Legal, After, PeakOf;
    BetweenCommits(p, s1, mid, side, k, Items);
    PeakEnds(p, Start, run, side, k, Items);
    OverrunPerEnqueue(p, run, side, m, mid, Items);
  }

  lemma OverrunAhead(p: Pars, run: seq<Event>, side: Side, m: Message, measure: Measure) returns (mid: seq<Event>)
    requires p.Valid() && Legal(p, Start, run) && Passes(p, After(p, Start, run), side, m)
    requires MayOverrun(p, run, side, m, measure)
    ensures Overruns(p, run, side, m, mid, measure)
    ensures Legal(p, Next(p, After(p, Start, run), Event(side, DoOffer(m))), mid) && SenderRun(mid, side)
  {
    var s, k := After(p, Start, run), m.stream;
    var s1 := Next(p, s, Event(side, DoOffer(m)));
    OfferPasses(p, s, side, m);
    HealthyAfter(p, run, side);
    OfferHealthy(p, s, side, m);
    assert Uncharged(Me(s1, side)) == Uncharged(Me(s, side));
    hide Enabled, Next, Can, Total, Act, React, Healthy, CanReach, Overruns, Congested, AheadOfGoodbye;
    mid := ChargeAll(p, s1, side, k);
    SenderRunCommits(p, s1, mid, side, k, measure);
    ChargeableExactly(p, Me(After(p, s1, mid), side), k, measure);
    PeakEnds(p, Start, run, side, k, measure);
    OverrunPerEnqueue(p, run, side, m, mid, measure);
  }

  lemma OfferHealthy(p: Pars, s: Sys, side: Side, m: Message)
    requires Can(p, Me(s, side), Peer(s, side), DoOffer(m)) && Healthy(p, Me(s, side), Peer(s, side))
    ensures
      Enabled(p, s, Event(side, DoOffer(m)))
      && Healthy(p, Me(Next(p, s, Event(side, DoOffer(m))), side), Peer(Next(p, s, Event(side, DoOffer(m))), side))
  {
    hide Healthy, Can, Act, React, Enabled, Next;
    ActHealthy(p, Me(s, side), Peer(s, side), DoOffer(m));
    SideStep(p, s, side, DoOffer(m));
  }

  lemma OverrunNeeds(p: Pars, run: seq<Event>, side: Side, m: Message, mid: seq<Event>, measure: Measure)
    requires p.Valid() && Legal(p, Start, run) && Overruns(p, run, side, m, mid, measure)
    requires Passes(p, After(p, Start, run), side, m)
    ensures MayOverrun(p, run, side, m, measure)
  {
    var s, k := After(p, Start, run), m.stream;
    RunSplit(p, Start, run, PushAround(side, m, mid));
    PushStates(p, s, side, m, mid);
    OfferPasses(p, s, side, m);
    var s1 := Next(p, s, Event(side, DoOffer(m)));
    assert Uncharged(Me(s1, side)) == Uncharged(Me(s, side));
    hide Enabled, Next, Can, Total, Act, React, Congested, AheadOfGoodbye, Backlog, PeakOf;
    OverrunPerEnqueue(p, run, side, m, mid, measure);
    BetweenCommits(p, s1, mid, side, k, measure);
    BetweenReaches(p, s1, mid, side, k, measure);
  }
}
