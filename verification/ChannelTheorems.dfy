/**
 The theorems about every run of a channel, from its start, in either
 direction: `w` is the end a stream's data comes from, `r` the end it goes to.
 */
module ChannelTheorems {
  import opened Messages
  import opened ChannelModel
  import opened Ledger
  import opened ChannelInvariant
  import opened ChannelRuns

  lemma Reached(p: Pars, run: seq<Event>, side: Side, k: nat)
    requires p.Valid() && Legal(p, Start, run)
    ensures
      var s := After(p, Start, run);
      Healthy(p, Me(s, side), Peer(s, side)) && BothBooks(p, Me(s, side), Peer(s, side), k)
  {
    hide BothShapes, BothBooks;
    StartHealthy(p);
    RunHealthy(p, Start, run);
    var s := After(p, Start, run);
    HealthyFlips(p, s.a, s.b);
  }

  /** Conservation: the sender's estimate of a stream's remote buffer is what is
      charged and being sent, on the wire, in the receiver's hands, queued at
      the deliverer, taken from its queue but not yet reported, reported in
      replies not yet credited, or dropped by a stopped deliverer. */
  lemma Conservation(p: Pars, run: seq<Event>, side: Side, k: nat, measure: Measure)
    requires p.Valid() && Legal(p, Start, run)
    ensures
      var s := After(p, Start, run);
      var w, r := Me(s, side), Peer(s, side);
      Est(w, k).Of(measure) ==
        Total(p, ChargedHand(w.hand), Pushed(measure, k))
        + Total(p, w.wire, Pushed(measure, k))
        + Total(p, Held(r.reader), Pushed(measure, k))
        + Total(p, Dlv(r, k).queue, Pushed(measure, k))
        + Amount(Dlv(r, k).audit, measure)
        + Taken(PendingOf(r.reader, k), measure)
        + Total(p, r.sendQ, Returned(measure, k))
        + Total(p, InHand(r.hand), Returned(measure, k))
        + Total(p, r.wire, Returned(measure, k))
        + Total(p, Held(w.reader), Returned(measure, k))
        + Total(p, Dlv(r, k).dropped, Pushed(measure, k))
  {
    hide Total;
    Reached(p, run, side, k);
    var s := After(p, Start, run);
    var w, r := Me(s, side), Peer(s, side);
    TotalAppend(p, Held(r.reader) + w.wire, ChargedHand(w.hand), Pushed(measure, k));
    TotalAppend(p, Held(r.reader), w.wire, Pushed(measure, k));
    TotalAppend(p, Held(w.reader) + r.wire + InHand(r.hand), r.sendQ, Returned(measure, k));
    TotalAppend(p, Held(w.reader) + r.wire, InHand(r.hand), Returned(measure, k));
    TotalAppend(p, Held(w.reader), r.wire, Returned(measure, k));
  }

  /** No run ends in a routing, audit, decompression or ordering error. */
  lemma NoInternalError(p: Pars, run: seq<Event>)
    requires p.Valid() && Legal(p, Start, run)
    ensures After(p, Start, run).a.fault == None && After(p, Start, run).b.fault == None
  {
    Reached(p, run, SideA, 0);
  }

  /** A credit being handled is for a known stream, and covered by its estimate:
      neither the checked subtraction nor the two unchecked ones go below zero. */
  lemma CreditIsCovered(p: Pars, run: seq<Event>, side: Side)
    requires p.Valid() && Legal(p, Start, run)
    requires var w := Me(After(p, Start, run), side); w.reader.Got? && w.reader.m.tag == UsedData
    ensures
      var w := Me(After(p, Start, run), side);
      var m := w.reader.m;
      && m.stream < |w.audits|
      && m.audit.items <= w.audits[m.stream].items && m.audit.bytes <= w.audits[m.stream].bytes
      && 1 <= w.audits[m.stream].queries
  {
    hide Books, Shape;
    var s := After(p, Start, run);
    Reached(p, run, side, Me(s, side).reader.m.stream);
    CreditNoFault(p, Me(s, side), Peer(s, side));
  }

  /** A deliverer with no items to report has no bytes to report either. */
  lemma EmptyAuditHasNoBytes(p: Pars, run: seq<Event>, side: Side, k: nat)
    requires p.Valid() && Legal(p, Start, run)
    ensures
      var d := Dlv(Me(After(p, Start, run), side), k);
      d.audit.items == 0 ==> d.audit.bytes == 0
  {
    Reached(p, run, side, k);
  }

  /** In-order, exactly-once delivery: what a handler has been given is a prefix
      of what `push` has accepted for its stream, each message in its place; and
      it is all of it once nothing is left under way and nothing was dropped. */
  lemma InOrderDelivery(p: Pars, run: seq<Event>, side: Side, k: nat)
    requires p.Valid() && Legal(p, Start, run)
    ensures
      var s := After(p, Start, run);
      var w, r := Me(s, side), Peer(s, side);
      var given, accepted := Dlv(r, k).delivered, Data(p, w.log.accepted, k);
      && given <= accepted
      && InSequence(accepted)
      && (Pipe(w, r) == [] && Dlv(r, k).queue == [] && Dlv(r, k).hand == None && Dlv(r, k).dropped == [] ==>
            given == accepted)
  {
    hide Total, Data;
    Reached(p, run, side, k);
    DataNone(p, k);
  }

  /** The order check at a deliverer always passes. */
  lemma OrderCheckPasses(p: Pars, run: seq<Event>, side: Side, k: nat)
    requires p.Valid() && Legal(p, Start, run)
    requires var r := Me(After(p, Start, run), side); k in r.deliverers && CanDeliver(r.deliverers[k])
    ensures
      var d := Me(After(p, Start, run), side).deliverers[k];
      d.queue[0].order == d.order == |d.delivered|
  {
    hide Total, Data;
    var s := After(p, Start, run);
    Reached(p, run, side, k);
    NextInOrder(p, View(Peer(s, side), Me(s, side), k), k);
  }

  /** The count of unaccounted queries is the queries queued or on their way,
      the replies being made or on their way back, and the queries that met an
      empty audit; so it never goes below zero. */
  lemma QueryAccounting(p: Pars, run: seq<Event>, side: Side, k: nat)
    requires p.Valid() && Legal(p, Start, run)
    ensures
      var s := After(p, Start, run);
      var w, r := Me(s, side), Peer(s, side);
      && Est(w, k).queries ==
           Total(p, w.sendQ, Queries(k)) + Total(p, InHand(w.hand), Queries(k)) + Total(p, w.wire, Queries(k))
           + Total(p, Held(r.reader), Queries(k))
           + (if r.reader.Replying? && r.reader.stream == k then 1 else 0)
           + Total(p, r.sendQ, Replies(k)) + Total(p, InHand(r.hand), Replies(k)) + Total(p, r.wire, Replies(k))
           + Total(p, Held(w.reader), Replies(k))
           + Total(p, r.log.unanswered, Queries(k))
      && Est(w, k).queries >= Total(p, r.log.unanswered, Queries(k))
  {
    hide Total;
    Reached(p, run, side, k);
    var s := After(p, Start, run);
    var w, r := Me(s, side), Peer(s, side);
    TotalAppend(p, Held(r.reader) + w.wire + InHand(w.hand), w.sendQ, Queries(k));
    TotalAppend(p, Held(r.reader) + w.wire, InHand(w.hand), Queries(k));
    TotalAppend(p, Held(r.reader), w.wire, Queries(k));
    TotalAppend(p, Held(w.reader) + r.wire + InHand(r.hand), r.sendQ, Replies(k));
    TotalAppend(p, Held(w.reader) + r.wire, InHand(r.hand), Replies(k));
    TotalAppend(p, Held(w.reader), r.wire, Replies(k));
  }

  // ---------------------------------------------------------------------------
  // Unanswered queries

  lemma UnansweredGrowsNext(p: Pars, s: Sys, e: Event, side: Side)
    requires Enabled(p, s, e)
    ensures Me(s, side).log.unanswered <= Me(Next(p, s, e), side).log.unanswered
  {
    if e.op == DoDispatch {
    } else if e.op == DoPrepare {
    } else {
      hide Prepare, Dispatch;
    }
  }

  lemma {:induction false} UnansweredGrows(p: Pars, s: Sys, run: seq<Event>, side: Side)
    requires Legal(p, s, run)
    ensures Me(s, side).log.unanswered <= Me(After(p, s, run), side).log.unanswered
    decreases |run|
  {
    hide Enabled, Next;
    if run != [] {
      UnansweredGrowsNext(p, s, run[0], side);
      UnansweredGrows(p, Next(p, s, run[0]), run[1..], side);
    }
  }

  /** Once a query of stream k has gone unanswered, the sender thread never asks
      about k again: preparing a message of k leaves the send queue as it is. */
  lemma UnansweredSilencesSender(p: Pars, run: seq<Event>, more: seq<Event>, side: Side, k: nat)
    requires p.Valid() && Legal(p, Start, run) && Legal(p, After(p, Start, run), more)
    requires Total(p, Peer(After(p, Start, run), side).log.unanswered, Queries(k)) > 0
    ensures
      var w := Me(After(p, After(p, Start, run), more), side);
      && Est(w, k).queries > 0
      && (w.hand.Pulled? && w.hand.m.tag == PushData && w.hand.m.stream == k ==> Prepare(p, w).sendQ == w.sendQ)
  {
    var s := After(p, Start, run);
    var t := After(p, s, more);
    var other := if side == SideA then SideB else SideA;
    UnansweredGrows(p, s, more, other);
    var before, now := Me(s, other).log.unanswered, Me(t, other).log.unanswered;
    assert now == before + now[|before|..];
    TotalAppend(p, before, now[|before|..], Queries(k));
    RunAppend(p, Start, run, more);
    QueryAccounting(p, run + more, side, k);
  }
}
