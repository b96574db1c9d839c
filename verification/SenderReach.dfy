/**
 What the sender thread comes to: the first message of a kind in its queue,
 unless a GOODBYE is ahead of it; and the steps that bring it there.
 */
module SenderReach {
  import opened Messages
  import opened ChannelModel
  import opened ChannelInvariant
  import opened ChannelRuns
  import opened Progress

  /** Messages queued for the sender thread and not yet charged. */
  function Uncharged(w: End): seq<Message> {
    (if w.hand.Pulled? then [w.hand.m] else []) + w.sendQ
  }

  datatype Goal = DataOf(k: nat) | AFlush

  predicate Meets(m: Message, goal: Goal) {
    match goal
    case DataOf(k) => m.tag == PushData && m.stream == k
    case AFlush => m.tag == Flush
  }

  /** Where the first message that meets the goal is, if no GOODBYE is ahead of it. */
  function Place(q: seq<Message>, goal: Goal): (place: Option<nat>)
    ensures place.Some? ==> place.value < |q| && Meets(q[place.value], goal)
    ensures place.Some? ==> forall i :: 0 <= i < place.value ==> q[i].tag != Goodbye && !Meets(q[i], goal)
  {
    if q == [] || q[0].tag == Goodbye then None
    else if Meets(q[0], goal) then Some(0)
    else
      match Place(q[1..], goal)
      case None => None
      case Some(n) => Some(n + 1)
  }

  /** The sender thread comes to such a message if it goes on. */
  predicate CanReach(w: End, goal: Goal) {
    && w.hand != Exited && !(w.hand.Charged? && w.hand.m.tag == Goodbye)
    && Place(Uncharged(w), goal).Some?
  }

  /** What is queued later changes nothing, unless it meets the goal itself. */
  lemma {:induction false} PlaceAppend(q: seq<Message>, m: Message, goal: Goal)
    ensures Place(q, goal).Some? ==> Place(q + [m], goal) == Place(q, goal)
    ensures Place(q, goal).None? && !Meets(m, goal) ==> Place(q + [m], goal).None?
  {
    if q == [] {
      assert [m][1..] == [];
    } else {
      assert (q + [m])[1..] == q[1..] + [m];
      PlaceAppend(q[1..], m, goal);
    }
  }

  lemma PlaceBehind(q: seq<Message>, goal: Goal)
    requires Place(q, goal).Some? && q != [] && !Meets(q[0], goal)
    ensures Place(q[1..], goal).Some? && Place(q, goal).value == Place(q[1..], goal).value + 1
  {
  }

  ghost predicate SenderRun(run: seq<Event>, side: Side) {
    forall i :: 0 <= i < |run| ==> run[i].side == side && SenderOp(run[i].op)
  }

  lemma SenderRunCons(p: Pars, s: Sys, e: Event, rest: seq<Event>, side: Side)
    requires Enabled(p, s, e) && Legal(p, Next(p, s, e), rest) && SenderRun(rest, side)
    requires e.side == side && SenderOp(e.op)
    ensures Legal(p, s, [e] + rest) && After(p, s, [e] + rest) == After(p, Next(p, s, e), rest)
    ensures SenderRun([e] + rest, side)
  {
    assert ([e] + rest)[1..] == rest;
  }

  function Turns(hand: Hand): nat {
    if hand.Charged? then 2 else if hand == Idle then 1 else 0
  }

  /** What will have been handled when the goal is in hand. */
  function Ahead(w: End, goal: Goal): seq<Message>
    requires CanReach(w, goal)
  {
    w.log.handled + ChargedHand(w.hand) + Uncharged(w)[..Place(Uncharged(w), goal).value]
  }

  /** From x to x' the sender thread has come nearer to the goal. */
  predicate Nearer(x: End, x': End, goal: Goal) {
    && SenderFrame(x, x') && CanReach(x, goal) && CanReach(x', goal)
    && Ahead(x', goal) == Ahead(x, goal)
    && (var n, n' := Place(Uncharged(x), goal).value, Place(Uncharged(x'), goal).value;
        n' < n || (n' == n && Turns(x'.hand) < Turns(x.hand)))
    && (goal.DataOf? ==> Est(x', goal.k) == Est(x, goal.k))
  }

  /** One message is off the queue, and maybe a query has joined it. */
  predicate TookOne(x: End, x': End, goal: Goal) {
    && x.hand.Pulled?
    && SenderFrame(x, x') && x'.hand != Exited && !x'.hand.Pulled?
    && (x'.hand.Charged? ==> x'.hand.m == x.hand.m)
    && x'.log.handled + ChargedHand(x'.hand) == x.log.handled + [x.hand.m]
    && (x'.sendQ == x.sendQ || x'.sendQ == x.sendQ + [Control(QueryBuffer, x.hand.m.stream)])
    && (goal.DataOf? ==> Est(x', goal.k) == Est(x, goal.k))
  }

  lemma PrepareTakesOne(p: Pars, x: End, goal: Goal)
    requires x.hand.Pulled? && x.hand.m.tag != Goodbye && !Meets(x.hand.m, goal)
    requires x.hand.m.tag == PushData ==> x.hand.m.stream < |x.audits|
    ensures TookOne(x, Prepare(p, x), goal)
  {
    hide HalfFull;
  }

  lemma TookOneReaches(x: End, x': End, goal: Goal)
    requires CanReach(x, goal) && TookOne(x, x', goal) && !Meets(x.hand.m, goal)
    ensures CanReach(x', goal)
    ensures Place(Uncharged(x), goal).value == Place(Uncharged(x'), goal).value + 1
  {
    var m, q := x.hand.m, x.sendQ;
    assert Uncharged(x) == [m] + q && Uncharged(x') == x'.sendQ;
    hide SenderFrame, Est, Place, Meets, Uncharged;
    QueueMovesUp(q, m, goal);
    PlaceAppend(q, Control(QueryBuffer, m.stream), goal);
  }

  lemma TookOneAhead(x: End, x': End, goal: Goal)
    requires CanReach(x, goal) && CanReach(x', goal) && TookOne(x, x', goal)
    requires Place(Uncharged(x), goal).value == Place(Uncharged(x'), goal).value + 1
    ensures Ahead(x', goal) == Ahead(x, goal)
  {
    var q, n := x.sendQ, Place(Uncharged(x), goal).value;
    assert Uncharged(x) == [x.hand.m] + q && Uncharged(x') == x'.sendQ && ChargedHand(x.hand) == [];
    assert q <= x'.sendQ && 0 < n <= |q| + 1;
    hide Place, TookOne, CanReach, Uncharged, Meets;
    HandledMovesUp(x.log.handled, x.hand.m, q, x'.sendQ, n);
  }

  lemma TookOneNearer(x: End, x': End, goal: Goal)
    requires CanReach(x, goal) && TookOne(x, x', goal) && !Meets(x.hand.m, goal)
    ensures Nearer(x, x', goal)
  {
    hide CanReach, Ahead, Place, Meets, SenderFrame, Est, Uncharged;
    TookOneReaches(x, x', goal);
    TookOneAhead(x, x', goal);
  }

  lemma PrepareNearer(p: Pars, x: End, goal: Goal)
    requires CanReach(x, goal) && x.hand.Pulled? && !Meets(x.hand.m, goal)
    requires x.hand.m.tag == PushData ==> x.hand.m.stream < |x.audits|
    ensures Nearer(x, Prepare(p, x), goal)
  {
    assert Uncharged(x) == [x.hand.m] + x.sendQ;
    QueueMovesUp(x.sendQ, x.hand.m, goal);
    hide CanReach, Nearer, Prepare, TookOne;
    PrepareTakesOne(p, x, goal);
    TookOneNearer(x, Prepare(p, x), goal);
  }

  lemma QueueMovesUp(q: seq<Message>, m: Message, goal: Goal)
    requires Place([m] + q, goal).Some? && !Meets(m, goal)
    ensures m.tag != Goodbye
    ensures Place(q, goal).Some? && Place([m] + q, goal).value == Place(q, goal).value + 1
  {
    PlaceBehind([m] + q, goal);
    assert ([m] + q)[1..] == q;
  }

  lemma HandledMovesUp(handled: seq<Message>, m: Message, q: seq<Message>, q': seq<Message>, n: nat)
    requires 0 < n <= |q| + 1 && q <= q'
    ensures handled + [m] + q'[..n - 1] == handled + [] + ([m] + q)[..n]
  {
    assert ([m] + q)[..n] == [m] + q'[..n - 1];
  }

  lemma PullNearer(x: End, goal: Goal)
    requires CanReach(x, goal) && x.hand == Idle
    ensures x.sendQ != [] && Nearer(x, Pull(x), goal)
  {
    hide Place;
    assert Uncharged(Pull(x)) == Uncharged(x);
  }

  lemma SendNearer(p: Pars, x: End, goal: Goal)
    requires CanReach(x, goal) && x.hand.Charged?
    ensures Nearer(x, Send(p, x), goal)
  {
    hide Place, Pack;
    assert Uncharged(Send(p, x)) == Uncharged(x);
  }

  /** A step of the sender thread on its way to the goal. */
  lemma ReachStep(p: Pars, x: End, y: End, goal: Goal)
    requires BothShapes(p, x, y) && CanReach(x, goal) && !(x.hand.Pulled? && Meets(x.hand.m, goal))
    ensures Can(p, x, y, NextSend(x)) && React(y, NextSend(x)) == y
    ensures Nearer(x, Act(p, x, y, NextSend(x)), goal)
  {
    assert x.hand == Idle || x.hand.Pulled? || x.hand.Charged?;
    assert x.hand.Pulled? && x.hand.m.tag == PushData ==> x.hand.m.stream < |x.audits|;
    hide Nearer, CanReach, Act, Can, Prepare, Pull, Send, BothShapes;
    SenderCan(p, x, y);
    if x.hand.Pulled? {
      PrepareNearer(p, x, goal);
    } else if x.hand == Idle {
      PullNearer(x, goal);
    } else {
      SendNearer(p, x, goal);
    }
  }

  /** The sender thread's steps until it has the message in its hands. */
  lemma {:induction false} Reach(p: Pars, s: Sys, side: Side, goal: Goal) returns (run: seq<Event>)
    requires Healthy(p, Me(s, side), Peer(s, side)) && CanReach(Me(s, side), goal)
    ensures Legal(p, s, run) && SenderRun(run, side)
    ensures
      var x, x', y := Me(s, side), Me(After(p, s, run), side), Peer(s, side);
      && Peer(After(p, s, run), side) == y && Healthy(p, x', y) && SenderFrame(x, x')
      && x'.hand.Pulled? && Meets(x'.hand.m, goal)
      && x'.log.handled == Ahead(x, goal)
      && (goal.DataOf? ==> Est(x', goal.k) == Est(x, goal.k))
    decreases Place(Uncharged(Me(s, side)), goal).value, Turns(Me(s, side).hand)
  {
    var x, y := Me(s, side), Peer(s, side);
    if x.hand.Pulled? && Meets(x.hand.m, goal) {
      run := [];
      assert Place(Uncharged(x), goal) == Some(0);
    } else {
      hide BothBooks, Can, Act, React, Next, Enabled, CanReach, Place, Uncharged, Ahead;
      var e := Event(side, NextSend(x));
      ReachStep(p, x, y, goal);
      ActHealthy(p, x, y, e.op);
      SideStep(p, s, side, e.op);
      var rest := Reach(p, Next(p, s, e), side, goal);
      SenderRunCons(p, s, e, rest, side);
      run := [e] + rest;
    }
  }
}
