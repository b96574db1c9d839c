/** The deliverer: one stream's queue and the thread that empties it into a handler. */
module DelivererCode {
  import opened Messages
  import opened ChannelModel
  import opened Fifo

  /** A deliverer whose thread is at the top of its loop takes and handles messages
      while its queue has any, its handler answers and nothing stops it;
      `cancels` are the handler's answers. */
  function Deliver(p: Pars, d: Deliverer, cancels: seq<bool>): Deliverer
    decreases |cancels|
  {
    if d.stop || d.queue == [] || cancels == [] || d.phase != Running || d.hand.Some? then d
    else
      var (d', inOrder) := DeliverPull(p, d);
      if !inOrder then d' else Deliver(p, DeliverHandle(d', cancels[0]), cancels[1..])
  }

  lemma DeliverTurn(p: Pars, d: Deliverer, cancels: seq<bool>, n: nat)
    requires !d.stop && d.queue != [] && n < |cancels| && d.phase == Running && d.hand == None
    ensures Deliver(p, d, cancels[n..]) ==
              if DeliverPull(p, d).1 then Deliver(p, DeliverHandle(DeliverPull(p, d).0, cancels[n]), cancels[n + 1..])
              else Deliver(p, DeliverPull(p, d).0, cancels[n + 1..])
  {
    assert cancels[n..][1..] == cancels[n + 1..];
  }

  /** Some first messages are numbered on from `order`. */
  predicate Numbered(queue: seq<Message>, order: nat, n: nat) {
    n <= |queue| && forall i :: 0 <= i < n ==> queue[i].order == order + i
  }

  function Items(queue: seq<Message>, order: nat, n: nat): (items: seq<Item>)
    requires n <= |queue|
    ensures |items| == n
  {
    seq(n, i requires 0 <= i < n => Item(order + i, queue[i].body))
  }

  /** How far a delivery gets: `n` messages reach the handler in order. It ends when the handler cancels, when the
      next message has the wrong number, which is taken all the same, or when there is nothing left to take or no
      answer left to get. */
  ghost predicate DeliversUpTo(d: Deliverer, cancels: seq<bool>, d': Deliverer, n: nat) {
    && n <= |cancels| && Numbered(d.queue, d.order, n)
    && (forall i :: 0 <= i < n - 1 ==> !cancels[i])
    && d'.order == d.order + n && d'.delivered == d.delivered + Items(d.queue, d.order, n)
    && d'.audit.items == d.audit.items + |d.queue| - |d'.queue|
    && d'.hand == None && d'.stop == d.stop && d'.dropped == d.dropped
    && if n > 0 && cancels[n - 1] then d'.phase == Breaking && d'.queue == d.queue[n..]
       else if n == |cancels| || n == |d.queue| then d'.phase == Running && d'.queue == d.queue[n..]
       else d.queue[n].order != d.order + n && d'.phase == Breaking && d'.queue == d.queue[n + 1..]
  }

  lemma {:induction false} DeliversExactly(p: Pars, d: Deliverer, cancels: seq<bool>) returns (n: nat)
    requires !d.stop && d.phase == Running && d.hand == None
    ensures DeliversUpTo(d, cancels, Deliver(p, d, cancels), n)
    decreases |cancels|
  {
    n := 0;
    if d.queue != [] && cancels != [] && DeliverPull(p, d).1 {
      var d1 := DeliverHandle(DeliverPull(p, d).0, cancels[0]);
      if cancels[0] {
        n := 1;
      } else {
        var rest := DeliversExactly(p, d1, cancels[1..]);
        n := rest + 1;
        DeliversOneMore(p, d, cancels, d1, Deliver(p, d1, cancels[1..]), rest);
      }
    }
  }

  lemma DeliversOneMore(p: Pars, d: Deliverer, cancels: seq<bool>, d1: Deliverer, d': Deliverer, n: nat)
    requires CanDeliver(d) && d.queue[0].order == d.order && cancels != [] && !cancels[0]
    requires d1 == DeliverHandle(DeliverPull(p, d).0, false)
    requires DeliversUpTo(d1, cancels[1..], d', n)
    ensures DeliversUpTo(d, cancels, d', n + 1)
  {
    forall i | 0 <= i < n + 1 ensures d.queue[i].order == d.order + i {
      if i > 0 {
        assert d1.queue[i - 1].order == d1.order + (i - 1);
      }
    }
    assert forall i :: 0 < i < n + 1 ==> cancels[1..][i - 1] == cancels[i];
    assert Items(d.queue, d.order, n + 1) == [Item(d.order, d.queue[0].body)] + Items(d1.queue, d1.order, n);
  }

  /** The steps of the model that make up such a delivery. */
  function DeliverOps(p: Pars, d: Deliverer, cancels: seq<bool>, k: nat): seq<Op>
    decreases |cancels|
  {
    if d.stop || d.queue == [] || cancels == [] || d.phase != Running || d.hand.Some? then []
    else
      var (d', inOrder) := DeliverPull(p, d);
      if !inOrder then [DoTake(k)]
      else [DoTake(k), DoHandle(k, cancels[0])] + DeliverOps(p, DeliverHandle(d', cancels[0]), cancels[1..], k)
  }

  function Events(side: Side, ops: seq<Op>): seq<Event> {
    seq(|ops|, i requires 0 <= i < |ops| => Event(side, ops[i]))
  }

  lemma EventsCons(side: Side, op: Op, rest: seq<Op>)
    ensures Events(side, [op] + rest) == [Event(side, op)] + Events(side, rest)
  {
  }

  lemma LegalCons(p: Pars, s: Sys, e: Event, rest: seq<Event>)
    requires Enabled(p, s, e) && Legal(p, Next(p, s, e), rest)
    ensures Legal(p, s, [e] + rest) && After(p, s, [e] + rest) == After(p, Next(p, s, e), rest)
  {
    assert ([e] + rest)[1..] == rest;
  }

  lemma TakeEvent(p: Pars, s: Sys, side: Side, k: nat)
    requires k in Me(s, side).deliverers && CanDeliver(Me(s, side).deliverers[k])
    ensures
      var e := Event(side, DoTake(k));
      && Enabled(p, s, e) && k in Me(Next(p, s, e), side).deliverers
      && Me(Next(p, s, e), side).deliverers[k] == DeliverPull(p, Me(s, side).deliverers[k]).0
  {
  }

  lemma HandleEvent(p: Pars, s: Sys, side: Side, k: nat, cancel: bool)
    requires k in Me(s, side).deliverers && Me(s, side).deliverers[k].hand.Some?
    ensures
      var e := Event(side, DoHandle(k, cancel));
      && Enabled(p, s, e) && k in Me(Next(p, s, e), side).deliverers
      && Me(Next(p, s, e), side).deliverers[k] == DeliverHandle(Me(s, side).deliverers[k], cancel)
  {
  }

  lemma {:induction false} DeliverIsRun(p: Pars, s: Sys, side: Side, k: nat, cancels: seq<bool>)
    requires k in Me(s, side).deliverers
    ensures
      var d := Me(s, side).deliverers[k];
      var run := Events(side, DeliverOps(p, d, cancels, k));
      && Legal(p, s, run) && k in Me(After(p, s, run), side).deliverers
      && Me(After(p, s, run), side).deliverers[k] == Deliver(p, d, cancels)
    decreases |cancels|
  {
    hide Enabled, Next;
    var d := Me(s, side).deliverers[k];
    if !(d.stop || d.queue == [] || cancels == [] || d.phase != Running || d.hand.Some?) {
      var take, handle := Event(side, DoTake(k)), Event(side, DoHandle(k, cancels[0]));
      TakeEvent(p, s, side, k);
      var s1 := Next(p, s, take);
      if DeliverPull(p, d).1 {
        HandleEvent(p, s1, side, k, cancels[0]);
        var s2 := Next(p, s1, handle);
        var rest := DeliverOps(p, Me(s2, side).deliverers[k], cancels[1..], k);
        DeliverIsRun(p, s2, side, k, cancels[1..]);
        LegalCons(p, s1, handle, Events(side, rest));
        LegalCons(p, s, take, [handle] + Events(side, rest));
        EventsCons(side, handle.op, rest);
        EventsCons(side, take.op, [handle.op] + rest);
        assert [take.op, handle.op] + rest == [take.op] + ([handle.op] + rest);
      } else {
        LegalCons(p, s, take, []);
        assert Events(side, [DoTake(k)]) == [take] + [];
      }
    }
  }

  class DelivererThread {
    const q: IpmFifo
    var order: nat
    var stop: bool
    var phase: Phase
    ghost var delivered: seq<Item>

    /** The thread at the top of its loop. */
    ghost function State(): Deliverer
      reads this, q
    {
      Deliverer(q.q, q.audited, order, stop, phase, None, delivered, q.released)
    }

    ghost predicate Valid()
      reads this, q
    {
      && (phase == Finished <==> q.terminated)
      && (phase == Running && !stop ==> WakesUp(q.AsWake(false)))
    }

    constructor ()
      ensures Valid() && fresh(q) && State() == FreshDeliverer
    {
      q := new IpmFifo();
      order, stop, phase := 0, false, Running;
      delivered := [];
    }

    method Push(m: Message)
      requires Valid()
      modifies q
      ensures Valid() && State() == DeliverPush(old(State()), m)
    {
      q.Push(m);
    }

    method QueueAudit() returns (a: Audit)
      requires Valid()
      modifies q
      ensures Valid() && a == old(State()).audit && State() == old(State()).(audit := EmptyAudit)
    {
      a := q.TakeAudit();
    }

    /** The part of `terminate` that reaches the thread; asking twice is silent. */
    method Terminate()
      requires Valid()
      modifies this`stop, q
      ensures Valid() && State() == old(State()).(stop := true)
    {
      if stop {
        return;
      }
      stop := true;
      q.SignalRelease();
    }

    /** One turn of the thread's loop: takes the oldest message, checks its number and hands it on. */
    method DeliverOne(p: Pars, cancel: bool) returns (inOrder: bool)
      requires Valid() && phase == Running && !stop && |q.q| != 0
      modifies this, q
      ensures Valid() && !stop && phase != Finished && inOrder == DeliverPull(p, old(State())).1
      ensures State() == (if inOrder then DeliverHandle(DeliverPull(p, old(State())).0, cancel) else DeliverPull(p, old(State())).0)
      ensures q.q == old(q.q)[1..] && inOrder == (old(q.q)[0].order == old(order))
      ensures q.audited == Audit(old(q.audited).items + 1, old(q.audited).bytes + p.header + |old(q.q)[0].body|)
      ensures order == old(order) + if inOrder then 1 else 0
      ensures delivered == old(delivered) + if inOrder then [Item(old(order), old(q.q)[0].body)] else []
      ensures phase == if inOrder && !cancel then Running else Breaking
    {
      var result := q.Pull(p.header, stop);
      var msg := result.m;
      if msg.order != order {
        phase := Breaking;
        return false;
      }
      order := order + 1;
      delivered := delivered + [Item(msg.order, msg.body)];
      if cancel {
        phase := Breaking;
      }
      return true;
    }

    /** The thread's loop, for as long as it need not wait; then, if it has been
        broken, the flush that ends the thread. */
    method ThreadProc(p: Pars, cancels: seq<bool>) returns (outOfOrder: bool)
      requires Valid() && phase == Running
      modifies this, q
      ensures Valid()
      ensures
        var d := Deliver(p, old(State()), cancels);
        State() == (if d.stop then DeliverFlush(d.(phase := Breaking)) else if d.phase == Breaking then DeliverFlush(d) else d)
      ensures
        var d, d0 := Deliver(p, old(State()), cancels), old(State());
        |d0.queue| - |d.queue| == d.order - d0.order + if outOfOrder then 1 else 0
    {
      hide DeliverPull, DeliverHandle;
      outOfOrder := false;
      var n := 0;
      while phase == Running && !stop && |q.q| != 0 && n < |cancels|
        invariant n <= |cancels| && phase != Finished && Valid() && stop == old(stop)
        invariant stop ==> State() == old(State())
        invariant !outOfOrder && |old(q.q)| - |q.q| == order - old(order)
        invariant Deliver(p, old(State()), cancels) == Deliver(p, State(), cancels[n..])
        decreases |cancels| - n
      {
        DeliverTurn(p, State(), cancels, n);
        var inOrder := DeliverOne(p, cancels[n]);
        n := n + 1;
        if !inOrder {
          outOfOrder := true;
          break;
        }
      }
      if stop {
        var result := q.Pull(p.header, stop);
        phase := Breaking;
      }
      if phase == Breaking {
        q.Flush();
        phase := Finished;
      }
    }
  }
}
