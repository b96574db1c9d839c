/**
 The message queue between threads. Its wake-up protocol is modelled step by
 step for any number of producers and one consumer; the class gives the queue's
 own methods, each as it behaves when no other thread interferes.
 */
module Fifo {
  import opened Messages

  // ---------------------------------------------------------------------------
  // The wake-up protocol

  /** Where the consumer is in `pull`: before `waitfor`, past it, past the test
      of the stop flag, or out of its loop for good. */
  datatype Consumer = Outside | Woken | Window | Cancelled | Broken

  /** `setting`: a producer holding the mutex has appended and is about to set
      the signal. `released`: `release` has been called, after `stop` was set. */
  datatype Wake<T> = Wake(
    queue: seq<T>, setting: bool, signal: bool, consumer: Consumer, stop: bool, released: bool)

  datatype WakeOp<T> = Append(t: T) | SetSignal | WaitFor | TimeOut | TestStop | Take | Stop | Release

  predicate Ready<T>(s: Wake<T>, op: WakeOp<T>) {
    match op
    case Append(_) => !s.setting
    case SetSignal => s.setting
    case WaitFor => s.consumer == Outside && s.signal
    case TimeOut => s.consumer == Outside && !s.signal && !s.stop
    case TestStop => s.consumer == Woken
    case Take => s.consumer == Window && !s.setting
    case Stop => true
    case Release => s.stop
  }

  function Step<T>(s: Wake<T>, op: WakeOp<T>): Wake<T>
    requires Ready(s, op)
  {
    match op
    case Append(t) => s.(queue := s.queue + [t], setting := true)
    case SetSignal => s.(signal := true, setting := false)
    case WaitFor => s.(signal := false, consumer := Woken)
    case TimeOut => s
    case TestStop => s.(consumer := if s.stop then Cancelled else Window)
    case Take =>
      if s.queue == [] then s.(consumer := Broken)
      else s.(queue := s.queue[1..], signal := s.signal || |s.queue| > 1, consumer := Outside)
    case Stop => s.(stop := true)
    case Release => s.(signal := true, released := true)
  }

  predicate Runs<T>(s: Wake<T>, run: seq<WakeOp<T>>)
    decreases |run|
  {
    run == [] || (Ready(s, run[0]) && Runs(Step(s, run[0]), run[1..]))
  }

  function Final<T>(s: Wake<T>, run: seq<WakeOp<T>>): Wake<T>
    requires Runs(s, run)
    decreases |run|
  {
    if run == [] then s else Final(Step(s, run[0]), run[1..])
  }

  function Empty<T>(): Wake<T> {
    Wake([], false, false, Outside, false, false)
  }

  /** Before stop, and with no producer between its two actions: outside the
      window the signal is set iff the queue has something in it; past the wait
      it has, and the signal is only set if there is more. */
  predicate WakesUp<T>(s: Wake<T>) {
    if s.consumer == Outside then s.signal <==> s.queue != []
    else s.queue != [] && (s.signal ==> |s.queue| >= 2)
  }

  predicate Sane<T>(s: Wake<T>) {
    && s.consumer != Broken
    && (s.consumer == Window ==> s.queue != [])
    && (s.consumer == Cancelled ==> s.stop)
    && (!s.stop && !s.setting ==> WakesUp(s))
    && (!s.stop && s.setting ==> WakesUp(s.(signal := true)) && (s.consumer == Outside && s.signal ==> |s.queue| >= 2))
    && (s.released ==> s.stop && (s.signal || s.consumer == Woken || s.consumer == Cancelled))
  }

  lemma StepSane<T>(s: Wake<T>, op: WakeOp<T>)
    requires Sane(s) && Ready(s, op)
    ensures Sane(Step(s, op))
  {
  }

  lemma {:induction false} RunSane<T>(s: Wake<T>, run: seq<WakeOp<T>>)
    requires Sane(s) && Runs(s, run)
    ensures Sane(Final(s, run))
    decreases |run|
  {
    if run != [] {
      StepSane(s, run[0]);
      RunSane(Step(s, run[0]), run[1..]);
    }
  }

  /** No wake-up is lost in any interleaving: until stop, the wake-up invariant
      holds whenever no producer is inside `push`; so a consumer only ever waits
      or times out on an empty queue, and never finds it unexpectedly empty. */
  lemma NoWakeUpLost<T>(run: seq<WakeOp<T>>)
    requires Runs(Empty<T>(), run)
    ensures
      var s := Final(Empty<T>(), run);
      && s.consumer != Broken
      && (s.consumer == Window ==> s.queue != [])
      && (!s.stop && !s.setting ==> WakesUp(s))
      && (Ready(s, TimeOut) && !s.setting ==> s.queue == [])
  {
    RunSane(Empty<T>(), run);
  }

  /** Steps of the consumer alone. */
  predicate Consumes<T>(run: seq<WakeOp<T>>) {
    forall i :: 0 <= i < |run| ==> run[i] == WaitFor || run[i] == TestStop || run[i] == Take
  }

  /** After stop and release the consumer is never left waiting: with no
      producer inside `push`, its own steps take it out of its loop with C_CANCEL. */
  lemma ReleaseCancels<T>(run: seq<WakeOp<T>>) returns (rest: seq<WakeOp<T>>)
    requires Runs(Empty<T>(), run) && Final(Empty<T>(), run).released && !Final(Empty<T>(), run).setting
    ensures Consumes(rest) && |rest| <= 3
    ensures Runs(Final(Empty<T>(), run), rest) && Final(Final(Empty<T>(), run), rest).consumer == Cancelled
  {
    RunSane(Empty<T>(), run);
    var s := Final(Empty<T>(), run);
    if s.consumer == Outside {
      rest := [WaitFor, TestStop];
      assert rest[1..][1..] == [];
    } else if s.consumer == Woken {
      rest := [TestStop];
      assert rest[1..] == [];
    } else if s.consumer == Window {
      rest := [Take, WaitFor, TestStop];
      assert rest[1..][1..][1..] == [];
      assert rest[1..] == [WaitFor, TestStop] && rest[1..][1..] == [TestStop];
    } else {
      rest := [];
    }
  }

  // ---------------------------------------------------------------------------
  // The queue class

  datatype PullResult =
    | Pulled(m: Message, nowEmpty: bool) // C_NO or C_YES: is the queue empty?
    | PullCancelled | PullTimedOut | UnexpectedlyEmpty

  class IpmFifo {
    var q: seq<Message>
    var signal: bool
    var terminated: bool
    var audited: Audit
    ghost var released: seq<Message> // messages let go instead of being handed out

    /** The queue to a consumer about to pull, with no producer inside `push`. */
    ghost function AsWake(stop: bool): Wake<Message>
      reads this
    {
      Wake(q, false, signal, Outside, stop, false)
    }

    constructor ()
      ensures q == [] && !signal && !terminated && audited == EmptyAudit && released == []
      ensures AsWake(false) == Empty()
    {
      q, signal, terminated, audited := [], false, false, EmptyAudit;
      released := [];
    }

    /** Joins the queue and signals; but a terminated queue lets the message go. */
    method Push(m: Message)
      modifies this
      ensures terminated == old(terminated) && audited == old(audited)
      ensures old(terminated) ==> q == old(q) && signal == old(signal) && released == old(released) + [m]
      ensures !old(terminated) ==> released == old(released)
      ensures !old(terminated) ==> AsWake(false) == Step(Step(old(AsWake(false)), Append(m)), SetSignal)
    {
      if terminated {
        released := released + [m];
      } else {
        q := q + [m];
        signal := true;
      }
    }

    /** Returns what has been pulled since the last call, and starts again from nothing. */
    method TakeAudit() returns (a: Audit)
      modifies this`audited
      ensures a == old(audited) && audited == EmptyAudit
    {
      a := audited;
      audited := EmptyAudit;
    }

    /** Pulls one message. With the wake-up invariant in force it returns the
        oldest message, adding it to the audit, unless stop is set or the queue is empty. */
    method Pull(header: nat, stop: bool) returns (r: PullResult)
      requires !stop ==> WakesUp(AsWake(false))
      modifies this`q, this`signal, this`audited
      ensures r == if stop then PullCancelled
                   else if old(q) == [] then PullTimedOut
                   else Pulled(old(q)[0], |old(q)| == 1)
      ensures r.Pulled? ==>
        && q == old(q)[1..]
        && audited == Audit(old(audited).items + 1, old(audited).bytes + header + |r.m.body|)
        && AsWake(false) == Step(Step(Step(old(AsWake(false)), WaitFor), TestStop), Take)
      ensures !r.Pulled? ==> q == old(q) && audited == old(audited)
      ensures !stop ==> WakesUp(AsWake(false))
    {
      var woken := signal;
      signal := false;
      if stop {
        return PullCancelled;
      }
      if !woken {
        return PullTimedOut;
      }
      if |q| == 0 {
        return UnexpectedlyEmpty;
      }
      var m := q[0];
      q := q[1..];
      audited := Audit(audited.items + 1, audited.bytes + header + |m.body|);
      if |q| != 0 {
        signal := true;
        return Pulled(m, false);
      }
      return Pulled(m, true);
    }

    method Size() returns (n: nat)
      ensures n == |q|
    {
      n := |q|;
    }

    method SignalRelease()
      modifies this`signal
      ensures signal
    {
      signal := true;
    }

    /** Lets go of all that is queued, in order, and of all that is pushed later. */
    method Flush()
      modifies this`q, this`released, this`terminated
      ensures q == [] && terminated && released == old(released) + old(q)
    {
      while |q| != 0
        invariant released + q == old(released) + old(q)
        decreases |q|
      {
        var ipm := q[0];
        q := q[1..];
        released := released + [ipm];
      }
      terminated := true;
    }
  }
}
