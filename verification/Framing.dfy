/**
 * Framing: messages over a byte stream, with sends and receives of any size.
 *
 * A message on the wire is a header of fixed size, which says how many bytes follow it, and those bytes. The
 * layout of the header is left open: any encoding of fixed size with an inverse will do. The sender writes a
 * message in as many pieces as the socket takes; the receiver peeks until a whole header is there, and then reads
 * exactly the bytes that the header announces.
 */
module Framing {

  type Bytes = seq<bv8>

  /** What the framing needs of a header, and whatever else it holds. */
  datatype Head = Head(bodyBytes: nat, rest: nat)

  datatype Packet = Packet(head: Head, body: Bytes)

  datatype Codec = Codec(size: nat, encode: Head -> Bytes, decode: Bytes -> Head)
  {
    ghost predicate Valid() {
      size > 0 && forall h :: |encode(h)| == size && decode(encode(h)) == h
    }

    ghost predicate Fits(p: Packet) {
      |p.body| == p.head.bodyBytes
    }

    function Wire(p: Packet): Bytes {
      encode(p.head) + p.body
    }
  }

  ghost predicate AllFit(codec: Codec, packets: seq<Packet>) {
    forall k :: 0 <= k < |packets| ==> codec.Fits(packets[k])
  }

  // ------------------------------------------------------------------------------- the two ends, step by step

  /** What the receiver is doing: peeking for a header, or reading a message of a known size. */
  datatype Phase = Peeking | Reading(total: nat)

  datatype State = State(
    sent: seq<Packet>,      // messages the sender has begun to write
    unsent: Bytes,          // what is left of the last of them
    pipe: Bytes,            // bytes on their way
    phase: Phase,
    buffer: Bytes,          // what has been read of the message being received
    received: seq<Packet>)

  datatype Step = Begin(p: Packet) | Send(count: nat) | Peek(count: nat) | Receive(count: nat) | Deliver

  ghost predicate Enabled(codec: Codec, s: State, step: Step) {
    match step
    case Begin(p) => s.unsent == [] && codec.Fits(p)
    case Send(count) => count <= |s.unsent|
    case Peek(count) => s.phase == Peeking && count <= codec.size && count <= |s.pipe|
    case Receive(count) =>
      s.phase.Reading? && |s.buffer| + count <= s.phase.total && count <= |s.pipe|
    case Deliver => s.phase.Reading? && |s.buffer| == s.phase.total && s.phase.total >= codec.size
  }

  ghost function Next(codec: Codec, s: State, step: Step): State
    requires Enabled(codec, s, step)
  {
    match step
    case Begin(p) => s.(sent := s.sent + [p], unsent := codec.Wire(p))
    case Send(count) => s.(unsent := s.unsent[count..], pipe := s.pipe + s.unsent[..count])
    case Peek(count) =>
      if count < codec.size then s
      else s.(phase := Reading(codec.size + codec.decode(s.pipe[..codec.size]).bodyBytes))
    case Receive(count) => s.(pipe := s.pipe[count..], buffer := s.buffer + s.pipe[..count])
    case Deliver =>
      s.(phase := Peeking, buffer := [],
         received := s.received + [Packet(codec.decode(s.buffer[..codec.size]), s.buffer[codec.size..])])
  }

  const START: State := State([], [], [], Peeking, [], [])

  ghost predicate Legal(codec: Codec, s: State, steps: seq<Step>)
    decreases |steps|
  {
    steps != [] ==> Enabled(codec, s, steps[0]) && Legal(codec, Next(codec, s, steps[0]), steps[1..])
  }

  ghost function Run(codec: Codec, s: State, steps: seq<Step>): State
    requires Legal(codec, s, steps)
    decreases |steps|
  {
    if steps == [] then s else Run(codec, Next(codec, s, steps[0]), steps[1..])
  }

  /** The bytes between what has been delivered and what has been begun, in order. */
  ghost function Between(s: State): Bytes {
    s.buffer + s.pipe + s.unsent
  }

  /**
   * No byte is skipped and none is read twice: what is between the ends is the stream of the messages that have
   * not been delivered, and the receiver knows the size of the first of them.
   */
  ghost predicate Inv(codec: Codec, s: State) {
    && AllFit(codec, s.sent)
    && s.received <= s.sent
    && Between(s) == Tail(codec, s.sent, |s.received|)
    && (s.phase == Peeking ==> s.buffer == [])
    && (s.phase.Reading? ==>
          && |s.received| < |s.sent|
          && s.phase.total == |codec.Wire(s.sent[|s.received|])|
          && |s.buffer| <= s.phase.total)
  }

  /** The stream of the messages from number `from` on. */
  ghost function Tail(codec: Codec, packets: seq<Packet>, from: nat): Bytes
    requires from <= |packets|
    decreases |packets| - from
  {
    if from == |packets| then [] else codec.Wire(packets[from]) + Tail(codec, packets, from + 1)
  }

  lemma {:induction false} TailGrows(codec: Codec, packets: seq<Packet>, p: Packet, from: nat)
    requires from <= |packets|
    ensures Tail(codec, packets + [p], from) == Tail(codec, packets, from) + codec.Wire(p)
    decreases |packets| - from
  {
    if from < |packets| {
      TailGrows(codec, packets, p, from + 1);
      var x, y, z := codec.Wire(packets[from]), Tail(codec, packets, from + 1), codec.Wire(p);
      assert x + (y + z) == x + y + z;
    } else {
      assert Tail(codec, packets + [p], from + 1) == [];
    }
  }

  lemma BeginKeeps(codec: Codec, s: State, p: Packet)
    requires Inv(codec, s) && Enabled(codec, s, Begin(p))
    ensures Inv(codec, Next(codec, s, Begin(p)))
  {
    TailGrows(codec, s.sent, p, |s.received|);
    assert s.buffer + s.pipe + [] == s.buffer + s.pipe;
    assert s.sent <= s.sent + [p];
    hide Codec.Wire, Tail;
  }

  lemma MoveKeeps(codec: Codec, s: State, step: Step)
    requires Inv(codec, s) && (step.Send? || step.Receive?) && Enabled(codec, s, step)
    ensures Inv(codec, Next(codec, s, step))
  {
    hide Codec.Wire, Tail, AllFit;
    match step {
      case Send(count) =>
        assert s.unsent == s.unsent[..count] + s.unsent[count..];
        assert s.buffer + s.pipe + (s.unsent[..count] + s.unsent[count..])
            == s.buffer + (s.pipe + s.unsent[..count]) + s.unsent[count..];
      case Receive(count) =>
        assert s.pipe == s.pipe[..count] + s.pipe[count..];
        assert s.buffer + (s.pipe[..count] + s.pipe[count..]) + s.unsent
            == (s.buffer + s.pipe[..count]) + s.pipe[count..] + s.unsent;
    }
  }

  /** Where a header's worth of bytes is, a message has been begun, and the bytes are its header. */
  lemma HeaderIsNext(codec: Codec, s: State)
    requires codec.Valid() && Inv(codec, s) && |s.buffer + s.pipe| >= codec.size
    ensures |s.received| < |s.sent|
    ensures (s.buffer + s.pipe)[..codec.size] == codec.encode(s.sent[|s.received|].head)
  {
    var bytes := s.buffer + s.pipe;
    assert Between(s) == bytes + s.unsent;
    assert |Between(s)| > 0;
    var p := s.sent[|s.received|];
    assert Between(s)[..codec.size] == bytes[..codec.size];
    assert codec.Wire(p)[..codec.size] == codec.encode(p.head);
  }

  lemma PeekKeeps(codec: Codec, s: State, count: nat)
    requires codec.Valid() && Inv(codec, s) && Enabled(codec, s, Peek(count))
    ensures Inv(codec, Next(codec, s, Peek(count)))
  {
    if count == codec.size {
      assert s.buffer + s.pipe == s.pipe;
      HeaderIsNext(codec, s);
      assert codec.Fits(s.sent[|s.received|]);
    }
  }

  /** What has been read when the message is complete is the message. */
  lemma DeliverKeeps(codec: Codec, s: State)
    requires codec.Valid() && Inv(codec, s) && Enabled(codec, s, Deliver)
    ensures Inv(codec, Next(codec, s, Deliver))
  {
    var p := s.sent[|s.received|];
    var rest := Tail(codec, s.sent, |s.received| + 1);
    assert s.buffer + s.pipe + s.unsent == codec.Wire(p) + rest;
    Halves(s.buffer, s.pipe + s.unsent, codec.Wire(p), rest);
    assert codec.encode(p.head) == s.buffer[..codec.size] && p.body == s.buffer[codec.size..];
    assert codec.Fits(p);
    assert s.received + [p] == s.sent[..|s.received| + 1];
    assert [] + s.pipe + s.unsent == s.pipe + s.unsent;
  }

  lemma Halves(a: Bytes, b: Bytes, c: Bytes, d: Bytes)
    requires |a| == |c|
    ensures a + b == c + d ==> a == c && b == d
    ensures a + (b + d) == a + b + d
  {
    if a + b == c + d {
      assert (a + b)[..|a|] == a && (c + d)[..|a|] == c;
      assert (a + b)[|a|..] == b && (c + d)[|a|..] == d;
    }
  }

  lemma StepKeeps(codec: Codec, s: State, step: Step)
    requires codec.Valid() && Inv(codec, s) && Enabled(codec, s, step)
    ensures Inv(codec, Next(codec, s, step))
  {
    hide Inv, Next;
    match step {
      case Begin(p) => BeginKeeps(codec, s, p);
      case Send(_) => MoveKeeps(codec, s, step);
      case Receive(_) => MoveKeeps(codec, s, step);
      case Peek(count) => PeekKeeps(codec, s, count);
      case Deliver => DeliverKeeps(codec, s);
    }
  }

  lemma {:induction false} RunKeeps(codec: Codec, s: State, steps: seq<Step>)
    requires codec.Valid() && Inv(codec, s) && Legal(codec, s, steps)
    ensures Inv(codec, Run(codec, s, steps))
    decreases |steps|
  {
    if steps != [] {
      hide Inv, Next, Enabled;
      StepKeeps(codec, s, steps[0]);
      RunKeeps(codec, Next(codec, s, steps[0]), steps[1..]);
    }
  }

  /**
   * In every run, however the bytes are cut, the messages received are the first ones sent, header and body; and
   * when no byte is left in between, they are all of them.
   */
  lemma ReceivedIsPrefixOfSent(codec: Codec, steps: seq<Step>)
    requires codec.Valid() && Legal(codec, START, steps)
    ensures var s := Run(codec, START, steps);
            && s.received <= s.sent
            && (Between(s) == [] ==> s.received == s.sent)
  {
    assert Inv(codec, START);
    RunKeeps(codec, START, steps);
    var s := Run(codec, START, steps);
    hide Run, Legal;
    if |s.received| < |s.sent| {
      assert |codec.Wire(s.sent[|s.received|])| >= codec.size;
    }
  }

  // ------------------------------------------------------------------------------------------- progress

  lemma {:induction false} RunTwice(codec: Codec, s: State, first: seq<Step>, second: seq<Step>)
    requires Legal(codec, s, first) && Legal(codec, Run(codec, s, first), second)
    ensures Legal(codec, s, first + second)
    ensures Run(codec, s, first + second) == Run(codec, Run(codec, s, first), second)
    decreases |first|
  {
    hide Enabled, Next;
    if first == [] {
      assert first + second == second;
    } else {
      assert (first + second)[1..] == first[1..] + second;
      RunTwice(codec, Next(codec, s, first[0]), first[1..], second);
    }
  }

  lemma OneStep(codec: Codec, s: State, step: Step)
    requires Enabled(codec, s, step)
    ensures Legal(codec, s, [step]) && Run(codec, s, [step]) == Next(codec, s, step)
  {
    hide Enabled, Next;
    assert [step][1..] == [];
    assert Run(codec, Next(codec, s, step), []) == Next(codec, s, step);
  }

  /** Once the sender is done with its last message, the receiver can get everything that was sent. */
  lemma {:induction false} EverythingArrives(codec: Codec, s: State) returns (steps: seq<Step>)
    requires codec.Valid() && Inv(codec, s) && s.unsent == []
    ensures Legal(codec, s, steps)
    ensures Run(codec, s, steps).received == Run(codec, s, steps).sent == s.sent
    decreases |s.sent| - |s.received|
  {
    if |s.received| == |s.sent| {
      steps := [];
    } else {
      var first, next := NextArrives(codec, s);
      var rest := EverythingArrives(codec, next);
      RunTwice(codec, s, first, rest);
      steps := first + rest;
    }
  }

  /** The next message: peek for the header, read the rest, deliver. */
  lemma NextArrives(codec: Codec, s: State) returns (steps: seq<Step>, next: State)
    requires codec.Valid() && Inv(codec, s) && s.unsent == [] && |s.received| < |s.sent|
    ensures Legal(codec, s, steps) && next == Run(codec, s, steps)
    ensures Inv(codec, next) && next.unsent == [] && next.sent == s.sent
    ensures |next.received| == |s.received| + 1
  {
    var total := |codec.Wire(s.sent[|s.received|])|;
    assert |Between(s)| >= total >= codec.size;
    var peek, peeked := [], s;
    if s.phase == Peeking {
      peek := [Peek(codec.size)];
      OneStep(codec, s, Peek(codec.size));
      StepKeeps(codec, s, Peek(codec.size));
      peeked := Next(codec, s, Peek(codec.size));
    }
    var read := Receive(total - |s.buffer|);
    OneStep(codec, peeked, read);
    StepKeeps(codec, peeked, read);
    var full := Next(codec, peeked, read);
    OneStep(codec, full, Deliver);
    StepKeeps(codec, full, Deliver);
    next := Next(codec, full, Deliver);
    hide *;
    RunTwice(codec, peeked, [read], [Deliver]);
    RunTwice(codec, s, peek, [read] + [Deliver]);
    steps := peek + ([read] + [Deliver]);
  }

  // -------------------------------------------------------------------------------------------- the code

  /** What a call of send() comes to: the socket would block, is broken, or takes some bytes. */
  datatype Offer = WouldBlock | Broken | Takes(count: nat)

  /** What a call of recv() comes to: an error, or up to some number of the bytes that have arrived. */
  datatype Reply = Error | Some(atMost: nat)

  datatype Outcome = Done | Failed | StillWaiting

  /** The two ends of a connection; `history` is the run so far. */
  class Connection {
    const codec: Codec
    var s: State
    ghost var history: seq<Step>

    ghost predicate Valid()
      reads this
    {
      codec.Valid() && Legal(codec, START, history) && Run(codec, START, history) == s && Inv(codec, s)
    }

    constructor (codec: Codec)
      requires codec.Valid()
      ensures Valid() && s == START && this.codec == codec
    {
      this.codec := codec;
      s := START;
      history := [];
    }

    ghost method Record(step: Step)
      requires codec.Valid() && Legal(codec, START, history) && Inv(codec, Run(codec, START, history))
      requires Enabled(codec, Run(codec, START, history), step)
      requires s == Next(codec, Run(codec, START, history), step)
      modifies `history
      ensures Valid()
    {
      var before := Run(codec, START, history);
      OneStep(codec, before, step);
      RunTwice(codec, START, history, [step]);
      StepKeeps(codec, before, step);
      history := history + [step];
    }

    /**
     * The send loop: offers the rest of the message until all of it is taken. `offers` are the results of the
     * calls of send(); if they end before the message does, the sender is still waiting.
     */
    method SendMessage(p: Packet, offers: seq<Offer>) returns (outcome: Outcome)
      requires Valid() && s.unsent == [] && codec.Fits(p)
      modifies this
      ensures Valid() && s.sent == old(s.sent) + [p] && s.received == old(s.received)
      ensures s.pipe + s.unsent == old(s.pipe) + codec.Wire(p)
      ensures outcome == Done <==> s.unsent == []
      ensures outcome == Failed ==> exists k :: 0 <= k < |offers| && offers[k] == Broken
    {
      hide Run, Legal, Inv, Codec.Wire;
      s := s.(sent := s.sent + [p], unsent := codec.Wire(p));
      Record(Begin(p));
      assert s.pipe + s.unsent == old(s.pipe) + codec.Wire(p);
      var n := 0;
      while s.unsent != [] && n < |offers|
        invariant n <= |offers|
        invariant Valid() && s.sent == old(s.sent) + [p] && s.received == old(s.received)
        invariant s.pipe + s.unsent == old(s.pipe) + codec.Wire(p)
      {
        match offers[n] {
          case WouldBlock =>
          case Broken =>
            return Failed;
          case Takes(count) =>
            var bytesSent := if count < |s.unsent| then count else |s.unsent|;
            Regroup(s.pipe, s.unsent, bytesSent);
            s := s.(unsent := s.unsent[bytesSent..], pipe := s.pipe + s.unsent[..bytesSent]);
            Record(Send(bytesSent));
        }
        n := n + 1;
      }
      return if s.unsent == [] then Done else StillWaiting;
    }

    /** Before each call of recv() some more of what has been sent arrives. */
    method Arrive(count: nat)
      requires Valid()
      modifies this
      ensures Valid() && s.sent == old(s.sent) && s.received == old(s.received)
      ensures s.phase == old(s.phase) && s.buffer == old(s.buffer)
    {
      hide Run, Legal, Inv;
      var arriving := if count < |s.unsent| then count else |s.unsent|;
      s := s.(unsent := s.unsent[arriving..], pipe := s.pipe + s.unsent[..arriving]);
      Record(Send(arriving));
    }

    /**
     * The receive loops: peeks until a whole header is there, then reads until the message is complete. Each call
     * of recv() finds some more bytes arrived. An error fails; no bytes at all fail the peek, but not the read.
     */
    method ReceiveMessage(calls: seq<(nat, Reply)>) returns (outcome: Outcome)
      requires Valid() && s.phase == Peeking
      modifies this
      ensures Valid() && s.sent == old(s.sent)
      ensures outcome == Done ==>
                && s.phase == Peeking && |old(s.received)| < |s.sent|
                && s.received == old(s.received) + [s.sent[|old(s.received)|]]
      ensures outcome != Done ==> s.received == old(s.received)
      ensures outcome == StillWaiting ==> forall k :: 0 <= k < |calls| ==> calls[k].1 != Error
      ensures outcome == Failed && s.phase.Reading? ==> exists k :: 0 <= k < |calls| && calls[k].1 == Error
      ensures outcome == Failed && s.phase == Peeking ==>
                exists k :: 0 <= k < |calls| && (calls[k].1 == Error || calls[k].1 == Some(0) || s.pipe == [])
    {
      hide Run, Legal, Inv;
      var n := 0;
      while true
        invariant n <= |calls|
        invariant Valid() && s.sent == old(s.sent) && s.received == old(s.received) && s.phase == Peeking
        invariant forall k :: 0 <= k < n ==> calls[k].1 != Error
        decreases |calls| - n
      {
        if n == |calls| {
          return StillWaiting;
        }
        Arrive(calls[n].0);
        if calls[n].1 == Error {
          return Failed;
        }
        var result := Least(calls[n].1.atMost, Least(codec.size, |s.pipe|));
        n := n + 1;
        if result == codec.size {
          break;
        }
        if result == 0 {
          assert calls[n - 1].1 == Some(0) || s.pipe == [];
          return Failed;
        }
      }
      s := s.(phase := Reading(codec.size + codec.decode(s.pipe[..codec.size]).bodyBytes));
      Record(Peek(codec.size));
      KnowsSize(codec, s);
      var total := s.phase.total;
      while |s.buffer| < total
        invariant n <= |calls|
        invariant Valid() && s.sent == old(s.sent) && s.received == old(s.received)
        invariant s.phase == Reading(total) && |s.buffer| <= total && codec.size <= total
        invariant forall k :: 0 <= k < n ==> calls[k].1 != Error
        decreases |calls| - n
      {
        if n == |calls| {
          return StillWaiting;
        }
        Arrive(calls[n].0);
        if calls[n].1 == Error {
          return Failed;
        }
        var result := Least(calls[n].1.atMost, Least(total - |s.buffer|, |s.pipe|));
        s := s.(pipe := s.pipe[result..], buffer := s.buffer + s.pipe[..result]);
        Record(Receive(result));
        n := n + 1;
      }
      s := s.(phase := Peeking, buffer := [],
              received := s.received + [Packet(codec.decode(s.buffer[..codec.size]), s.buffer[codec.size..])]);
      Record(Deliver);
      Prefix(codec, s);
      return Done;
    }
  }

  function Least(x: nat, y: nat): nat {
    if x < y then x else y
  }

  lemma Regroup(pipe: Bytes, unsent: Bytes, count: nat)
    requires count <= |unsent|
    ensures (pipe + unsent[..count]) + unsent[count..] == pipe + unsent
  {
  }

  lemma KnowsSize(codec: Codec, s: State)
    requires codec.Valid() && Inv(codec, s) && s.phase.Reading?
    ensures |s.buffer| <= s.phase.total && codec.size <= s.phase.total
  {
  }

  lemma Prefix(codec: Codec, s: State)
    requires Inv(codec, s)
    ensures s.received <= s.sent
  {
  }
}
