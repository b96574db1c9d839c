/**
 * Ownership of messages: SAFE_IPM holders, and the threads that use them.
 *
 * A message is a buffer from a pool, or one that a client waits to get back. It must be released exactly once: by
 * the thread that holds it, or by whoever that thread hands it over to. A holder releases what it still holds when
 * it goes out of scope, which is what an exception leaves to it.
 */
module Ownership {

  class Ipm {
    var released: nat
    var inflated: bool // holds what another message has been inflated to

    constructor (inflated: bool)
      ensures released == 0 && this.inflated == inflated
    {
      released := 0;
      this.inflated := inflated;
    }

    method Release()
      modifies this`released
      ensures released == old(released) + 1
    {
      released := released + 1;
    }
  }

  class SafeIpm {
    var ipm: Ipm?

    constructor ()
      ensures ipm == null
    {
      ipm := null;
    }

    /** Gives the message up before it is released, so that it cannot be released twice. */
    method Release()
      modifies this, ipm
      ensures ipm == null
      ensures old(ipm) != null ==>
                old(ipm).released == old(ipm.released) + 1 && old(ipm).inflated == old(ipm.inflated)
    {
      if ipm != null {
        var temp := ipm;
        ipm := null;
        temp.Release();
      }
    }

    method Retrieve() returns (temp: Ipm?)
      modifies this
      ensures ipm == null && temp == old(ipm)
    {
      temp := ipm;
      ipm := null;
    }
  }

  // --------------------------------------------------------------------------------------------- sender

  /** What becomes of a message that the sender thread has pulled. */
  datatype Fate = Flushes | Sends | Fails | SaysGoodbye

  /**
   * The sender thread: one holder for all turns, empty at the top of each. Every message it pulls is released
   * exactly once, the one it fails on by the holder itself; those behind are not touched.
   */
  method SenderThread(queue: seq<Ipm>, fates: seq<Fate>) returns (pulled: nat)
    requires |fates| == |queue|
    requires forall i, j :: 0 <= i < j < |queue| ==> queue[i] != queue[j]
    modifies queue
    ensures pulled <= |queue|
    ensures forall k :: 0 <= k < pulled ==> queue[k].released == old(queue[k].released) + 1
    ensures forall k :: pulled <= k < |queue| ==> queue[k].released == old(queue[k].released)
    ensures pulled < |queue| ==> pulled > 0 && fates[pulled - 1] in {Fails, SaysGoodbye}
    ensures forall k :: 0 <= k < pulled - 1 ==> fates[k] in {Flushes, Sends}
  {
    var messageForDispatch := new SafeIpm();
    pulled := 0;
    while pulled < |queue|
      invariant pulled <= |queue| && fresh(messageForDispatch)
      invariant messageForDispatch.ipm == null
      invariant forall k :: 0 <= k < pulled ==> queue[k].released == old(queue[k].released) + 1
      invariant forall k :: pulled <= k < |queue| ==> queue[k].released == old(queue[k].released)
      invariant forall k :: 0 <= k < pulled ==> fates[k] in {Flushes, Sends}
    {
      var fate := fates[pulled];
      messageForDispatch.ipm := queue[pulled];
      pulled := pulled + 1;
      if fate == Flushes {
        messageForDispatch.Release();
        continue;
      }
      if fate == Fails {
        break;
      }
      messageForDispatch.Release();
      if fate == SaysGoodbye {
        break;
      }
    }
    messageForDispatch.Release();
  }

  // ------------------------------------------------------------------------------------------- receiver

  /** What the receiver thread does with a message: consume it, route it to a deliverer, or queue it. */
  datatype Handling = Consumes | Routes(deflated: bool) | Queues

  /** Where a turn of the receiver thread throws, if it does. */
  datatype Trouble = NoTrouble | PeekFails | RecvFails | HeaderRefused | HandlingFails

  datatype Turn = Turn(handling: Handling, trouble: Trouble)

  /** All messages taken so far have been released once, or handed over unreleased. */
  ghost predicate Accounted(taken: set<Ipm>, handed: seq<Ipm>, held: set<Ipm>)
    reads taken
  {
    && held <= taken
    && (forall i :: 0 <= i < |handed| ==> handed[i] in taken && handed[i] !in held)
    && (forall i, j :: 0 <= i < j < |handed| ==> handed[i] != handed[j])
    && forall m :: m in taken ==> m.released == if m in handed || m in held then 0 else 1
  }

  ghost function Held(a: SafeIpm, b: SafeIpm): set<Ipm>
    reads a, b
  {
    (if a.ipm == null then {} else {a.ipm}) + (if b.ipm == null then {} else {b.ipm})
  }

  /**
   * One turn. Without trouble both holders are empty again, and the message is released or handed over; with
   * trouble the holders still have what is neither.
   */
  method ReceiverTurn(received: SafeIpm, uncompressed: SafeIpm, turn: Turn, ghost taken: set<Ipm>, handed: seq<Ipm>)
    returns (ok: bool, ghost nowTaken: set<Ipm>, nowHanded: seq<Ipm>)
    requires received != uncompressed && received.ipm == null && uncompressed.ipm == null
    requires Accounted(taken, handed, {})
    modifies received, uncompressed
    ensures ok <==> turn.trouble == NoTrouble
    ensures taken <= nowTaken && fresh(nowTaken - taken) && handed <= nowHanded
    ensures Accounted(nowTaken, nowHanded, Held(received, uncompressed))
    ensures received.ipm != null ==> received.ipm != uncompressed.ipm
    ensures ok ==> received.ipm == null && uncompressed.ipm == null
    ensures |nowHanded| == |handed| + if ok && turn.handling != Consumes then 1 else 0
    ensures forall i :: |handed| <= i < |nowHanded| ==> nowHanded[i].inflated == (turn.handling == Routes(true))
  {
    nowTaken, nowHanded := taken, handed;
    if turn.trouble == PeekFails {
      return false, nowTaken, nowHanded;
    }
    var first := new Ipm(false);
    received.ipm := first;
    nowTaken := nowTaken + {first};
    if turn.trouble == RecvFails || turn.trouble == HeaderRefused {
      return false, nowTaken, nowHanded;
    }
    match turn.handling {
      case Consumes =>
        if turn.trouble == HandlingFails {
          return false, nowTaken, nowHanded;
        }
        received.Release();
      case Routes(deflated) =>
        if deflated {
          var second := new Ipm(true);
          uncompressed.ipm := second;
          nowTaken := nowTaken + {second};
          if turn.trouble == HandlingFails {
            return false, nowTaken, nowHanded;
          }
          uncompressed.ipm, received.ipm := received.ipm, uncompressed.ipm;
          uncompressed.Release();
        } else if turn.trouble == HandlingFails {
          return false, nowTaken, nowHanded;
        }
        var message := received.Retrieve();
        nowHanded := nowHanded + [message];
      case Queues =>
        if turn.trouble == HandlingFails {
          return false, nowTaken, nowHanded;
        }
        var message := received.Retrieve();
        nowHanded := nowHanded + [message];
    }
    return true, nowTaken, nowHanded;
  }

  /** What a run of turns hands over, up to the first that throws: of each message, whether it has been inflated. */
  function HandsOver(turns: seq<Turn>): seq<bool> {
    if turns == [] || turns[0].trouble != NoTrouble then []
    else (if turns[0].handling == Consumes then [] else [turns[0].handling == Routes(true)]) + HandsOver(turns[1..])
  }

  lemma HandsOverTurn(turns: seq<Turn>, n: nat)
    requires n <= |turns|
    ensures HandsOver(turns[n..]) ==
              if n == |turns| then []
              else if turns[n].trouble != NoTrouble then []
              else if turns[n].handling == Consumes then HandsOver(turns[n + 1..])
              else [turns[n].handling == Routes(true)] + HandsOver(turns[n + 1..])
  {
    if n < |turns| {
      assert turns[n..][1..] == turns[n + 1..];
    }
  }

  lemma Regroup(flags: seq<bool>, flag: bool, rest: seq<bool>)
    ensures flags + ([flag] + rest) == flags + [flag] + rest
  {
  }

  /** Of each message, whether it has been inflated. */
  ghost predicate AreInflated(messages: seq<Ipm>, flags: seq<bool>)
    reads messages
  {
    |flags| == |messages| && forall i :: 0 <= i < |messages| ==> messages[i].inflated == flags[i]
  }

  /** The loop of the receiver thread, up to a GOODBYE or an exception. */
  method ReceiverTurns(received: SafeIpm, uncompressed: SafeIpm, turns: seq<Turn>)
    returns (ghost taken: set<Ipm>, handed: seq<Ipm>)
    requires received != uncompressed && received.ipm == null && uncompressed.ipm == null
    modifies received, uncompressed
    ensures fresh(taken) && Accounted(taken, handed, Held(received, uncompressed))
    ensures received.ipm != null ==> received.ipm != uncompressed.ipm
    ensures AreInflated(handed, HandsOver(turns))
  {
    taken, handed := {}, [];
    ghost var flags: seq<bool> := [];
    assert turns[0..] == turns;
    hide HandsOver;
    var n := 0;
    while n < |turns|
      invariant n <= |turns| && fresh(taken)
      invariant received.ipm == null && uncompressed.ipm == null && Accounted(taken, handed, {})
      invariant AreInflated(handed, flags) && flags + HandsOver(turns[n..]) == HandsOver(turns)
    {
      HandsOverTurn(turns, n);
      var ok;
      ok, taken, handed := ReceiverTurn(received, uncompressed, turns[n], taken, handed);
      if !ok {
        return;
      }
      if turns[n].handling != Consumes {
        Regroup(flags, turns[n].handling == Routes(true), HandsOver(turns[n + 1..]));
        flags := flags + [turns[n].handling == Routes(true)];
      }
      n := n + 1;
    }
    HandsOverTurn(turns, n);
  }

  /**
   * The receiver thread: when its holders have gone out of scope, every message it took from a pool has been
   * released exactly once or handed over exactly once, and never both; the messages handed over are those of the
   * turns that route or queue one, and what a compressed one was inflated to in place of it.
   */
  method ReceiverThread(turns: seq<Turn>) returns (ghost taken: set<Ipm>, handed: seq<Ipm>)
    ensures fresh(taken) && Accounted(taken, handed, {})
    ensures AreInflated(handed, HandsOver(turns))
  {
    var messageBeingUncompressed := new SafeIpm();
    var messageBeingReceived := new SafeIpm();
    hide HandsOver;
    taken, handed := ReceiverTurns(messageBeingReceived, messageBeingUncompressed, turns);
    messageBeingReceived.Release();
    messageBeingUncompressed.Release();
  }
}
