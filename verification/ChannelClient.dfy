/**
 * The client's side of a channel: `pull`, which waits for a message, and the open/closed state that `push` checks.
 */
module ChannelClient {
  import opened Messages

  const WAIT_STEP: nat := 100

  // ----------------------------------------------------------------------------------------------- pull

  /** What one turn of the pull loop meets: a message, or a timeout with what the receiver thread shows then. */
  datatype Turn = Arrives(m: Message) | Silence(received: bool, active: bool)

  datatype Pulled = Got(m: Message) | PeerFailed | TimedOut(waited: nat) | Dropped | StillWaiting(waited: nat)

  /** The time on the clock after a silent turn: anything the receiver thread has read since restarts it. */
  function Clock(waited: nat, received: bool): nat {
    (if received then 0 else waited) + WAIT_STEP
  }

  /** The loop as a function of what it meets. */
  function Outcome(turns: seq<Turn>, waited: nat, timeout: nat): Pulled {
    if turns == [] then StillWaiting(waited)
    else
      match turns[0]
      case Arrives(m) =>
        if m.tag == PeerError then PeerFailed
        else if m.tag == KeepAlive then Outcome(turns[1..], 0, timeout)
        else Got(m)
      case Silence(received, active) =>
        if Clock(waited, received) >= timeout then TimedOut(Clock(waited, received))
        else if !active then Dropped
        else Outcome(turns[1..], Clock(waited, received), timeout)
  }

  ghost predicate IsSilent(turn: Turn) {
    turn.Silence? && !turn.received
  }

  /** What a client gets is the first message in the queue that is no KEEPALIVE, and no error of the peer. */
  lemma {:induction false} GotIsFirst(turns: seq<Turn>, waited: nat, timeout: nat)
    ensures Outcome(turns, waited, timeout).Got? ==>
              exists k :: 0 <= k < |turns| && turns[k] == Arrives(Outcome(turns, waited, timeout).m)
                && (forall j :: 0 <= j < k && turns[j].Arrives? ==> turns[j].m.tag == KeepAlive)
                && Outcome(turns, waited, timeout).m.tag !in {KeepAlive, PeerError}
    decreases |turns|
  {
    if turns != [] {
      var clock := if turns[0].Arrives? then 0 else Clock(waited, turns[0].received);
      GotIsFirst(turns[1..], clock, timeout);
      var outcome := Outcome(turns, waited, timeout);
      if outcome.Got? {
        if turns[0] == Arrives(outcome.m) {
        } else {
          var k :| 0 <= k < |turns[1..]| && turns[1..][k] == Arrives(outcome.m)
                   && forall j :: 0 <= j < k && turns[1..][j].Arrives? ==> turns[1..][j].m.tag == KeepAlive;
          assert turns[k + 1] == Arrives(outcome.m);
          forall j | 0 <= j < k + 1 && turns[j].Arrives? ensures turns[j].m.tag == KeepAlive {
            if j > 0 {
              assert turns[j] == turns[1..][j - 1];
            }
          }
        }
      }
    }
  }

  /** The turns that end a list without a sign of life. */
  ghost function SilentEnd(turns: seq<Turn>): (n: nat)
    ensures n <= |turns|
  {
    if turns == [] || !IsSilent(turns[|turns| - 1]) then 0 else 1 + SilentEnd(turns[..|turns| - 1])
  }

  /**
   * The clock measures silence: after turns that have not ended the loop it shows the silent turns at the end, and
   * before them either one more turn, in which something was last received, or the time it started with.
   */
  lemma {:induction false} ClockMeasuresSilence(turns: seq<Turn>, waited: nat, timeout: nat)
    requires Outcome(turns, waited, timeout).StillWaiting?
    ensures var n := SilentEnd(turns);
            Outcome(turns, waited, timeout).waited == n * WAIT_STEP +
              if n == |turns| then waited else if turns[|turns| - 1 - n].Silence? then WAIT_STEP else 0
    decreases |turns|
  {
    if turns != [] {
      var last := |turns| - 1;
      OutcomeOfPrefix(turns, last, waited, timeout);
      ClockMeasuresSilence(turns[..last], waited, timeout);
      var before := Outcome(turns[..last], waited, timeout).waited;
      assert turns[last..] == [turns[last]] && turns[last..][1..] == [];
      assert Outcome(turns[last..], before, timeout) == Outcome(turns, waited, timeout);
    }
  }

  lemma {:induction false} OutcomeOfPrefix(turns: seq<Turn>, n: nat, waited: nat, timeout: nat)
    requires n <= |turns|
    ensures var first := Outcome(turns[..n], waited, timeout);
            Outcome(turns, waited, timeout) ==
              if first.StillWaiting? then Outcome(turns[n..], first.waited, timeout) else first
    decreases n
  {
    if n == 0 {
      assert turns[..0] == [] && turns[0..] == turns;
    } else {
      assert turns[..n][1..] == turns[1..][..n - 1] && turns[1..][n - 1..] == turns[n..];
      var clock := if turns[0].Arrives? then 0 else Clock(waited, turns[0].received);
      OutcomeOfPrefix(turns[1..], n - 1, clock, timeout);
    }
  }

  /**
   * A pull gives up only over silence: the turns at the end in which nothing was received, and the one before them,
   * come to at least the timeout.
   */
  lemma TimesOutOverSilence(turns: seq<Turn>, timeout: nat)
    requires Outcome(turns, 0, timeout).StillWaiting?
    ensures forall received, active ::
              Outcome(turns + [Silence(received, active)], 0, timeout).TimedOut? <==>
              (if received then WAIT_STEP else Outcome(turns, 0, timeout).waited + WAIT_STEP) >= timeout
    ensures Outcome(turns, 0, timeout).waited <= (SilentEnd(turns) + 1) * WAIT_STEP
  {
    ClockMeasuresSilence(turns, 0, timeout);
    forall received, active
      ensures Outcome(turns + [Silence(received, active)], 0, timeout).TimedOut? <==>
              (if received then WAIT_STEP else Outcome(turns, 0, timeout).waited + WAIT_STEP) >= timeout
    {
      var more := turns + [Silence(received, active)];
      OutcomeOfPrefix(more, |turns|, 0, timeout);
      assert more[..|turns|] == turns && more[|turns|..] == [Silence(received, active)];
    }
  }

  /** How long nothing has been received, after some turns: a turn each for those at the end, and one for the turn
      in which something was last received without arriving here. */
  ghost function Elapsed(turns: seq<Turn>): nat {
    var n := SilentEnd(turns);
    n * WAIT_STEP + if n < |turns| && turns[|turns| - 1 - n].Silence? then WAIT_STEP else 0
  }

  /** A turn over which the pull goes on: a KEEPALIVE, or a silence of less than the timeout while the receiver thread
      is alive. */
  ghost predicate GoesOn(turns: seq<Turn>, k: nat, timeout: nat)
    requires k < |turns|
  {
    match turns[k]
    case Arrives(m) => m.tag == KeepAlive
    case Silence(_, active) => active && Elapsed(turns[..k + 1]) < timeout
  }

  /** What comes of a turn over which it does not go on. */
  ghost function Ending(turns: seq<Turn>, k: nat, timeout: nat): Pulled
    requires k < |turns|
  {
    match turns[k]
    case Arrives(m) => if m.tag == PeerError then PeerFailed else Got(m)
    case Silence(_, active) =>
      if timeout <= Elapsed(turns[..k + 1]) then TimedOut(Elapsed(turns[..k + 1])) else Dropped
  }

  /** One turn more, after turns that have not ended the loop. */
  lemma NextTurn(turns: seq<Turn>, turn: Turn, timeout: nat)
    requires Outcome(turns, 0, timeout).StillWaiting?
    ensures var more := turns + [turn];
            var k := |turns|;
            if GoesOn(more, k, timeout) then Outcome(more, 0, timeout) == StillWaiting(Elapsed(more))
            else Outcome(more, 0, timeout) == Ending(more, k, timeout)
  {
    var more := turns + [turn];
    OutcomeOfPrefix(more, |turns|, 0, timeout);
    ClockMeasuresSilence(turns, 0, timeout);
    assert more[..|turns|] == turns && more[|turns|..] == [turn] && [turn][1..] == [];
    assert more[..|turns| + 1] == more;
    ElapsedNext(turns, turn);
  }

  lemma ElapsedNext(turns: seq<Turn>, turn: Turn)
    ensures Elapsed(turns + [turn])
         == if turn.Arrives? then 0 else if turn.received then WAIT_STEP else Elapsed(turns) + WAIT_STEP
  {
    var more := turns + [turn];
    assert more[..|more| - 1] == turns;
    if IsSilent(turn) {
      var n := SilentEnd(turns);
      assert n < |turns| ==> more[|more| - 1 - (n + 1)] == turns[|turns| - 1 - n];
    }
  }

  /** A pull goes on waiting if and only if it goes on over every turn. */
  lemma {:induction false} WaitsExactly(turns: seq<Turn>, timeout: nat)
    ensures Outcome(turns, 0, timeout).StillWaiting? <==> forall k :: 0 <= k < |turns| ==> GoesOn(turns, k, timeout)
    decreases |turns|
  {
    if turns != [] {
      var last := |turns| - 1;
      var before := turns[..last];
      WaitsExactly(before, timeout);
      OutcomeOfPrefix(turns, last, 0, timeout);
      assert turns == before + [turns[last]];
      forall k | 0 <= k < last ensures GoesOn(turns, k, timeout) <==> GoesOn(before, k, timeout) {
        assert before[..k + 1] == turns[..k + 1];
      }
      if Outcome(before, 0, timeout).StillWaiting? {
        NextTurn(before, turns[last], timeout);
      }
    }
  }

  /** And otherwise the first turn over which it does not decides: a message that is no KEEPALIVE is handed out, or
      raised if it is ERROR; a silence times out from the timeout on, and before that means that the receiver
      thread is gone. */
  lemma EndsExactly(turns: seq<Turn>, k: nat, timeout: nat)
    requires k < |turns| && (forall j :: 0 <= j < k ==> GoesOn(turns, j, timeout)) && !GoesOn(turns, k, timeout)
    ensures Outcome(turns, 0, timeout) == Ending(turns, k, timeout)
  {
    var before := turns[..k];
    forall j | 0 <= j < k ensures GoesOn(before, j, timeout) {
      assert GoesOn(turns, j, timeout) && before[..j + 1] == turns[..j + 1];
    }
    WaitsExactly(before, timeout);
    NextTurn(before, turns[k], timeout);
    assert before + [turns[k]] == turns[..k + 1];
    assert turns[..k + 1][..k + 1] == turns[..k + 1];
    OutcomeOfPrefix(turns, k + 1, 0, timeout);
  }

  method Pull(turns: seq<Turn>, timeout: nat) returns (pulled: Pulled)
    ensures pulled == Outcome(turns, 0, timeout)
  {
    var waited: nat, n := 0, 0;
    while n < |turns|
      invariant n <= |turns|
      invariant Outcome(turns[n..], waited, timeout) == Outcome(turns, 0, timeout)
    {
      assert turns[n..][1..] == turns[n + 1..];
      match turns[n] {
        case Arrives(m) =>
          if m.tag == PeerError {
            return PeerFailed;
          }
          if m.tag == KeepAlive {
            waited, n := 0, n + 1;
            continue;
          }
          return Got(m);
        case Silence(received, active) =>
          if received {
            waited := 0;
          }
          waited := waited + WAIT_STEP;
          if waited >= timeout {
            return TimedOut(waited);
          }
          if !active {
            return Dropped;
          }
      }
      n := n + 1;
    }
    return StillWaiting(waited);
  }

  // --------------------------------------------------------------------------------- open and closed

  /** What the protocol level makes of a message: takes it, asks to wait, or throws and releases it. */
  datatype Taking = Takes | Waits(msec: nat) | Throws

  datatype Answer = Returns(msec: nat) | RaisesNotOpen | Raises

  /** The events of a channel object: a push, the end of an open, and the end of a close. */
  datatype Call = CallPush(m: Message, ignore: bool, taking: Taking) | EndOpen | EndClose

  datatype Channel = Channel(open: bool, sent: nat, taken: seq<Message>, released: seq<Message>)

  const CLOSED := Channel(false, 0, [], [])

  function Apply(c: Channel, call: Call): Channel {
    match call
    case EndOpen => c.(open := true)
    case EndClose => c.(open := false)
    case CallPush(m, ignore, taking) =>
      if !(c.open || m.tag == Hello) then c.(released := c.released + [m])
      else
        match taking
        case Takes => c.(sent := c.sent + 1, taken := c.taken + [m])
        case Waits(_) => c
        case Throws => c.(released := c.released + [m])
  }

  ghost function Calls(c: Channel, calls: seq<Call>): Channel
    decreases |calls|
  {
    if calls == [] then c else Calls(Apply(c, calls[0]), calls[1..])
  }

  /** The count is that of the messages the protocol level took, whatever the clients do in between. */
  lemma {:induction false} SentIsTaken(c: Channel, calls: seq<Call>)
    requires c.sent == |c.taken|
    ensures Calls(c, calls).sent == |Calls(c, calls).taken|
    decreases |calls|
  {
    if calls != [] {
      SentIsTaken(Apply(c, calls[0]), calls[1..]);
    }
  }

  /** While the channel is closed only HELLO gets through. */
  lemma {:induction false} ClosedTakesOnlyHello(c: Channel, calls: seq<Call>)
    requires !c.open && EndOpen !in calls
    ensures c.taken <= Calls(c, calls).taken && !Calls(c, calls).open
    ensures forall k :: |c.taken| <= k < |Calls(c, calls).taken| ==> Calls(c, calls).taken[k].tag == Hello
    decreases |calls|
  {
    if calls != [] {
      ClosedTakesOnlyHello(Apply(c, calls[0]), calls[1..]);
    }
  }

  /**
   * `close` pushes its GOODBYE under the mutex and closes the channel after it: between the two another client's
   * message can still be taken, behind the GOODBYE.
   */
  lemma TakenBehindGoodbye(late: Message)
    requires late.tag == PushData
    ensures var goodbye := CallPush(Control(Goodbye, 0), true, Takes);
            Calls(CLOSED, [EndOpen, goodbye, CallPush(late, false, Takes), EndClose]).taken
            == [Control(Goodbye, 0), late]
  {
    var goodbye, push := CallPush(Control(Goodbye, 0), true, Takes), CallPush(late, false, Takes);
    var calls := [EndOpen, goodbye, push, EndClose];
    assert calls[1..] == [goodbye, push, EndClose];
    assert calls[1..][1..] == [push, EndClose];
    assert calls[1..][1..][1..] == [EndClose] && [EndClose][1..] == [];
    var c2 := Apply(Apply(CLOSED, EndOpen), goodbye);
    var c3 := Apply(c2, push);
    assert c3.taken == [Control(Goodbye, 0), late];
    assert Calls(c3, [EndClose]) == Calls(Apply(c3, EndClose), []) == Apply(c3, EndClose);
    assert Calls(c2, [push, EndClose]) == Calls(c3, [EndClose]);
    assert Calls(CLOSED, calls) == Calls(c2, [push, EndClose]);
  }

  /** Nothing but HELLO follows the GOODBYE exactly if no other push is taken before the channel is closed. */
  lemma GoodbyeIsLast(c: Channel, goodbye: Message, window: seq<Call>, after: seq<Call>)
    requires c.open && goodbye.tag == Goodbye && EndOpen !in window + after && EndClose !in window
    ensures var calls := [CallPush(goodbye, true, Takes)] + window + [EndClose] + after;
            var n := |c.taken|;
            && |Calls(c, calls).taken| > n && Calls(c, calls).taken[n] == goodbye
            && ((forall k :: n < k < |Calls(c, calls).taken| ==> Calls(c, calls).taken[k].tag == Hello)
                <==> (forall k :: 0 <= k < |window| && window[k].taking.Takes? ==> window[k].m.tag == Hello))
  {
    var first := Apply(c, CallPush(goodbye, true, Takes));
    var calls := [CallPush(goodbye, true, Takes)] + window + [EndClose] + after;
    assert calls[1..] == window + ([EndClose] + after);
    CallsTwice(first, window, [EndClose] + after);
    var during := Calls(first, window);
    assert ([EndClose] + after)[1..] == after;
    assert forall call :: call in after ==> call in window + after;
    ClosedTakesOnlyHello(Apply(during, EndClose), after);
    OpenTakes(first, window);
    var end := Calls(c, calls).taken;
    assert during.taken <= end;
    if forall k :: |c.taken| < k < |end| ==> end[k].tag == Hello {
      forall k | 0 <= k < |window| && window[k].taking.Takes? ensures window[k].m.tag == Hello {
        TakenIsThere(first, window, k);
        var j: nat :| |first.taken| <= j < |during.taken| && during.taken[j] == window[k].m;
        assert end[j] == during.taken[j];
      }
    }
    if forall k :: 0 <= k < |window| && window[k].taking.Takes? ==> window[k].m.tag == Hello {
      forall k | |c.taken| < k < |end| ensures end[k].tag == Hello {
        if k < |during.taken| {
          OnlyTakenIsThere(first, window, k);
          assert end[k] == during.taken[k];
        }
      }
    }
  }

  lemma {:induction false} CallsTwice(c: Channel, first: seq<Call>, second: seq<Call>)
    ensures Calls(c, first + second) == Calls(Calls(c, first), second)
    decreases |first|
  {
    if first == [] {
      assert first + second == second;
    } else {
      assert (first + second)[1..] == first[1..] + second;
      CallsTwice(Apply(c, first[0]), first[1..], second);
    }
  }

  /** In the window the channel stays open and what was taken stays. */
  lemma {:induction false} OpenTakes(c: Channel, window: seq<Call>)
    requires c.open && EndClose !in window
    ensures Calls(c, window).open && c.taken <= Calls(c, window).taken
    decreases |window|
  {
    if window != [] {
      OpenTakes(Apply(c, window[0]), window[1..]);
    }
  }

  lemma {:induction false} TakenIsThere(c: Channel, window: seq<Call>, k: nat)
    requires c.open && EndClose !in window && EndOpen !in window && k < |window| && window[k].taking.Takes?
    ensures exists j: nat :: |c.taken| <= j < |Calls(c, window).taken| && Calls(c, window).taken[j] == window[k].m
    decreases |window|
  {
    var next := Apply(c, window[0]);
    OpenTakes(next, window[1..]);
    if k == 0 {
      assert next.taken == c.taken + [window[0].m];
      assert Calls(c, window).taken[|c.taken|] == next.taken[|c.taken|];
    } else {
      TakenIsThere(next, window[1..], k - 1);
      var j: nat :| |next.taken| <= j < |Calls(next, window[1..]).taken|
                    && Calls(next, window[1..]).taken[j] == window[1..][k - 1].m;
      assert Calls(c, window) == Calls(next, window[1..]) && window[1..][k - 1] == window[k];
      assert |c.taken| <= j && Calls(c, window).taken[j] == window[k].m;
    }
  }

  lemma {:induction false} OnlyTakenIsThere(c: Channel, window: seq<Call>, j: nat)
    requires c.open && EndClose !in window && EndOpen !in window
    requires |c.taken| <= j < |Calls(c, window).taken|
    ensures exists k :: 0 <= k < |window| && window[k].taking.Takes? && Calls(c, window).taken[j] == window[k].m
    decreases |window|
  {
    if window != [] {
      var next := Apply(c, window[0]);
      OpenTakes(next, window[1..]);
      if j < |next.taken| {
        assert Calls(c, window).taken[j] == next.taken[j] == window[0].m;
      } else {
        OnlyTakenIsThere(next, window[1..], j);
        var k :| 0 <= k < |window[1..]| && window[1..][k].taking.Takes?
                 && Calls(c, window).taken[j] == window[1..][k].m;
        assert window[k + 1].taking.Takes?;
      }
    }
  }

  class DerivedChannel {
    var open: bool
    var numberMessagesSent: nat
    ghost var channel: Channel

    ghost predicate Valid()
      reads this
    {
      open == channel.open && numberMessagesSent == channel.sent == |channel.taken|
    }

    constructor ()
      ensures Valid() && channel == CLOSED
    {
      open, numberMessagesSent, channel := false, 0, CLOSED;
    }

    /** The answer of 0 to a caller means that the message is no longer the caller's. */
    method Push(m: Message, ignoreIfNotOpen: bool, taking: Taking) returns (answer: Answer)
      requires Valid() && (taking.Waits? ==> taking.msec > 0)
      modifies this
      ensures Valid() && channel == Apply(old(channel), CallPush(m, ignoreIfNotOpen, taking))
      ensures answer == Raises <==> (old(open) || m.tag == Hello) && taking == Throws
      ensures answer == RaisesNotOpen <==> !old(open) && m.tag != Hello && !ignoreIfNotOpen
      ensures answer == Returns(0) <==>
              m in channel.taken[|old(channel).taken|..] || (!old(open) && m.tag != Hello && ignoreIfNotOpen)
      ensures answer.Returns? && answer.msec > 0 ==> channel == old(channel)
      ensures channel.open == old(channel).open
      ensures channel.taken == old(channel).taken + if (old(open) || m.tag == Hello) && taking == Takes then [m] else []
      ensures channel.released == old(channel).released +
                if (!old(open) && m.tag != Hello) || taking == Throws then [m] else []
    {
      channel := Apply(channel, CallPush(m, ignoreIfNotOpen, taking));
      if open || m.tag == Hello {
        match taking {
          case Throws =>
            return Raises;
          case Waits(msec) =>
            return Returns(msec);
          case Takes =>
            numberMessagesSent := numberMessagesSent + 1;
            return Returns(0);
        }
      }
      return if ignoreIfNotOpen then Returns(0) else RaisesNotOpen;
    }

    /** The handshake: a HELLO out, a HELLO in; only then is the channel open. */
    method Open(hello: Message, taking: Taking, turns: seq<Turn>, timeout: nat) returns (ok: bool)
      requires Valid() && hello.tag == Hello && (taking.Waits? ==> taking.msec > 0)
      modifies this
      ensures Valid()
      ensures ok <==> !taking.Throws? && Outcome(turns, 0, timeout).Got? && Outcome(turns, 0, timeout).m.tag == Hello
      ensures open == (old(open) || ok)
      ensures channel.taken == old(channel.taken) + if taking == Takes then [hello] else []
    {
      var answer := Push(hello, false, taking);
      if answer.Raises? {
        return false;
      }
      var pulled := Pull(turns, timeout);
      if !pulled.Got? || pulled.m.tag != Hello {
        return false;
      }
      open := true;
      channel := Apply(channel, EndOpen);
      return true;
    }

    /** Says GOODBYE if the channel is open, and closes it whether or not the push throws. */
    method Close(goodbye: Message, taking: Taking) returns (answer: Answer)
      requires Valid() && goodbye.tag == Goodbye && (taking.Waits? ==> taking.msec > 0)
      modifies this
      ensures Valid() && !open
      ensures channel.taken == old(channel.taken) + if old(open) && taking == Takes then [goodbye] else []
      ensures answer == Raises <==> old(open) && taking == Throws
    {
      answer := Push(goodbye, true, taking);
      open := false;
      channel := Apply(channel, EndClose);
    }
  }
}
