/**
 * The ring benchmark: a strided sweep and a double buffer compute a plain iteration.
 *
 * Arithmetic is exact, over the reals. One job is a State, whose elements are visited in strides of WRAP; the
 * processes form a ring, each taking the output its predecessor had one step before.
 */
module Ring {

  const WRAP: nat := 32

  function Bump(x: real): real {
    (x + 1.0) / 1.0001
  }

  ghost function Iterate(n: nat, x: real): real {
    if n == 0 then x else Bump(Iterate(n - 1, x))
  }

  lemma IterateNone(x: real)
    ensures Iterate(0, x) == x
  {
  }

  lemma {:induction false} IterateAdds(m: nat, n: nat, x: real)
    ensures Iterate(m, Iterate(n, x)) == Iterate(n + m, x)
  {
    if m > 0 {
      IterateAdds(m - 1, n, x);
    }
  }

  function Power(x: real, n: nat): real {
    if n == 0 then 1.0 else x * Power(x, n - 1)
  }

  /** Every bump takes the distance from 10000, where a bump changes nothing, down by the factor 1.0001. */
  lemma {:induction false} DistanceShrinks(n: nat, x: real)
    ensures (Iterate(n, x) - 10000.0) * Power(1.0001, n) == x - 10000.0
  {
    if n > 0 {
      DistanceShrinks(n - 1, x);
      var before := Iterate(n - 1, x);
      OneBump(before, Power(1.0001, n - 1));
    }
  }

  lemma OneBump(x: real, factor: real)
    ensures (Bump(x) - 10000.0) * (1.0001 * factor) == (x - 10000.0) * factor
  {
    assert (Bump(x) - 10000.0) * 1.0001 == x - 10000.0;
  }

  // ------------------------------------------------------------------------------------ strided sweep

  /** How many of `size` elements lie in the columns below `column`. */
  ghost function Before(size: nat, column: nat): nat {
    size / WRAP * column + if column < size % WRAP then column else size % WRAP
  }

  /** When the sweep visits element `e`, counted from 0. */
  ghost function Visit(size: nat, e: nat): nat {
    Before(size, e % WRAP) + e / WRAP
  }

  ghost function Columns(size: nat): nat {
    if size < WRAP then size else WRAP
  }

  lemma BeforeNext(size: nat, column: nat)
    ensures Before(size, column + 1) == Before(size, column) + size / WRAP + if column < size % WRAP then 1 else 0
  {
    assert size / WRAP * (column + 1) == size / WRAP * column + size / WRAP;
  }

  lemma {:induction false} BeforeGrows(size: nat, column: nat, other: nat)
    requires column <= other
    ensures Before(size, column) <= Before(size, other)
    decreases other - column
  {
    if column < other {
      BeforeGrows(size, column, other - 1);
      BeforeNext(size, other - 1);
    }
  }

  /** Element `e` is in its column: a column has size/WRAP elements, or one more. */
  lemma RowInColumn(size: nat, e: nat)
    ensures e < size <==> e / WRAP < size / WRAP + if e % WRAP < size % WRAP then 1 else 0
  {
  }

  lemma BeforeNone(size: nat)
    ensures Before(size, 0) == 0
  {
  }

  lemma VisitOf(size: nat, e: nat)
    ensures Visit(size, e) == Before(size, e % WRAP) + e / WRAP
  {
  }

  lemma BeforeAll(size: nat)
    ensures Before(size, Columns(size)) == size
  {
  }

  lemma VisitInRange(size: nat, e: nat)
    requires e < size
    ensures Visit(size, e) < Before(size, e % WRAP + 1) <= size
    ensures e % WRAP < Columns(size)
  {
    RowInColumn(size, e);
    BeforeNext(size, e % WRAP);
    BeforeGrows(size, e % WRAP + 1, Columns(size));
    BeforeAll(size);
  }

  /** No two elements are visited at the same time ... */
  lemma VisitIsOneToOne(size: nat, e: nat, e': nat)
    requires e < size && e' < size
    ensures Visit(size, e) == Visit(size, e') <==> e == e'
  {
    VisitInRange(size, e);
    VisitInRange(size, e');
    if e % WRAP < e' % WRAP {
      BeforeGrows(size, e % WRAP + 1, e' % WRAP);
    } else if e' % WRAP < e % WRAP {
      BeforeGrows(size, e' % WRAP + 1, e % WRAP);
    }
  }

  /** ... and at every time one element is: the sweep visits each element exactly once. */
  lemma {:induction false} VisitIsOnto(size: nat, column: nat, time: nat)
    requires column <= Columns(size) && time < Before(size, column)
    ensures exists e: nat :: e < size && Visit(size, e) == time
  {
    BeforeNext(size, column - 1);
    if time < Before(size, column - 1) {
      VisitIsOnto(size, column - 1, time);
    } else {
      var e := (time - Before(size, column - 1)) * WRAP + (column - 1);
      assert e % WRAP == column - 1 && e / WRAP == time - Before(size, column - 1);
      RowInColumn(size, e);
      assert e < size && Visit(size, e) == time;
    }
  }

  lemma EachElementOnce(size: nat, time: nat)
    requires time < size
    ensures exists e: nat :: e < size && Visit(size, e) == time
  {
    BeforeAll(size);
    VisitIsOnto(size, Columns(size), time);
  }

  /** The number of bumps in `rounds` whole sweeps. */
  ghost function Bumps(rounds: nat, size: nat): nat {
    rounds * size
  }

  lemma OneMoreRound(rounds: nat, size: nat)
    ensures Bumps(0, size) == 0 && Bumps(rounds + 1, size) == Bumps(rounds, size) + size
  {
  }

  class State {
    const size: nat
    const rounds: nat
    const values: array<real>

    ghost predicate Valid() {
      values.Length == size
    }

    constructor (size: nat, rounds: nat, process: nat)
      ensures Valid() && fresh(values)
      ensures this.size == size && this.rounds == rounds
      ensures forall e :: 0 <= e < size ==> values[e] == (e + process) as real
    {
      this.size := size;
      this.rounds := rounds;
      values := new real[size];
      new;
      var e := 0;
      while e < size
        invariant 0 <= e <= size
        invariant forall k :: 0 <= k < e ==> values[k] == (k + process) as real
      {
        values[e] := (e + process) as real;
        e := e + 1;
      }
    }

    /** How often Bump has been applied to the input when the sweeps are over and element `e` was last written. */
    ghost function Age(e: nat): nat
      requires rounds > 0
    {
      Bumps(rounds - 1, size) + Visit(size, e) + 1
    }

    method Step(input: real) returns (first: real)
      requires Valid() && size > 0
      modifies values
      ensures rounds == 0 ==> values[..] == old(values[..])
      ensures rounds > 0 ==> forall e :: 0 <= e < size ==> values[e] == Iterate(Age(e), input)
      ensures first == if rounds == 0 then old(values[0]) else Iterate(Bumps(rounds - 1, size) + 1, input)
    {
      assert Visit(size, 0) == 0;
      hide Visit, Iterate, Bumps, Before;
      OneMoreRound(0, size);
      assert Iterate(0, input) == input by { IterateNone(input); }
      var x := input;
      var o := 0;
      while o < rounds
        invariant 0 <= o <= rounds
        invariant x == Iterate(Bumps(o, size), input)
        invariant o == 0 ==> values[..] == old(values[..])
        invariant o > 0 ==> forall e :: 0 <= e < size ==>
                    values[e] == Iterate(Bumps(o - 1, size) + Visit(size, e) + 1, input)
      {
        x := Sweep(x, input, Bumps(o, size));
        OneMoreRound(o, size);
        o := o + 1;
      }
      first := values[0];
    }

    /** One pass over all elements in strides of WRAP; `input` has been bumped `done` times before. */
    method Sweep(from: real, ghost input: real, ghost done: nat) returns (x: real)
      requires Valid() && from == Iterate(done, input)
      modifies values
      ensures x == Iterate(done + size, input)
      ensures forall e :: 0 <= e < size ==> values[e] == Iterate(done + Visit(size, e) + 1, input)
    {
      hide Iterate, Before, Visit;
      BeforeNone(size);
      x := from;
      var s := 0;
      while s < WRAP && s < size
        invariant 0 <= s <= Columns(size)
        invariant x == Iterate(done + Before(size, s), input)
        invariant forall e :: 0 <= e < size && e % WRAP < s ==> values[e] == Iterate(done + Visit(size, e) + 1, input)
      {
        x := Column(s, x, input, done);
        s := s + 1;
      }
      BeforeAll(size);
    }

    /** The elements of column `s`; those of the others stay. */
    method Column(s: nat, from: real, ghost input: real, ghost done: nat) returns (x: real)
      requires Valid() && s < WRAP && s < size
      requires from == Iterate(done + Before(size, s), input)
      modifies values
      ensures x == Iterate(done + Before(size, s + 1), input)
      ensures forall e :: 0 <= e < size ==>
                values[e] == if e % WRAP == s then Iterate(done + Visit(size, e) + 1, input) else old(values[e])
    {
      hide Before, Visit;
      x := from;
      var e := s;
      ghost var row := 0;
      while e < size
        invariant e == s + row * WRAP && e % WRAP == s && e / WRAP == row
        invariant x == Iterate(done + Before(size, s) + row, input)
        invariant forall k :: 0 <= k < size ==>
                    values[k] == if k % WRAP == s && k < e then Iterate(done + Visit(size, k) + 1, input)
                                 else old(values[k])
        invariant row <= size / WRAP + if s < size % WRAP then 1 else 0
      {
        RowInColumn(size, e);
        VisitOf(size, e);
        x := Bump(x);
        values[e] := x;
        e := e + WRAP;
        row := row + 1;
      }
      RowInColumn(size, e);
      BeforeNext(size, s);
    }
  }

  // ---------------------------------------------------------------------------------------------- ring

  datatype Pars = Pars(processes: nat, size: nat, rounds: nat)

  /** What process `p` puts out for an input; with no rounds it is the initial value of its first element. */
  ghost function Job(pars: Pars, p: nat, input: real): real {
    if pars.rounds == 0 then p as real else Iterate(Bumps(pars.rounds - 1, pars.size) + 1, input)
  }

  function Predecessor(processes: nat, p: nat): nat
    requires p < processes
    ensures Predecessor(processes, p) < processes
  {
    if p == 0 then processes - 1 else p - 1
  }

  /** The synchronous ring: in one step every process takes what its predecessor put out the step before. */
  ghost function Outputs(pars: Pars, n: nat): (outputs: seq<real>)
    ensures |outputs| == pars.processes
  {
    if n == 0 then seq(pars.processes, _ => 0.0)
    else
      var before := Outputs(pars, n - 1);
      seq(pars.processes, p requires 0 <= p < pars.processes =>
        Job(pars, p, before[Predecessor(pars.processes, p)]))
  }

  /** Every process of the ring puts out the same: the iteration from 0, as far as n jobs take it. */
  lemma {:induction false} RingIterates(pars: Pars, n: nat, p: nat)
    requires pars.rounds > 0 && p < pars.processes
    ensures Outputs(pars, n)[p] == Iterate(n * (Bumps(pars.rounds - 1, pars.size) + 1), 0.0)
  {
    if n > 0 {
      var job := Bumps(pars.rounds - 1, pars.size) + 1;
      RingIterates(pars, n - 1, Predecessor(pars.processes, p));
      IterateAdds(job, (n - 1) * job, 0.0);
      assert (n - 1) * job + job == n * job;
    }
  }

  class System {
    const pars: Pars
    const states: seq<State>
    const buffer: array<real>

    /** Each process has a state of its own, and the double buffer is apart from all of them. */
    ghost predicate Valid()
      reads set s | s in states :: s.values
    {
      && |states| == pars.processes && pars.size > 0
      && buffer.Length == 2 * pars.processes
      && (forall p :: 0 <= p < |states| ==>
            && states[p].Valid() && states[p].size == pars.size && states[p].rounds == pars.rounds
            && states[p].values != buffer)
      && (forall p, q :: 0 <= p < q < |states| ==> states[p].values != states[q].values)
      && (pars.rounds == 0 ==> forall p :: 0 <= p < |states| ==> states[p].values[0] == p as real)
    }

    /** The half of the buffer that step `n` writes. */
    function Half(n: nat): nat {
      if n % 2 == 1 then pars.processes else 0
    }

    constructor (pars: Pars)
      requires pars.size > 0
      ensures Valid() && this.pars == pars
      ensures fresh(buffer) && forall s :: s in states ==> fresh(s.values)
      ensures forall k :: 0 <= k < buffer.Length ==> buffer[k] == 0.0
    {
      var jobs: seq<State> := [];
      while |jobs| < pars.processes
        invariant |jobs| <= pars.processes
        invariant forall q :: 0 <= q < |jobs| ==> fresh(jobs[q].values)
        invariant forall q :: 0 <= q < |jobs| ==>
                    jobs[q].Valid() && jobs[q].size == pars.size && jobs[q].rounds == pars.rounds
        invariant forall q, r :: 0 <= q < r < |jobs| ==> jobs[q].values != jobs[r].values
        invariant forall q :: 0 <= q < |jobs| ==> jobs[q].values[0] == q as real
      {
        var state := new State(pars.size, pars.rounds, |jobs|);
        jobs := jobs + [state];
      }
      this.pars := pars;
      states := jobs;
      buffer := new real[2 * pars.processes](_ => 0.0);
    }

    /** What step `n` has written. */
    ghost function Written(n: nat): (outputs: seq<real>)
      requires buffer.Length == 2 * pars.processes
      reads buffer
      ensures |outputs| == pars.processes
    {
      buffer[..][Half(n)..Half(n) + pars.processes]
    }

    /** One job: process `p` takes `buffer[from]` and puts out to `buffer[to]`. */
    method RunJob(p: nat, from: nat, to: nat)
      requires Valid() && p < pars.processes
      requires from < buffer.Length && to < buffer.Length
      modifies buffer, set s | s in states :: s.values
      ensures Valid()
      ensures buffer[..] == old(buffer[..])[to := Job(pars, p, old(buffer[from]))]
    {
      hide Iterate, Bumps;
      var first := states[p].Step(buffer[from]);
      buffer[to] := first;
    }

    /** What step `n` reads. */
    ghost function Read(n: nat): (inputs: seq<real>)
      requires buffer.Length == 2 * pars.processes
      reads buffer
      ensures |inputs| == pars.processes
    {
      buffer[..][pars.processes - Half(n)..pars.processes - Half(n) + pars.processes]
    }

    /** Step `n`: the processes in descending order, from one half of the buffer to the other. */
    method Advance(n: nat)
      requires Valid()
      requires Read(n) == Outputs(pars, n)
      modifies buffer, set s | s in states :: s.values
      ensures Valid()
      ensures Written(n) == Outputs(pars, n + 1)
    {
      hide Outputs, Midway;
      var obuf, ibuf := Half(n), pars.processes - Half(n);
      MidwayStart(buffer[..], ibuf, Outputs(pars, n), obuf, Outputs(pars, n + 1));
      RunJobs(n, ibuf, obuf);
      MidwayEnd(buffer[..], ibuf, Outputs(pars, n), obuf, Outputs(pars, n + 1));
    }

    method RunJobs(ghost n: nat, ibuf: nat, obuf: nat)
      requires Valid()
      requires ibuf + pars.processes <= buffer.Length && obuf + pars.processes <= buffer.Length
      requires Midway(buffer[..], ibuf, Outputs(pars, n), obuf, Outputs(pars, n + 1), pars.processes)
      modifies buffer, set s | s in states :: s.values
      ensures Valid()
      ensures Midway(buffer[..], ibuf, Outputs(pars, n), obuf, Outputs(pars, n + 1), 0)
    {
      hide Outputs, Job, Valid, Midway;
      var p := pars.processes;
      while p != 0
        invariant 0 <= p <= pars.processes
        invariant Valid()
        invariant Midway(buffer[..], ibuf, Outputs(pars, n), obuf, Outputs(pars, n + 1), p)
      {
        var po := p - 1;
        var pi := if po == 0 then pars.processes - 1 else po - 1;
        ghost var before := buffer[..];
        RunJob(po, ibuf + pi, obuf + po);
        JobDone(pars, n, before, buffer[..], ibuf, obuf, p);
        p := p - 1;
      }
    }

    /** The run of the benchmark: what the last step wrote is what the synchronous ring puts out. */
    method Run(steps: nat)
      requires Valid()
      requires forall k :: 0 <= k < buffer.Length ==> buffer[k] == 0.0
      modifies buffer, set s | s in states :: s.values
      ensures Valid()
      ensures steps > 0 ==> Written(steps - 1) == Outputs(pars, steps)
    {
      InitialOutputs(pars);
      hide Outputs;
      var n := 0;
      while n < steps
        invariant 0 <= n <= steps
        invariant Valid()
        invariant Read(n) == Outputs(pars, n)
        invariant n > 0 ==> Written(n - 1) == Outputs(pars, n)
      {
        Advance(n);
        assert Read(n + 1) == Written(n);
        n := n + 1;
      }
    }
  }

  /** Of a step only the processes below `p` are left to do. */
  ghost predicate Midway(buffer: seq<real>, ibuf: nat, inputs: seq<real>, obuf: nat, outputs: seq<real>, p: nat) {
    && |buffer| == 2 * |inputs| && |inputs| == |outputs| && p <= |inputs|
    && ((ibuf == 0 && obuf == |inputs|) || (ibuf == |inputs| && obuf == 0))
    && buffer[ibuf..ibuf + |inputs|] == inputs
    && buffer[obuf + p..obuf + |inputs|] == outputs[p..]
  }

  lemma MidwayStart(buffer: seq<real>, ibuf: nat, inputs: seq<real>, obuf: nat, outputs: seq<real>)
    requires |buffer| == 2 * |inputs| && |inputs| == |outputs|
    requires (ibuf == 0 && obuf == |inputs|) || (ibuf == |inputs| && obuf == 0)
    requires buffer[ibuf..ibuf + |inputs|] == inputs
    ensures Midway(buffer, ibuf, inputs, obuf, outputs, |inputs|)
  {
  }

  lemma MidwayNext(buffer: seq<real>, ibuf: nat, inputs: seq<real>, obuf: nat, outputs: seq<real>, p: nat, pi: nat)
    requires Midway(buffer, ibuf, inputs, obuf, outputs, p)
    requires 0 < p && pi < |inputs|
    ensures ibuf + pi < |buffer| && buffer[ibuf + pi] == inputs[pi]
    ensures obuf + p - 1 < |buffer|
    ensures Midway(buffer[obuf + p - 1 := outputs[p - 1]], ibuf, inputs, obuf, outputs, p - 1)
  {
    assert buffer[ibuf + pi] == buffer[ibuf..ibuf + |inputs|][pi];
    var after := buffer[obuf + p - 1 := outputs[p - 1]];
    assert after[ibuf..ibuf + |inputs|] == buffer[ibuf..ibuf + |inputs|];
    assert after[obuf + p - 1..obuf + |inputs|] == [outputs[p - 1]] + buffer[obuf + p..obuf + |inputs|];
  }

  lemma JobDone(pars: Pars, n: nat, before: seq<real>, after: seq<real>, ibuf: nat, obuf: nat, p: nat)
    requires Midway(before, ibuf, Outputs(pars, n), obuf, Outputs(pars, n + 1), p) && 0 < p
    requires ibuf + Predecessor(pars.processes, p - 1) < |before| && obuf + p - 1 < |before|
    requires after == before[obuf + p - 1 := Job(pars, p - 1, before[ibuf + Predecessor(pars.processes, p - 1)])]
    ensures Midway(after, ibuf, Outputs(pars, n), obuf, Outputs(pars, n + 1), p - 1)
  {
    hide Outputs, Job;
    NextOutput(pars, n, p - 1);
    MidwayNext(before, ibuf, Outputs(pars, n), obuf, Outputs(pars, n + 1), p, Predecessor(pars.processes, p - 1));
  }

  lemma MidwayEnd(buffer: seq<real>, ibuf: nat, inputs: seq<real>, obuf: nat, outputs: seq<real>)
    requires Midway(buffer, ibuf, inputs, obuf, outputs, 0)
    ensures obuf + |inputs| <= |buffer| && buffer[obuf..obuf + |inputs|] == outputs
  {
  }

  lemma InitialOutputs(pars: Pars)
    ensures forall p :: 0 <= p < pars.processes ==> Outputs(pars, 0)[p] == 0.0
  {
  }

  lemma NextOutput(pars: Pars, n: nat, p: nat)
    requires p < pars.processes
    ensures Outputs(pars, n + 1)[p] == Job(pars, p, Outputs(pars, n)[Predecessor(pars.processes, p)])
  {
  }
}
