/**
 * The IIR filter: rolling queues refine the difference equation.
 *
 * A filter has coefficients b_k and a_k (a_0 = 1) for L lags and handles `width` independent lanes. It keeps its
 * last L inputs and outputs in two rolling queues, which lie next to each other in a workspace that all filters
 * share. Arithmetic is exact, over the reals.
 */
module Filter {

  ghost function Times(x: real, y: real): real {
    x * y
  }

  /** Lane `i` of the vector `k` steps before the end of a history, zero before its start. */
  ghost function Delayed(history: seq<seq<real>>, k: nat, i: nat): real
    requires k > 0 && forall v :: v in history ==> i < |v|
  {
    if k <= |history| then
      assert history[|history| - k] in history;
      history[|history| - k][i]
    else 0.0
  }

  ghost predicate Lanes(history: seq<seq<real>>, width: nat) {
    forall v :: v in history ==> |v| == width
  }

  /** The sum over lags 1..k of coefficient times delayed value; `parity` 0 takes the b_k, 1 the a_k. */
  ghost function Sum(coeffs: seq<real>, parity: nat, history: seq<seq<real>>, i: nat, k: nat): real
    requires parity < 2 && 2 * (k + 1) <= |coeffs| && forall v :: v in history ==> i < |v|
  {
    if k == 0 then 0.0
    else Sum(coeffs, parity, history, i, k - 1) + Times(coeffs[2 * k + parity], Delayed(history, k, i))
  }

  /** The difference equation: y[n] = sum b_k x[n-k] - sum a_k y[n-k]. */
  ghost function Equation(coeffs: seq<real>, inputs: seq<seq<real>>, outputs: seq<seq<real>>, x: real, i: nat): real
    requires |coeffs| >= 2 && |coeffs| % 2 == 0
    requires (forall v :: v in inputs ==> i < |v|) && (forall v :: v in outputs ==> i < |v|)
  {
    Times(coeffs[0], x) + Sum(coeffs, 0, inputs, i, Lags(coeffs)) - Sum(coeffs, 1, outputs, i, Lags(coeffs))
  }

  /** The whole output history that an input history has. */
  ghost function Response(coeffs: seq<real>, inputs: seq<seq<real>>, width: nat): (outputs: seq<seq<real>>)
    requires |coeffs| >= 2 && |coeffs| % 2 == 0 && Lanes(inputs, width)
    ensures |outputs| == |inputs| && Lanes(outputs, width)
  {
    if inputs == [] then []
    else
      var n := |inputs| - 1;
      var before := Response(coeffs, inputs[..n], width);
      assert inputs[n] in inputs;
      before + [Next(coeffs, inputs[..n], before, inputs[n])]
  }

  /** The vector that the difference equation puts after two histories. */
  ghost function Next(coeffs: seq<real>, inputs: seq<seq<real>>, outputs: seq<seq<real>>, x: seq<real>): (y: seq<real>)
    requires |coeffs| >= 2 && |coeffs| % 2 == 0 && Lanes(inputs, |x|) && Lanes(outputs, |x|)
    ensures |y| == |x|
  {
    seq(|x|, i requires 0 <= i < |x| => Equation(coeffs, inputs, outputs, x[i], i))
  }

  lemma ResponseNext(coeffs: seq<real>, inputs: seq<seq<real>>, x: seq<real>, width: nat)
    requires |coeffs| >= 2 && |coeffs| % 2 == 0 && Lanes(inputs, width) && |x| == width
    ensures Lanes(inputs + [x], width)
    ensures var outputs := Response(coeffs, inputs, width);
            Response(coeffs, inputs + [x], width) == outputs + [Next(coeffs, inputs, outputs, x)]
  {
    hide Next;
    var longer := inputs + [x];
    assert longer[..|longer| - 1] == inputs;
    assert Lanes(longer, width);
  }

  /** What the response is: at every step the difference equation over the histories before it. */
  lemma {:induction false} ResponseSatisfiesEquation(coeffs: seq<real>, inputs: seq<seq<real>>, width: nat, n: nat)
    requires |coeffs| >= 2 && |coeffs| % 2 == 0 && Lanes(inputs, width) && n < |inputs|
    ensures var outputs := Response(coeffs, inputs, width);
            && Response(coeffs, inputs[..n], width) == outputs[..n]
            && |inputs[n]| == width
            && outputs[n] == Next(coeffs, inputs[..n], outputs[..n], inputs[n])
  {
    hide Next;
    var last := |inputs| - 1;
    assert inputs[n] in inputs;
    if n < last {
      ResponseSatisfiesEquation(coeffs, inputs[..last], width, n);
      assert inputs[..last][..n] == inputs[..n];
    }
  }

  // ------------------------------------------------------------------------- the equation, written out

  ghost function Lane(history: seq<seq<real>>, n: nat, i: nat): real
    requires n < |history|
  {
    if i < |history[n]| then history[n][i] else 0.0
  }

  /** The b_k, k = 0, 1, ... */
  ghost function Bs(coeffs: seq<real>): (bs: seq<real>)
    ensures |bs| == |coeffs| / 2
  {
    seq(|coeffs| / 2, k requires 0 <= k < |coeffs| / 2 => coeffs[2 * k])
  }

  /** The a_k, with a_0 = 1 whatever is in its place. */
  ghost function As(coeffs: seq<real>): (weights: seq<real>)
    ensures |weights| == |coeffs| / 2
  {
    seq(|coeffs| / 2, k requires 0 <= k < |coeffs| / 2 => if k == 0 then 1.0 else coeffs[2 * k + 1])
  }

  /** The sum over the first `m` of some weights c_k of c_k v[n-k], where v is zero before its start. */
  ghost function Weighted(weights: seq<real>, history: seq<seq<real>>, n: nat, i: nat, m: nat): real
    requires m <= |weights| && n < |history|
  {
    if m == 0 then 0.0
    else
      Weighted(weights, history, n, i, m - 1) + Times(weights[m - 1], Before(history, n, m - 1, i))
  }

  /** Lane `i` of v[n-k], zero before the start. */
  ghost function Before(history: seq<seq<real>>, n: nat, k: nat, i: nat): real
    requires n < |history|
  {
    if k <= n then Lane(history, n - k, i) else 0.0
  }

  /** sum a_k y[n-k] = sum b_k x[n-k], with a_0 = 1, in one lane. */
  ghost predicate Balanced(coeffs: seq<real>, inputs: seq<seq<real>>, outputs: seq<seq<real>>, n: nat, i: nat)
    requires n < |inputs| && n < |outputs|
  {
    Weighted(As(coeffs), outputs, n, i, |As(coeffs)|) == Weighted(Bs(coeffs), inputs, n, i, |Bs(coeffs)|)
  }

  ghost predicate AllBalanced(coeffs: seq<real>, inputs: seq<seq<real>>, outputs: seq<seq<real>>, n: nat, width: nat) {
    n < |inputs| && n < |outputs| && forall i :: 0 <= i < width ==> Balanced(coeffs, inputs, outputs, n, i)
  }

  /** The difference equation balances the whole histories, at every step and in every lane. */
  lemma ResponseBalances(coeffs: seq<real>, inputs: seq<seq<real>>, width: nat, n: nat, i: nat)
    requires |coeffs| >= 2 && |coeffs| % 2 == 0 && Lanes(inputs, width) && n < |inputs| && i < width
    ensures Balanced(coeffs, inputs, Response(coeffs, inputs, width), n, i)
  {
    var outputs, lags := Response(coeffs, inputs, width), Lags(coeffs);
    ResponseSatisfiesEquation(coeffs, inputs, width, n);
    TakesLanes(inputs, outputs, width, n);
    hide Response, Lanes, Times, Sum, Weighted;
    SumIsWeighted(coeffs, 0, inputs, width, n, i, lags);
    SumIsWeighted(coeffs, 1, outputs, width, n, i, lags);
    TimesUnit(outputs[n][i]);
  }

  lemma AllLanesBalance(coeffs: seq<real>, inputs: seq<seq<real>>, width: nat, n: nat)
    requires |coeffs| >= 2 && |coeffs| % 2 == 0 && Lanes(inputs, width) && n < |inputs|
    ensures AllBalanced(coeffs, inputs, Response(coeffs, inputs, width), n, width)
  {
    hide Response, Balanced;
    forall i | 0 <= i < width ensures Balanced(coeffs, inputs, Response(coeffs, inputs, width), n, i) {
      ResponseBalances(coeffs, inputs, width, n, i);
    }
  }

  /** One step more of a response: it goes on being one, and balances. */
  lemma StepBalances(coeffs: seq<real>, inputs: seq<seq<real>>, outputs: seq<seq<real>>, x: seq<real>, width: nat)
    requires |coeffs| >= 2 && |coeffs| % 2 == 0 && Lanes(inputs, width) && |x| == width
    requires outputs == Response(coeffs, inputs, width)
    ensures Lanes(inputs + [x], width)
    ensures outputs + [Next(coeffs, inputs, outputs, x)] == Response(coeffs, inputs + [x], width)
    ensures AllBalanced(coeffs, inputs + [x], outputs + [Next(coeffs, inputs, outputs, x)], |inputs|, width)
  {
    hide Next, AllBalanced, Response;
    ResponseNext(coeffs, inputs, x, width);
    AllLanesBalance(coeffs, inputs + [x], width, |inputs|);
  }

  lemma TakesLanes(inputs: seq<seq<real>>, outputs: seq<seq<real>>, width: nat, n: nat)
    requires Lanes(inputs, width) && Lanes(outputs, width) && n < |inputs| == |outputs|
    ensures Lanes(inputs[..n], width) && Lanes(outputs[..n], width)
    ensures |inputs[n]| == |outputs[n]| == width
    ensures (forall v :: v in inputs[..n] ==> |v| == width) && forall v :: v in outputs[..n] ==> |v| == width
  {
    assert inputs[n] in inputs && outputs[n] in outputs;
  }

  /** The sum over lags is the weighted sum without its first term. */
  lemma {:induction false} SumIsWeighted(coeffs: seq<real>, parity: nat, history: seq<seq<real>>, width: nat, n: nat,
                                         i: nat, k: nat)
    requires parity < 2 && 2 * (k + 1) <= |coeffs| && Lanes(history, width) && n < |history| && i < width
    ensures forall v :: v in history[..n] ==> i < |v|
    ensures |history[n]| == width
    ensures Weighted(if parity == 0 then Bs(coeffs) else As(coeffs), history, n, i, k + 1)
         == Times(if parity == 0 then coeffs[0] else 1.0, history[n][i]) + Sum(coeffs, parity, history[..n], i, k)
  {
    hide Times, Bs, As;
    WeightAt(coeffs, parity, k);
    var weights := if parity == 0 then Bs(coeffs) else As(coeffs);
    TakesLanes(history, history, width, n);
    if k == 0 {
      assert Weighted(weights, history, n, i, 0) == 0.0;
    } else {
      SumIsWeighted(coeffs, parity, history, width, n, i, k - 1);
      DelayedIsBefore(history, width, n, i, k);
    }
  }

  lemma WeightAt(coeffs: seq<real>, parity: nat, k: nat)
    requires parity < 2 && 2 * (k + 1) <= |coeffs|
    ensures var weights := if parity == 0 then Bs(coeffs) else As(coeffs);
            weights[k] == (if k > 0 then coeffs[2 * k + parity] else if parity == 0 then coeffs[0] else 1.0)
  {
  }

  lemma DelayedIsBefore(history: seq<seq<real>>, width: nat, n: nat, i: nat, k: nat)
    requires Lanes(history, width) && n < |history| && i < width && k > 0
    ensures (forall v :: v in history[..n] ==> i < |v|) && Delayed(history[..n], k, i) == Before(history, n, k, i)
  {
    TakesLanes(history, history, width, n);
    if k <= n {
      assert history[n - k] in history && history[..n][n - k] == history[n - k];
    }
  }

  ghost function Power(x: real, n: nat): real {
    if n == 0 then 1.0 else x * Power(x, n - 1)
  }

  /** One lane: an impulse. */
  ghost function Impulse(n: nat): seq<seq<real>> {
    seq(n, k => [if k == 0 then 1.0 else 0.0])
  }

  /** For one lag and no delayed input the impulse response is 1, -a_1, (-a_1)^2, ... */
  lemma {:induction false} ImpulseResponse(coeffs: seq<real>, length: nat, n: nat)
    requires |coeffs| == 4 && coeffs[0] == 1.0 && coeffs[2] == 0.0 && n < length
    ensures Lanes(Impulse(length), 1) && |Response(coeffs, Impulse(length), 1)[n]| == 1
    ensures Response(coeffs, Impulse(length), 1)[n][0] == Power(-coeffs[3], n)
  {
    var x := Impulse(length);
    var y := Response(coeffs, x, 1);
    assert y[n] in y;
    ResponseBalances(coeffs, x, 1, n, 0);
    hide Response, Lanes;
    TwoTerms(As(coeffs), y, n, 0);
    TwoTerms(Bs(coeffs), x, n, 0);
    if n > 0 {
      ImpulseResponse(coeffs, length, n - 1);
    }
  }

  lemma TwoTerms(weights: seq<real>, history: seq<seq<real>>, n: nat, i: nat)
    requires |weights| == 2 && n < |history|
    ensures Weighted(weights, history, n, i, 2)
         == weights[0] * Lane(history, n, i) + weights[1] * Before(history, n, 1, i)
  {
    assert Weighted(weights, history, n, i, 0) == 0.0;
    assert Weighted(weights, history, n, i, 1) == weights[0] * Lane(history, n, i);
  }

  /** The vector-wise sum of two histories. */
  ghost predicate IsSum(total: seq<seq<real>>, us: seq<seq<real>>, vs: seq<seq<real>>, width: nat) {
    && Lanes(total, width) && Lanes(us, width) && Lanes(vs, width)
    && |total| == |us| == |vs|
    && forall n, i :: 0 <= n < |total| && 0 <= i < width ==> Lane(total, n, i) == Lane(us, n, i) + Lane(vs, n, i)
  }

  lemma DelayedAdds(total: seq<seq<real>>, us: seq<seq<real>>, vs: seq<seq<real>>, width: nat, k: nat, i: nat)
    requires IsSum(total, us, vs, width) && i < width && k > 0
    ensures Delayed(total, k, i) == Delayed(us, k, i) + Delayed(vs, k, i)
  {
    if k <= |total| {
      var n := |total| - k;
      assert total[n] in total && us[n] in us && vs[n] in vs;
      assert Lane(total, n, i) == Lane(us, n, i) + Lane(vs, n, i);
    }
  }

  lemma {:induction false} SumAdds(coeffs: seq<real>, parity: nat, total: seq<seq<real>>, us: seq<seq<real>>,
                                   vs: seq<seq<real>>, width: nat, i: nat, k: nat)
    requires IsSum(total, us, vs, width) && i < width && parity < 2 && 2 * (k + 1) <= |coeffs|
    ensures Sum(coeffs, parity, total, i, k) == Sum(coeffs, parity, us, i, k) + Sum(coeffs, parity, vs, i, k)
  {
    hide Times, IsSum, Delayed;
    SumIsOver(total, us, vs, width, i);
    if k > 0 {
      SumAdds(coeffs, parity, total, us, vs, width, i, k - 1);
      DelayedAdds(total, us, vs, width, k, i);
      Distribute(coeffs[2 * k + parity], Delayed(us, k, i), Delayed(vs, k, i));
    }
  }

  lemma SumIsOver(total: seq<seq<real>>, us: seq<seq<real>>, vs: seq<seq<real>>, width: nat, i: nat)
    requires IsSum(total, us, vs, width) && i < width
    ensures (forall v :: v in total ==> i < |v|) && (forall v :: v in us ==> i < |v|) && forall v :: v in vs ==> i < |v|
  {
  }

  /** Superposition: the response to a sum of two inputs is the sum of the two responses. */
  lemma {:induction false} ResponseIsLinear(coeffs: seq<real>, total: seq<seq<real>>, us: seq<seq<real>>,
                                            vs: seq<seq<real>>, width: nat)
    requires |coeffs| >= 2 && |coeffs| % 2 == 0 && IsSum(total, us, vs, width)
    ensures IsSum(Response(coeffs, total, width), Response(coeffs, us, width), Response(coeffs, vs, width), width)
  {
    if total != [] {
      hide Next;
      var n := |total| - 1;
      TakeSum(total, us, vs, width, n);
      ResponseIsLinear(coeffs, total[..n], us[..n], vs[..n], width);
      var bt, bu, bv := Response(coeffs, total[..n], width), Response(coeffs, us[..n], width),
        Response(coeffs, vs[..n], width);
      hide IsSum;
      NextAdds(coeffs, total[..n], us[..n], vs[..n], bt, bu, bv, total[n], us[n], vs[n], width);
      Appended(bt, bu, bv, Next(coeffs, total[..n], bt, total[n]), Next(coeffs, us[..n], bu, us[n]),
               Next(coeffs, vs[..n], bv, vs[n]), width);
    }
  }

  lemma TakeSum(total: seq<seq<real>>, us: seq<seq<real>>, vs: seq<seq<real>>, width: nat, n: nat)
    requires IsSum(total, us, vs, width) && n < |total|
    ensures IsSum(total[..n], us[..n], vs[..n], width)
    ensures |total[n]| == |us[n]| == |vs[n]| == width
    ensures forall i :: 0 <= i < width ==> total[n][i] == us[n][i] + vs[n][i]
  {
    assert total[n] in total && us[n] in us && vs[n] in vs;
    forall i | 0 <= i < width ensures total[n][i] == us[n][i] + vs[n][i] {
      SumHasLane(total, us, vs, width, n, i);
    }
    forall m, i | 0 <= m < n && 0 <= i < width
      ensures Lane(total[..n], m, i) == Lane(us[..n], m, i) + Lane(vs[..n], m, i)
    {
      SumHasLane(total, us, vs, width, m, i);
    }
  }

  lemma NextAdds(coeffs: seq<real>, ins: seq<seq<real>>, inu: seq<seq<real>>, inv: seq<seq<real>>,
                 outs: seq<seq<real>>, outu: seq<seq<real>>, outv: seq<seq<real>>,
                 x: seq<real>, u: seq<real>, v: seq<real>, width: nat)
    requires |coeffs| >= 2 && |coeffs| % 2 == 0 && |x| == |u| == |v| == width
    requires IsSum(ins, inu, inv, width) && IsSum(outs, outu, outv, width)
    requires forall i :: 0 <= i < width ==> x[i] == u[i] + v[i]
    ensures Lanes(ins, width) && Lanes(inu, width) && Lanes(inv, width)
    ensures Lanes(outs, width) && Lanes(outu, width) && Lanes(outv, width)
    ensures forall i :: 0 <= i < width ==>
              Next(coeffs, ins, outs, x)[i] == Next(coeffs, inu, outu, u)[i] + Next(coeffs, inv, outv, v)[i]
  {
    forall i | 0 <= i < width
      ensures Next(coeffs, ins, outs, x)[i] == Next(coeffs, inu, outu, u)[i] + Next(coeffs, inv, outv, v)[i]
    {
      hide IsSum, Times, Sum;
      SumAdds(coeffs, 0, ins, inu, inv, width, i, Lags(coeffs));
      SumAdds(coeffs, 1, outs, outu, outv, width, i, Lags(coeffs));
      Distribute(coeffs[0], u[i], v[i]);
    }
  }

  lemma SumHasLane(total: seq<seq<real>>, us: seq<seq<real>>, vs: seq<seq<real>>, width: nat, n: nat, i: nat)
    requires IsSum(total, us, vs, width) && n < |total| && i < width
    ensures n < |us| && n < |vs| && Lane(total, n, i) == Lane(us, n, i) + Lane(vs, n, i)
  {
  }

  lemma Appended(bt: seq<seq<real>>, bu: seq<seq<real>>, bv: seq<seq<real>>, yt: seq<real>, yu: seq<real>,
                 yv: seq<real>, width: nat)
    requires IsSum(bt, bu, bv, width) && |yt| == |yu| == |yv| == width
    requires forall i :: 0 <= i < width ==> yt[i] == yu[i] + yv[i]
    ensures IsSum(bt + [yt], bu + [yu], bv + [yv], width)
  {
    forall n, i | 0 <= n < |bt| + 1 && 0 <= i < width
      ensures Lane(bt + [yt], n, i) == Lane(bu + [yu], n, i) + Lane(bv + [yv], n, i)
    {
      if n < |bt| {
        assert Lane(bt, n, i) == Lane(bu, n, i) + Lane(bv, n, i);
      }
    }
  }

  // ------------------------------------------------------------------------------------ rolling queues

  /** The slot k-1 places behind the pointer. */
  ghost function Slot(pointer: nat, k: nat, lags: nat): nat
    requires 1 <= k <= lags && pointer < lags
    ensures Slot(pointer, k, lags) < lags
  {
    if k - 1 <= pointer then pointer - (k - 1) else pointer + lags - (k - 1)
  }

  lemma SlotIsModular(pointer: nat, k: nat, lags: nat)
    requires 1 <= k <= lags && pointer < lags
    ensures Slot(pointer, k, lags) == (pointer - (k - 1)) % lags
  {
  }

  lemma IndexInQueue(slot: nat, lags: nat, width: nat, i: nat)
    requires slot < lags && i < width
    ensures slot * width + i < lags * width
  {
    assert (slot + 1) * width <= lags * width;
  }

  lemma IndicesDiffer(slot: nat, other: nat, width: nat, i: nat, j: nat)
    requires i < width && j < width && slot != other
    ensures slot * width + i != other * width + j
  {
    if slot < other {
      assert (slot + 1) * width <= other * width;
    } else {
      assert (other + 1) * width <= slot * width;
    }
  }

  /** Lane `i` of a slot, where the queue has it. */
  ghost function At(queue: seq<real>, slot: nat, width: nat, i: nat): real {
    if slot * width + i < |queue| then queue[slot * width + i] else 0.0
  }

  /** The slot k-1 places behind the pointer holds the vector of k steps ago. */
  ghost predicate Holds(queue: seq<real>, pointer: nat, lags: nat, width: nat, history: seq<seq<real>>) {
    && |queue| == lags * width && Lanes(history, width)
    && (lags > 0 ==> pointer < lags)
    && forall k, i :: 1 <= k <= lags && 0 <= i < width && pointer < lags ==>
         At(queue, Slot(pointer, k, lags), width, i) == Delayed(history, k, i)
  }

  lemma SlotHolds(queue: seq<real>, pointer: nat, lags: nat, width: nat, history: seq<seq<real>>, k: nat, i: nat)
    requires Holds(queue, pointer, lags, width, history) && 1 <= k <= lags && i < width
    ensures pointer < lags && Lanes(history, width)
    ensures At(queue, Slot(pointer, k, lags), width, i) == Delayed(history, k, i)
  {
  }

  /** The pointer moves on by one, and the new vector goes where it points. */
  ghost function NextPointer(pointer: nat, lags: nat): nat {
    if pointer + 1 == lags then 0 else pointer + 1
  }

  /** Writing one lane of one slot changes no other lane and no other slot. */
  lemma Update(queue: seq<real>, slot: nat, lags: nat, width: nat, i: nat, x: real)
    requires |queue| == lags * width && slot < lags && i < width
    ensures slot * width + i < |queue|
    ensures At(queue[slot * width + i := x], slot, width, i) == x
    ensures forall s, j :: 0 <= s < lags && 0 <= j < width && (s != slot || j != i) ==>
              At(queue[slot * width + i := x], s, width, j) == At(queue, s, width, j)
  {
    IndexInQueue(slot, lags, width, i);
    forall s, j | 0 <= s < lags && 0 <= j < width && (s != slot || j != i)
      ensures At(queue[slot * width + i := x], s, width, j) == At(queue, s, width, j)
    {
      if s != slot {
        IndicesDiffer(s, slot, width, j, i);
      }
    }
  }

  /** A queue on the way: the first lanes of the slot are written, the other slots are as they were. */
  ghost predicate Rolling(queue: seq<real>, after: seq<real>, slot: nat, lags: nat, width: nat, v: seq<real>,
                          done: nat)
  {
    && done <= width == |v| && |after| == |queue| == lags * width
    && (forall i :: 0 <= i < done ==> At(after, slot, width, i) == v[i])
    && (forall s, i :: 0 <= s < lags && s != slot && 0 <= i < width ==>
          At(after, s, width, i) == At(queue, s, width, i))
  }

  lemma RollingNext(queue: seq<real>, after: seq<real>, slot: nat, lags: nat, width: nat, v: seq<real>, i: nat)
    requires Rolling(queue, after, slot, lags, width, v, i) && slot < lags && i < width
    ensures slot * width + i < |after|
    ensures Rolling(queue, after[slot * width + i := v[i]], slot, lags, width, v, i + 1)
  {
    hide At;
    Update(after, slot, lags, width, i, v[i]);
  }

  lemma QueueRolls(queue: seq<real>, after: seq<real>, pointer: nat, lags: nat, width: nat,
                   history: seq<seq<real>>, v: seq<real>)
    requires Holds(queue, pointer, lags, width, history) && lags > 0
    requires Rolling(queue, after, NextPointer(pointer, lags), lags, width, v, width)
    ensures Holds(after, NextPointer(pointer, lags), lags, width, history + [v])
  {
    hide At;
    var next := NextPointer(pointer, lags);
    var longer := history + [v];
    forall k, i | 1 <= k <= lags && 0 <= i < width
      ensures At(after, Slot(next, k, lags), width, i) == Delayed(longer, k, i)
    {
      if k == 1 {
        assert Slot(next, k, lags) == next;
      } else {
        assert Slot(next, k, lags) == Slot(pointer, k - 1, lags) != next;
        assert Delayed(longer, k, i) == Delayed(history, k - 1, i);
      }
    }
  }

  /** The part of the workspace that starts at `at`. */
  ghost function Region(work: seq<real>, at: nat, size: nat): seq<real>
    requires at + size <= |work|
    ensures |Region(work, at, size)| == size
  {
    work[at..at + size]
  }

  function Lags(coeffs: seq<real>): nat
    requires |coeffs| >= 2
  {
    |coeffs| / 2 - 1
  }

  lemma ZerosHold(work: seq<real>, at: nat, lags: nat, width: nat)
    requires at + lags * width <= |work| && forall k :: 0 <= k < |work| ==> work[k] == 0.0
    ensures Holds(Region(work, at, lags * width), 0, lags, width, [])
  {
    var queue := Region(work, at, lags * width);
    assert forall k :: 0 <= k < |queue| ==> queue[k] == 0.0;
    hide Region;
    forall s: nat, i: nat ensures At(queue, s, width, i) == 0.0 { }
    hide At;
  }

  class RollingFilter {
    const coeffs: seq<real>
    const lags: nat
    const width: nat
    const inputsAt: nat
    const outputsAt: nat
    var queuePointer: nat
    ghost var inputs: seq<seq<real>>
    ghost var outputs: seq<seq<real>>

    /** What never changes: the two queues lie apart in the workspace. */
    ghost predicate Placed(size: nat) {
      && |coeffs| == 2 * (lags + 1)
      && inputsAt + lags * width <= outputsAt && outputsAt + lags * width <= size
    }

    /** The queues hold the histories, and the histories satisfy the difference equation throughout. */
    ghost predicate Valid(work: seq<real>)
      reads this
    {
      && BothHold(work, inputs, outputs)
      && outputs == Response(coeffs, inputs, width)
    }

    constructor (coeffs: seq<real>, width: nat, at: nat, ghost work: seq<real>)
      requires |coeffs| >= 2 && |coeffs| % 2 == 0
      requires at + 2 * QueueSize(coeffs, width) <= |work|
      requires forall k :: 0 <= k < |work| ==> work[k] == 0.0
      ensures Valid(work) && inputs == []
      ensures this.coeffs == coeffs && this.width == width && lags == Lags(coeffs)
      ensures inputsAt == at && outputsAt + lags * width == at + 2 * QueueSize(coeffs, width)
    {
      this.coeffs := coeffs;
      this.width := width;
      lags := Lags(coeffs);
      inputsAt := at;
      outputsAt := at + Lags(coeffs) * width;
      queuePointer := 0;
      inputs := [];
      outputs := [];
      new;
      hide Holds, Region;
      ZerosHold(work, inputsAt, lags, width);
      ZerosHold(work, outputsAt, lags, width);
    }

    /** Adds to every lane the sum over the lags of coefficient times delayed value, from one of the queues. */
    method AddTerms(work: array<real>, at: nat, parity: nat, sign: real, ghost history: seq<seq<real>>,
                    output: array<real>)
      requires |coeffs| == 2 * (lags + 1) && parity < 2 && output != work && output.Length == width
      requires at + lags * width <= work.Length
      requires Holds(Region(work[..], at, lags * width), queuePointer, lags, width, history)
      modifies output
      ensures forall i :: 0 <= i < width ==>
                output[i] == old(output[i]) + Times(sign, Sum(coeffs, parity, history, i, lags))
    {
      ghost var queue := Region(work[..], at, lags * width);
      ghost var before := output[..];
      var pointer := queuePointer;
      var b := 1;
      Distribute(sign, 0.0, 0.0);
      assert AddedTo(output[..], before, parity, sign, history, 0);
      hide AddedTo, Times, Sum, At;
      while b <= lags
        invariant 1 <= b <= lags + 1
        invariant b <= lags ==> pointer < lags && pointer == Slot(queuePointer, b, lags)
        invariant AddedTo(output[..], before, parity, sign, history, b - 1)
      {
        ghost var so := output[..];
        AddLag(work, at, pointer, coeffs[b * 2 + parity], sign, queue, output);
        OneMoreLag(output[..], so, before, parity, sign, history, queue, b);
        pointer := if pointer > 0 then pointer - 1 else lags - 1;
        b := b + 1;
      }
      AddedAll(output[..], before, parity, sign, history);
    }

    /** The sums over the first `b` lags have been added. */
    ghost predicate AddedTo(now: seq<real>, before: seq<real>, parity: nat, sign: real, history: seq<seq<real>>,
                            b: nat)
    {
      && |now| == |before| == width && parity < 2 && Lanes(history, width) && 2 * (b + 1) <= |coeffs|
      && forall i :: 0 <= i < width ==> now[i] == before[i] + Times(sign, Sum(coeffs, parity, history, i, b))
    }

    lemma OneMoreLag(now: seq<real>, so: seq<real>, before: seq<real>, parity: nat, sign: real,
                     history: seq<seq<real>>, queue: seq<real>, b: nat)
      requires |coeffs| == 2 * (lags + 1) && 1 <= b <= lags
      requires AddedTo(so, before, parity, sign, history, b - 1)
      requires Holds(queue, queuePointer, lags, width, history)
      requires |now| == width
      requires forall i :: 0 <= i < width ==>
                 now[i] == so[i] + Times(sign, Times(coeffs[2 * b + parity], At(queue, Slot(queuePointer, b, lags), width, i)))
      ensures AddedTo(now, before, parity, sign, history, b)
    {
      hide Times, Holds, At;
      forall i | 0 <= i < width ensures now[i] == before[i] + Times(sign, Sum(coeffs, parity, history, i, b))
      {
        SlotHolds(queue, queuePointer, lags, width, history, b, i);
        Distribute(sign, Sum(coeffs, parity, history, i, b - 1), Times(coeffs[2 * b + parity], Delayed(history, b, i)));
      }
    }

    lemma AddedAll(now: seq<real>, before: seq<real>, parity: nat, sign: real, history: seq<seq<real>>)
      requires |coeffs| == 2 * (lags + 1) && AddedTo(now, before, parity, sign, history, lags)
      ensures forall i :: 0 <= i < width ==>
                now[i] == before[i] + Times(sign, Sum(coeffs, parity, history, i, lags))
    {
    }

    /** One lag of a sum, lane by lane. */
    method AddLag(work: array<real>, at: nat, slot: nat, coeff: real, sign: real, ghost queue: seq<real>,
                  output: array<real>)
      requires slot < lags && output != work && output.Length == width
      requires at + lags * width <= work.Length && queue == Region(work[..], at, lags * width)
      modifies output
      ensures forall i :: 0 <= i < width ==> output[i] == old(output[i]) + Times(sign, Times(coeff, At(queue, slot, width, i)))
    {
      var i := 0;
      while i < width
        invariant 0 <= i <= width
        invariant forall j :: 0 <= j < i ==> output[j] == old(output[j]) + Times(sign, Times(coeff, At(queue, slot, width, j)))
        invariant forall j :: i <= j < width ==> output[j] == old(output[j])
      {
        IndexInQueue(slot, lags, width, i);
        assert work[at + slot * width + i] == At(queue, slot, width, i);
        output[i] := output[i] + sign * (coeff * work[at + slot * width + i]);
        i := i + 1;
      }
    }

    /** Copies a vector to where the advanced pointer points, in one of the queues. */
    method RollQueue(work: array<real>, at: nat, ghost from: nat, next: nat, v: array<real>,
                     ghost history: seq<seq<real>>)
      requires lags > 0 && next == NextPointer(from, lags) && v != work && v.Length == width
      requires at + lags * width <= work.Length
      requires Holds(Region(work[..], at, lags * width), from, lags, width, history)
      modifies work
      ensures Holds(Region(work[..], at, lags * width), next, lags, width, history + [v[..]])
      ensures forall k :: 0 <= k < work.Length && !(at <= k < at + lags * width) ==> work[k] == old(work[k])
    {
      assert next < lags;
      ghost var size := lags * width;
      ghost var queue := Region(work[..], at, size);
      hide At, Region, Holds;
      assert Rolling(queue, queue, next, lags, width, v[..], 0);
      hide Rolling;
      var i := 0;
      while i < width
        invariant 0 <= i <= width
        invariant Rolling(queue, Region(work[..], at, size), next, lags, width, v[..], i)
        invariant forall k :: 0 <= k < work.Length && !(at <= k < at + size) ==> work[k] == old(work[k])
      {
        IndexInQueue(next, lags, width, i);
        ghost var before := work[..];
        work[at + next * width + i] := v[i];
        assert work[..] == before[at + (next * width + i) := v[i]];
        RegionUpdate(before, at, size, next * width + i, v[i]);
        RollingNext(queue, Region(before, at, size), next, lags, width, v[..], i);
        i := i + 1;
      }
      QueueRolls(queue, Region(work[..], at, size), from, lags, width, history, v[..]);
    }

    /** The output vector, lane by lane: b_0 times the input, plus the other b terms, minus the a terms. */
    method Compute(work: array<real>, input: array<real>) returns (output: array<real>)
      requires Valid(work[..]) && input.Length == width
      ensures fresh(output) && output.Length == width
      ensures output[..] == Next(coeffs, inputs, outputs, input[..])
    {
      output := new real[width](_ => 0.0);
      var i := 0;
      while i < width
        invariant 0 <= i <= width
        invariant forall j :: 0 <= j < i ==> output[j] == Times(coeffs[0], input[j])
        invariant forall j :: i <= j < width ==> output[j] == 0.0
      {
        output[i] := output[i] + coeffs[0] * input[i];
        i := i + 1;
      }
      hide Region, Sum, Holds, At, Times, Response;
      AddTerms(work, inputsAt, 0, 1.0, inputs, output);
      AddTerms(work, outputsAt, 1, -1.0, outputs, output);
      forall j | 0 <= j < width ensures output[j] == Equation(coeffs, inputs, outputs, input[j], j) {
        TimesUnit(Sum(coeffs, 0, inputs, j, lags));
        TimesUnit(Sum(coeffs, 1, outputs, j, lags));
      }
    }

    /** Both queues hold their histories. */
    ghost predicate BothHold(work: seq<real>, inputs: seq<seq<real>>, outputs: seq<seq<real>>)
      reads this
    {
      && Placed(|work|)
      && Holds(Region(work, inputsAt, lags * width), queuePointer, lags, width, inputs)
      && Holds(Region(work, outputsAt, lags * width), queuePointer, lags, width, outputs)
    }

    lemma StaysValid(work: seq<real>, after: seq<real>)
      requires Valid(work) && |after| == |work|
      requires forall k :: inputsAt <= k < outputsAt + lags * width && k < |work| ==> after[k] == work[k]
      ensures Valid(after)
      ensures outputsAt + lags * width <= |work|
    {
      hide Holds, Region, Response;
      SameRegion(work, after, inputsAt, lags * width);
      SameRegion(work, after, outputsAt, lags * width);
    }

    /** If there are any lags, both queues roll. */
    method Roll(work: array<real>, input: array<real>, output: array<real>)
      requires BothHold(work[..], inputs, outputs)
      requires input.Length == output.Length == width && input != work && output != work
      modifies `queuePointer, work
      ensures BothHold(work[..], inputs + [input[..]], outputs + [output[..]])
      ensures forall k :: 0 <= k < work.Length && !(inputsAt <= k < outputsAt + lags * width) ==>
                work[k] == old(work[k])
    {
      hide Holds, Region;
      ghost var from, w0, size := queuePointer, work[..], lags * width;
      if lags > 0 {
        queuePointer := queuePointer + 1;
        if queuePointer == lags {
          queuePointer := 0;
        }
        RollQueue(work, inputsAt, from, queuePointer, input, inputs);
        ghost var w1 := work[..];
        SameRegion(w0, w1, outputsAt, size);
        RollQueue(work, outputsAt, from, queuePointer, output, outputs);
        SameRegion(w1, work[..], inputsAt, size);
      } else {
        NoLags(Region(w0, inputsAt, 0), from, width, inputs, input[..]);
        NoLags(Region(w0, outputsAt, 0), from, width, outputs, output[..]);
      }
    }

    lemma HistoryFits(work: seq<real>)
      requires Valid(work)
      ensures |coeffs| >= 2 && |coeffs| % 2 == 0 && Lanes(inputs, width)
    {
    }

    /** One step: the output from the difference equation, then the queues roll. */
    method Step(work: array<real>, input: array<real>) returns (output: array<real>)
      requires Valid(work[..]) && input.Length == width && input != work
      modifies this, work
      ensures Valid(work[..]) && fresh(output) && output.Length == width
      ensures inputs == old(inputs) + [old(input[..])] && outputs == old(outputs) + [output[..]]
      ensures output[..] == Next(coeffs, old(inputs), old(outputs), old(input[..]))
      ensures AllBalanced(coeffs, inputs, outputs, |old(inputs)|, width)
      ensures forall k :: 0 <= k < work.Length && !(inputsAt <= k < outputsAt + lags * width) ==>
                work[k] == old(work[k])
    {
      hide Holds, Region, Next, Response, AllBalanced, Lanes;
      HistoryFits(work[..]);
      output := Compute(work, input);
      StepBalances(coeffs, inputs, outputs, input[..], width);
      Roll(work, input, output);
      inputs := inputs + [input[..]];
      outputs := outputs + [output[..]];
    }
  }

  lemma RegionUpdate(work: seq<real>, at: nat, size: nat, k: nat, x: real)
    requires at + size <= |work| && k < size
    ensures Region(work[at + k := x], at, size) == Region(work, at, size)[k := x]
  {
  }

  lemma SameRegion(work: seq<real>, after: seq<real>, at: nat, size: nat)
    requires |work| == |after| && at + size <= |work|
    requires forall k :: at <= k < at + size ==> work[k] == after[k]
    ensures Region(work, at, size) == Region(after, at, size)
  {
  }

  lemma NoLags(queue: seq<real>, pointer: nat, width: nat, history: seq<seq<real>>, v: seq<real>)
    requires Holds(queue, pointer, 0, width, history) && |v| == width
    ensures Holds(queue, pointer, 0, width, history + [v])
  {
  }

  lemma TimesUnit(x: real)
    ensures Times(1.0, x) == x && Times(-1.0, x) == -x
  {
  }

  lemma Distribute(sign: real, x: real, y: real)
    ensures Times(sign, x) + Times(sign, y) == Times(sign, x + y)
    ensures Times(sign, 0.0) == 0.0
  {
  }

  // ------------------------------------------------------------------------------------- all filters

  /** Space in the workspace for filters `f` onwards. */
  function Space(coeffs: seq<seq<real>>, width: nat): nat
    requires forall c :: c in coeffs ==> |c| >= 2
  {
    if coeffs == [] then 0
    else
      assert coeffs[0] in coeffs;
      2 * QueueSize(coeffs[0], width) + Space(coeffs[1..], width)
  }

  function QueueSize(coeffs: seq<real>, width: nat): nat
    requires |coeffs| >= 2
  {
    Lags(coeffs) * width
  }

  lemma SpaceNext(coeffs: seq<seq<real>>, width: nat, f: nat)
    requires (forall c :: c in coeffs ==> |c| >= 2) && f < |coeffs|
    ensures Space(coeffs[f..], width) == 2 * QueueSize(coeffs[f], width) + Space(coeffs[f + 1..], width)
  {
    hide QueueSize;
    assert coeffs[f..][1..] == coeffs[f + 1..];
  }

  /** The shape that the state is validated for: two rows and at least one column per filter. */
  predicate WellShaped(coeffs: seq<seq<real>>) {
    forall c :: c in coeffs ==> |c| >= 2 && |c| % 2 == 0
  }

  class FilterBank {
    const width: nat
    const work: array<real>
    const filters: seq<RollingFilter>

    /** Every filter is valid, and their stretches of the workspace follow each other. */
    ghost predicate Valid()
      reads work, filters
    {
      && (forall f :: 0 <= f < |filters| ==> filters[f].Valid(work[..]) && filters[f].width == width)
      && (forall f, g :: 0 <= f < g < |filters| ==>
            filters[f] != filters[g] && filters[f].outputsAt + filters[f].lags * width <= filters[g].inputsAt)
    }

    constructor (coeffs: seq<seq<real>>, width: nat)
      requires WellShaped(coeffs)
      ensures Valid() && this.width == width && |filters| == |coeffs|
      ensures fresh(work) && forall f :: f in filters ==> fresh(f)
      ensures forall f :: 0 <= f < |filters| ==> filters[f].coeffs == coeffs[f] && filters[f].inputs == []
    {
      hide RollingFilter.Valid, Space, QueueSize;
      assert coeffs[0..] == coeffs;
      var workspace := new real[Space(coeffs, width)](_ => 0.0);
      var all: seq<RollingFilter> := [];
      var size: nat := 0;
      while |all| < |coeffs|
        invariant |all| <= |coeffs|
        invariant size + Space(coeffs[|all|..], width) == workspace.Length
        invariant forall k :: 0 <= k < workspace.Length ==> workspace[k] == 0.0
        invariant forall f :: 0 <= f < |all| ==>
                    && fresh(all[f]) && all[f].Valid(workspace[..]) && all[f].width == width
                    && all[f].coeffs == coeffs[f] && all[f].inputs == []
                    && all[f].outputsAt + all[f].lags * width <= size
        invariant forall f, g :: 0 <= f < g < |all| ==>
                    all[f] != all[g] && all[f].outputsAt + all[f].lags * width <= all[g].inputsAt
      {
        SpaceNext(coeffs, width, |all|);
        assert coeffs[|all|] in coeffs;
        var filter := new RollingFilter(coeffs[|all|], width, size, workspace[..]);
        size := size + 2 * QueueSize(coeffs[|all|], width);
        all := all + [filter];
      }
      this.width := width;
      work := workspace;
      filters := all;
    }

    /** One step of every filter on the same input. */
    method Step(input: array<real>) returns (outputs: seq<array<real>>)
      requires Valid() && input.Length == width && input != work
      modifies work, filters
      ensures Valid() && |outputs| == |filters|
      ensures forall f :: 0 <= f < |filters| ==>
                && outputs[f].Length == width
                && filters[f].inputs == old(filters[f].inputs) + [old(input[..])]
                && filters[f].outputs == old(filters[f].outputs) + [outputs[f][..]]
    {
      hide RollingFilter.Valid, Next, Lanes;
      outputs := [];
      while |outputs| < |filters|
        invariant |outputs| <= |filters|
        invariant Valid()
        invariant forall f :: 0 <= f < |outputs| ==>
                    && fresh(outputs[f]) && outputs[f].Length == width
                    && filters[f].inputs == old(filters[f].inputs) + [old(input[..])]
                    && filters[f].outputs == old(filters[f].outputs) + [outputs[f][..]]
        invariant forall f :: |outputs| <= f < |filters| ==>
                    filters[f].inputs == old(filters[f].inputs) && filters[f].outputs == old(filters[f].outputs)
      {
        var f := |outputs|;
        ghost var before := work[..];
        var output := filters[f].Step(work, input);
        forall g | 0 <= g < |filters| && g != f ensures filters[g].Valid(work[..]) {
          filters[g].StaysValid(before, work[..]);
        }
        outputs := outputs + [output];
      }
    }
  }
}
