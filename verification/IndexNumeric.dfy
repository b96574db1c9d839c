/**
 * The index process: an odometer over index lists enumerates strided source offsets.
 *
 * Arrays are column-major, dimension 0 fastest. Index lists are one-based, as the user writes them. Counts and
 * offsets are unbounded here.
 */
module IndexNumeric {
  import opened NumericTypes

  /** The product of a list of sizes. */
  function Product(sizes: seq<nat>): nat {
    if sizes == [] then 1 else sizes[0] * Product(sizes[1..])
  }

  /** Dims::getNumberOfElements: no dimensions means no elements. */
  function NumberOfElements(dims: seq<nat>): nat {
    if dims == [] then 0 else Product(dims)
  }

  function Sizes(lists: seq<seq<nat>>): (sizes: seq<nat>)
    ensures |sizes| == |lists|
  {
    seq(|lists|, d requires 0 <= d < |lists| => |lists[d]|)
  }

  lemma SizesTail(lists: seq<seq<nat>>)
    requires lists != []
    ensures Sizes(lists)[0] == |lists[0]| && Sizes(lists)[1..] == Sizes(lists[1..])
  {
  }

  ghost predicate NoneEmpty(lists: seq<seq<nat>>) {
    forall d :: 0 <= d < |lists| ==> lists[d] != []
  }

  /** Every list selects from its dimension of the input, counting from 1. */
  ghost predicate InRange(lists: seq<seq<nat>>, dims: seq<nat>) {
    |lists| == |dims| && forall d, i :: 0 <= d < |lists| && 0 <= i < |lists[d]| ==> 1 <= lists[d][i] <= dims[d]
  }

  lemma Tails(lists: seq<seq<nat>>, dims: seq<nat>)
    requires lists != [] && NoneEmpty(lists)
    ensures NoneEmpty(lists[1..])
    ensures InRange(lists, dims) ==> InRange(lists[1..], dims[1..])
  {
    if InRange(lists, dims) {
      forall d, i | 0 <= d < |lists[1..]| && 0 <= i < |lists[1..][d]|
        ensures 1 <= lists[1..][d][i] <= dims[1..][d]
      {
        assert lists[1..][d] == lists[d + 1];
      }
    }
  }

  // --------------------------------------------------------------------------------------- mixed radix

  /** The number of an element in column-major order. */
  ghost function Linear(dims: seq<nat>, at: seq<nat>): nat
    requires |at| == |dims|
  {
    if dims == [] then 0 else at[0] + dims[0] * Linear(dims[1..], at[1..])
  }

  ghost predicate Within(dims: seq<nat>, at: seq<nat>) {
    |at| == |dims| && forall d :: 0 <= d < |dims| ==> at[d] < dims[d]
  }

  lemma {:induction false} LinearInside(dims: seq<nat>, at: seq<nat>)
    requires Within(dims, at)
    ensures Linear(dims, at) < Product(dims)
  {
    if dims != [] {
      LinearInside(dims[1..], at[1..]);
      Nested(dims[0], Product(dims[1..]), at[0], Linear(dims[1..], at[1..]));
    }
  }

  /** The mixed-radix digits of k, least significant first; the radix of digit d is the length of list d. */
  ghost function Digits(lists: seq<seq<nat>>, k: nat): (digits: seq<nat>)
    requires NoneEmpty(lists)
    ensures |digits| == |lists|
    ensures forall d :: 0 <= d < |lists| ==> digits[d] < |lists[d]|
    decreases |lists|
  {
    if lists == [] then []
    else
      [k % |lists[0]|] + Digits(lists[1..], k / |lists[0]|)
  }

  /** k is recovered from its digits: they are a position in column-major order, and k its number. */
  lemma {:induction false} DigitsOfNumber(lists: seq<seq<nat>>, k: nat)
    requires NoneEmpty(lists) && k < Product(Sizes(lists))
    ensures Linear(Sizes(lists), Digits(lists, k)) == k
    decreases |lists|
  {
    if lists != [] {
      var n := |lists[0]|;
      SizesTail(lists);
      Quotient(k, n, Product(Sizes(lists[1..])));
      DigitsOfNumber(lists[1..], k / n);
      assert Digits(lists, k)[1..] == Digits(lists[1..], k / n);
    }
  }

  /** And a position from its number. */
  lemma {:induction false} NumberOfDigits(lists: seq<seq<nat>>, at: seq<nat>)
    requires Within(Sizes(lists), at)
    ensures NoneEmpty(lists) && Digits(lists, Linear(Sizes(lists), at)) == at
    ensures Linear(Sizes(lists), at) < Product(Sizes(lists))
  {
    LinearInside(Sizes(lists), at);
    if lists != [] {
      var n, rest := |lists[0]|, Linear(Sizes(lists[1..]), at[1..]);
      SizesTail(lists);
      NumberOfDigits(lists[1..], at[1..]);
      assert forall d :: 0 < d < |lists| ==> lists[d] == lists[1..][d - 1];
      Unique(at[0] + n * rest, n, rest, at[0]);
      assert at == [at[0]] + at[1..];
    }
  }

  lemma Monotone(n: nat, x: nat, y: nat)
    ensures x <= y ==> n * x <= n * y
  {
    if x < y {
      assert n * y == n * x + n * (y - x);
    }
  }

  lemma Quotient(k: nat, n: nat, rest: nat)
    requires n > 0 && k < n * rest
    ensures k / n < rest && k == k % n + n * (k / n)
  {
    Monotone(n, rest, k / n);
  }

  /** The odometer's next position: carry while a digit overflows. */
  ghost function Successor(lists: seq<seq<nat>>, digits: seq<nat>): (next: seq<nat>)
    requires |digits| == |lists|
    ensures |next| == |lists|
  {
    if lists == [] then []
    else if digits[0] + 1 < |lists[0]| then [digits[0] + 1] + digits[1..]
    else [0] + Successor(lists[1..], digits[1..])
  }

  /** Every digit is at its last value, so that the next step wraps. */
  ghost predicate AllLast(lists: seq<seq<nat>>, digits: seq<nat>)
    requires |digits| == |lists|
  {
    forall d :: 0 <= d < |lists| ==> digits[d] + 1 >= |lists[d]|
  }

  lemma {:induction false} NextDigits(lists: seq<seq<nat>>, k: nat)
    requires NoneEmpty(lists)
    ensures Digits(lists, k + 1) == Successor(lists, Digits(lists, k))
    decreases |lists|
  {
    if lists != [] {
      var n := |lists[0]|;
      NextQuotient(k, n);
      assert Digits(lists, k)[1..] == Digits(lists[1..], k / n);
      NextDigits(lists[1..], k / n);
    }
  }

  lemma NextQuotient(k: nat, n: nat)
    requires n > 0
    ensures k % n + 1 < n ==> (k + 1) % n == k % n + 1 && (k + 1) / n == k / n
    ensures k % n + 1 >= n ==> (k + 1) % n == 0 && (k + 1) / n == k / n + 1
  {
    var q, r := k / n, k % n;
    assert k == q * n + r;
    if r + 1 < n {
      Unique(k + 1, n, q, r + 1);
    } else {
      assert (q + 1) * n == q * n + n;
      Unique(k + 1, n, q + 1, 0);
    }
  }

  lemma Unique(k: nat, n: nat, q: nat, r: nat)
    requires n > 0 && r < n && k == q * n + r
    ensures k / n == q && k % n == r
  {
    var q', r' := k / n, k % n;
    assert k == q' * n + r';
    Monotone(n, q' + 1, q);
    Monotone(n, q + 1, q');
  }

  /** The odometer is at its end exactly after the last combination. */
  lemma {:induction false} LastDigits(lists: seq<seq<nat>>, k: nat)
    requires NoneEmpty(lists) && k < Product(Sizes(lists))
    ensures AllLast(lists, Digits(lists, k)) <==> k + 1 == Product(Sizes(lists))
    decreases |lists|
  {
    if lists != [] {
      var n, rest := |lists[0]|, Product(Sizes(lists[1..]));
      SizesTail(lists);
      Quotient(k, n, rest);
      LastDigits(lists[1..], k / n);
      var digits := Digits(lists, k);
      assert digits[1..] == Digits(lists[1..], k / n);
      assert AllLast(lists, digits) <==> digits[0] + 1 >= n && AllLast(lists[1..], digits[1..]) by {
        if digits[0] + 1 >= n && AllLast(lists[1..], digits[1..]) {
          forall d | 0 <= d < |lists| ensures digits[d] + 1 >= |lists[d]| {
            if d > 0 {
              assert digits[1..][d - 1] + 1 >= |lists[1..][d - 1]|;
            }
          }
        }
        if AllLast(lists, digits) {
          forall d | 0 <= d < |lists[1..]| ensures digits[1..][d] + 1 >= |lists[1..][d]| {
            assert digits[d + 1] + 1 >= |lists[d + 1]|;
          }
        }
      }
      LastQuotient(k, n, rest);
    }
  }

  lemma LastQuotient(k: nat, n: nat, rest: nat)
    requires n > 0 && k < n * rest
    ensures k % n + 1 >= n && k / n + 1 == rest <==> k + 1 == n * rest
  {
    var q, r := k / n, k % n;
    assert k == q * n + r;
    Quotient(k, n, rest);
    assert (q + 1) * n == q * n + n;
    assert (q + 2) * n == (q + 1) * n + n;
    Monotone(n, q + 2, rest);
  }

  // ------------------------------------------------------------------------------------ strided offsets

  /** The source offset of a position: one-based list entries, made zero-based, times the strides of the input. */
  ghost function Offset(lists: seq<seq<nat>>, dims: seq<nat>, digits: seq<nat>): int
    requires |digits| == |lists| == |dims|
    requires forall d :: 0 <= d < |lists| ==> digits[d] < |lists[d]|
  {
    if lists == [] then 0
    else lists[0][digits[0]] - 1 + dims[0] * Offset(lists[1..], dims[1..], digits[1..])
  }

  lemma {:induction false} OffsetInside(lists: seq<seq<nat>>, dims: seq<nat>, digits: seq<nat>)
    requires |digits| == |lists| && InRange(lists, dims)
    requires forall d :: 0 <= d < |lists| ==> digits[d] < |lists[d]|
    ensures 0 <= Offset(lists, dims, digits) < Product(dims)
  {
    if lists != [] {
      assert InRange(lists[1..], dims[1..]) by {
        forall d, i | 0 <= d < |lists[1..]| && 0 <= i < |lists[1..][d]|
          ensures 1 <= lists[1..][d][i] <= dims[1..][d]
        {
          assert lists[1..][d] == lists[d + 1];
        }
      }
      OffsetInside(lists[1..], dims[1..], digits[1..]);
      var rest := Offset(lists[1..], dims[1..], digits[1..]);
      assert 1 <= lists[0][digits[0]] <= dims[0];
      Nested(dims[0], Product(dims[1..]), lists[0][digits[0]] - 1, rest);
    }
  }

  lemma Nested(n: nat, rest: nat, x: nat, p: nat)
    requires x < n && p < rest
    ensures 0 <= x + n * p < n * rest
  {
    Monotone(n, p + 1, rest);
    assert n * (p + 1) == n * p + n;
  }

  /** What a position selects: an index into the input, made zero-based. */
  ghost function Picked(lists: seq<seq<nat>>, at: seq<nat>): (index: seq<nat>)
    requires Within(Sizes(lists), at)
    requires forall d, i :: 0 <= d < |lists| && 0 <= i < |lists[d]| ==> 1 <= lists[d][i]
    ensures |index| == |lists|
  {
    seq(|lists|, d requires 0 <= d < |lists| => lists[d][at[d]] - 1)
  }

  /** The source offset is the column-major number of what the position selects. */
  lemma {:induction false} OffsetIsLinear(lists: seq<seq<nat>>, dims: seq<nat>, at: seq<nat>)
    requires InRange(lists, dims) && Within(Sizes(lists), at)
    ensures Within(dims, Picked(lists, at)) && Offset(lists, dims, at) == Linear(dims, Picked(lists, at))
  {
    if lists != [] {
      TailsInRange(lists, dims, at);
      OffsetIsLinear(lists[1..], dims[1..], at[1..]);
      assert Picked(lists, at)[1..] == Picked(lists[1..], at[1..]);
    }
  }

  lemma TailsInRange(lists: seq<seq<nat>>, dims: seq<nat>, at: seq<nat>)
    requires lists != [] && InRange(lists, dims) && Within(Sizes(lists), at)
    ensures InRange(lists[1..], dims[1..]) && Within(Sizes(lists[1..]), at[1..])
  {
    SizesTail(lists);
    assert forall d :: 0 <= d < |lists| - 1 ==> lists[1..][d] == lists[d + 1] && dims[1..][d] == dims[d + 1];
  }

  /** Entry k of the table of source offsets. */
  ghost function Source(lists: seq<seq<nat>>, dims: seq<nat>, k: nat): int
    requires NoneEmpty(lists) && |lists| == |dims|
  {
    Offset(lists, dims, Digits(lists, k))
  }

  /** The table holds the source offset of every combination, all inside the input. */
  ghost predicate Tabulated(lists: seq<seq<nat>>, dims: seq<nat>, src: seq<nat>) {
    && InRange(lists, dims) && |src| == Product(Sizes(lists)) && (src != [] ==> NoneEmpty(lists))
    && forall k :: 0 <= k < |src| ==> src[k] == Source(lists, dims, k) && src[k] < Product(dims)
  }

  /** No entry of any list occurs twice. */
  ghost predicate Distinct(lists: seq<seq<nat>>) {
    forall d, i, j :: 0 <= d < |lists| && 0 <= i < j < |lists[d]| ==> lists[d][i] != lists[d][j]
  }

  /** Lists without repetition select no element twice. */
  lemma {:induction false} OffsetsDistinct(lists: seq<seq<nat>>, dims: seq<nat>, digits: seq<nat>, others: seq<nat>)
    requires |digits| == |others| == |lists| && InRange(lists, dims) && Distinct(lists)
    requires forall d :: 0 <= d < |lists| ==> digits[d] < |lists[d]| && others[d] < |lists[d]|
    requires Offset(lists, dims, digits) == Offset(lists, dims, others)
    ensures digits == others
  {
    if lists != [] {
      assert InRange(lists[1..], dims[1..]) && Distinct(lists[1..]) by {
        forall d | 0 <= d < |lists[1..]| ensures lists[1..][d] == lists[d + 1] && dims[1..][d] == dims[d + 1] { }
      }
      var x, y := lists[0][digits[0]] - 1, lists[0][others[0]] - 1;
      var p, q := Offset(lists[1..], dims[1..], digits[1..]), Offset(lists[1..], dims[1..], others[1..]);
      OffsetInside(lists[1..], dims[1..], digits[1..]);
      OffsetInside(lists[1..], dims[1..], others[1..]);
      assert 0 <= x < dims[0] && 0 <= y < dims[0];
      SameSplit(dims[0], x, y, p, q);
      OffsetsDistinct(lists[1..], dims[1..], digits[1..], others[1..]);
      assert digits == [digits[0]] + digits[1..] && others == [others[0]] + others[1..];
    }
  }

  lemma SameSplit(n: nat, x: nat, y: nat, p: nat, q: nat)
    requires x < n && y < n && x + n * p == y + n * q
    ensures x == y && p == q
  {
    Monotone(n, p + 1, q);
    Monotone(n, q + 1, p);
  }

  lemma SourcesDistinct(lists: seq<seq<nat>>, dims: seq<nat>, j: nat, k: nat)
    requires NoneEmpty(lists) && InRange(lists, dims) && Distinct(lists)
    requires j < Product(Sizes(lists)) && k < Product(Sizes(lists))
    ensures Source(lists, dims, j) == Source(lists, dims, k) <==> j == k
  {
    if Source(lists, dims, j) == Source(lists, dims, k) {
      OffsetsDistinct(lists, dims, Digits(lists, j), Digits(lists, k));
      DigitsOfNumber(lists, j);
      DigitsOfNumber(lists, k);
    }
  }

  /** The lists that ":" stands for. */
  function Everything(dims: seq<nat>): (lists: seq<seq<nat>>)
    ensures |lists| == |dims|
  {
    seq(|dims|, d requires 0 <= d < |dims| => Counting(dims[d]))
  }

  function Counting(n: nat): (list: seq<nat>)
    ensures |list| == n
  {
    seq(n, i requires 0 <= i < n => i + 1)
  }

  /** Selecting everything in every dimension is the identity. */
  lemma {:induction false} EverythingIsIdentity(dims: seq<nat>, k: nat)
    requires k < Product(dims)
    ensures NoneEmpty(Everything(dims)) && Sizes(Everything(dims)) == dims
    ensures Source(Everything(dims), dims, k) == k
  {
    var lists := Everything(dims);
    if exists d :: 0 <= d < |dims| && dims[d] == 0 {
      var d :| 0 <= d < |dims| && dims[d] == 0;
      ZeroFactor(dims, d);
    }
    assert NoneEmpty(lists);
    if dims != [] {
      var n := dims[0];
      Quotient(k, n, Product(dims[1..]));
      EverythingIsIdentity(dims[1..], k / n);
      assert lists[1..] == Everything(dims[1..]);
      var digits := Digits(lists, k);
      assert digits[1..] == Digits(lists[1..], k / n);
      assert digits[0] == k % n;
      assert lists[0][k % n] == k % n + 1;
    }
  }

  lemma {:induction false} ZeroFactor(sizes: seq<nat>, d: nat)
    requires d < |sizes| && sizes[d] == 0
    ensures Product(sizes) == 0
  {
    if d > 0 {
      ZeroFactor(sizes[1..], d - 1);
    }
  }

  // ----------------------------------------------------------------------------------------- process

  /** One entry of the "index" parameter. */
  datatype Selector = Text(text: string) | Wrapped(number: nat) | Listed(numbers: seq<nat>)

  datatype DimType = Normal | All | Squeeze

  datatype Outcome =
    | Connected(outputDims: seq<nat>)
    | WrongCount
    | OutOfRange
    | NotScalar
    | NoDims // setStructure refuses an array without dimensions

  function TypeOf(selector: Selector): DimType {
    match selector
    case Text(_) => All
    case Wrapped(_) => Squeeze
    case Listed(_) => Normal
  }

  /** What a selector selects from a dimension of a given size. */
  function Selected(selector: Selector, size: nat): seq<nat> {
    match selector
    case Text(_) => Counting(size)
    case Wrapped(number) => [number]
    case Listed(numbers) => numbers
  }

  function Selection(selectors: seq<Selector>, dims: seq<nat>): (lists: seq<seq<nat>>)
    requires |selectors| == |dims|
    ensures |lists| == |dims|
  {
    seq(|dims|, d requires 0 <= d < |dims| => Selected(selectors[d], dims[d]))
  }

  lemma ColonsAreIdentity(selectors: seq<Selector>, dims: seq<nat>, k: nat)
    requires |selectors| == |dims| && forall s :: s in selectors ==> s.Text?
    requires k < Product(dims)
    ensures NoneEmpty(Selection(selectors, dims))
    ensures Source(Selection(selectors, dims), dims, k) == k
  {
    assert Selection(selectors, dims) == Everything(dims);
    EverythingIsIdentity(dims, k);
  }

  /** The output dimensions: those of the selection without the squeezed ones. */
  function Unsqueezed(selectors: seq<Selector>, sizes: seq<nat>): seq<nat>
    requires |selectors| == |sizes|
  {
    if selectors == [] then []
    else if selectors[0].Wrapped? then Unsqueezed(selectors[1..], sizes[1..])
    else [sizes[0]] + Unsqueezed(selectors[1..], sizes[1..])
  }

  /** Squeezing drops dimensions of one element only, so the product of the sizes stays. */
  lemma {:induction false} SqueezingKeepsProduct(selectors: seq<Selector>, dims: seq<nat>)
    requires |selectors| == |dims|
    ensures Product(Unsqueezed(selectors, Sizes(Selection(selectors, dims))))
         == Product(Sizes(Selection(selectors, dims)))
  {
    var lists := Selection(selectors, dims);
    if selectors != [] {
      SizesTail(lists);
      assert lists[1..] == Selection(selectors[1..], dims[1..]);
      SqueezingKeepsProduct(selectors[1..], dims[1..]);
      var rest := Unsqueezed(selectors[1..], Sizes(lists)[1..]);
      if !selectors[0].Wrapped? {
        assert ([|lists[0]|] + rest)[1..] == rest;
      }
    }
  }

  /** Nor does it change the number of an element. */
  lemma {:induction false} SqueezingKeepsNumber(selectors: seq<Selector>, dims: seq<nat>, at: seq<nat>)
    requires |selectors| == |dims| && Within(Sizes(Selection(selectors, dims)), at)
    ensures
      var sizes := Sizes(Selection(selectors, dims));
      && Within(Unsqueezed(selectors, sizes), Unsqueezed(selectors, at))
      && Linear(Unsqueezed(selectors, sizes), Unsqueezed(selectors, at)) == Linear(sizes, at)
  {
    var lists := Selection(selectors, dims);
    if selectors != [] {
      SizesTail(lists);
      assert lists[1..] == Selection(selectors[1..], dims[1..]);
      SqueezingKeepsNumber(selectors[1..], dims[1..], at[1..]);
      var sizes, rest := Unsqueezed(selectors[1..], Sizes(lists)[1..]), Unsqueezed(selectors[1..], at[1..]);
      if !selectors[0].Wrapped? {
        assert ([|lists[0]|] + sizes)[1..] == sizes && ([at[0]] + rest)[1..] == rest;
      }
    }
  }

  /** No dimension is left if and only if every selector squeezes its own. */
  lemma {:induction false} AllSqueezed(selectors: seq<Selector>, sizes: seq<nat>)
    requires |selectors| == |sizes|
    ensures Unsqueezed(selectors, sizes) == [] <==> forall s :: s in selectors ==> s.Wrapped?
  {
    if selectors != [] {
      AllSqueezed(selectors[1..], sizes[1..]);
      assert selectors == [selectors[0]] + selectors[1..];
    }
  }

  class IndexProcess {
    var index: seq<seq<nat>>
    var dimType: seq<DimType>
    var dims: seq<nat>
    var inputType: Element
    var src: seq<nat>

    /** The state is what setting the parameters to `selectors` leaves. */
    ghost predicate Set(selectors: seq<Selector>)
      reads this
    {
      && |index| == |dimType| == |dims| == |selectors| && src == []
      && forall d :: 0 <= d < |selectors| ==>
           && dimType[d] == TypeOf(selectors[d]) && dims[d] == |index[d]|
           && (selectors[d].Text? ==> selectors[d].text == ":")
           && index[d] == Selected(selectors[d], 0)
    }

    constructor ()
      ensures Set([])
    {
      index, dimType, dims, src, inputType := [], [], [], [], Float64;
    }

    /** EVENT_STATE_SET: reads the selectors; a text other than ":" is refused. */
    method StateSet(selectors: seq<Selector>) returns (ok: bool)
      requires Set([])
      modifies this
      ensures ok <==> forall s :: s in selectors && s.Text? ==> s.text == ":"
      ensures ok ==> Set(selectors)
    {
      var n := 0;
      while n < |selectors|
        invariant 0 <= n <= |selectors|
        invariant Set(selectors[..n])
        invariant forall s :: s in selectors[..n] && s.Text? ==> s.text == ":"
      {
        var range: seq<nat> := [];
        match selectors[n] {
          case Text(text) =>
            if text != ":" {
              return false;
            }
            dimType := dimType + [All];
          case Wrapped(number) =>
            range := range + [number];
            dimType := dimType + [Squeeze];
          case Listed(numbers) =>
            range := numbers;
            dimType := dimType + [Normal];
        }
        index := index + [range];
        dims := dims + [|range|];
        n := n + 1;
      }
      assert selectors[..n] == selectors;
      return true;
    }

    /**
     * EVENT_INIT_CONNECT: expands ":", validates, squeezes, creates the output and fills the table of source
     * offsets.
     */
    method Connect(inputDims: seq<nat>, element: Element, ghost selectors: seq<Selector>) returns (outcome: Outcome)
      requires Set(selectors)
      modifies this
      ensures inputType == element
      ensures outcome == WrongCount <==> |inputDims| != |selectors|
      ensures outcome == OutOfRange <==>
              |inputDims| == |selectors| && !InRange(Selection(selectors, inputDims), inputDims)
      ensures outcome == NoDims <==>
              && |inputDims| == |selectors| && InRange(Selection(selectors, inputDims), inputDims)
              && forall s :: s in selectors ==> s.Wrapped?
      ensures outcome != NotScalar
      ensures outcome.Connected? ==>
                var lists := Selection(selectors, inputDims);
                && index == lists && Tabulated(lists, inputDims, src)
                && outcome.outputDims == Unsqueezed(selectors, Sizes(lists))
                && |src| == NumberOfElements(outcome.outputDims)
    {
      inputType := element;
      if |inputDims| != |index| {
        return WrongCount;
      }
      Expand(inputDims, selectors);
      var valid := Validate(inputDims);
      if !valid {
        return OutOfRange;
      }
      var squeezed, ok := SqueezeDims(selectors);
      assert dims == Sizes(index);
      AllSqueezed(selectors, dims);
      SqueezingKeepsProduct(selectors, inputDims);
      if |squeezed| == 0 {
        return NoDims;
      }
      if NumberOfElements(dims) != 0 {
        AllPositive(index);
        Fill(inputDims);
      }
      return Connected(squeezed);
    }

    method Expand(inputDims: seq<nat>, ghost selectors: seq<Selector>)
      requires Set(selectors) && |inputDims| == |selectors|
      modifies this`index, this`dims
      ensures index == Selection(selectors, inputDims) && dims == Sizes(index)
    {
      var d := 0;
      while d < |index|
        invariant 0 <= d <= |index| == |dims| == |selectors|
        invariant forall e :: 0 <= e < d ==> index[e] == Selected(selectors[e], inputDims[e]) && dims[e] == |index[e]|
        invariant forall e :: d <= e < |index| ==> index[e] == Selected(selectors[e], 0) && dims[e] == |index[e]|
      {
        if dimType[d] == All {
          var i := 1;
          while i <= inputDims[d]
            invariant 1 <= i <= inputDims[d] + 1
            invariant |index| == |dims| == |selectors|
            invariant index[d] == Counting(i - 1)
            invariant forall e :: 0 <= e < d ==>
                        index[e] == Selected(selectors[e], inputDims[e]) && dims[e] == |index[e]|
            invariant forall e :: d < e < |index| ==> index[e] == Selected(selectors[e], 0) && dims[e] == |index[e]|
          {
            index := index[d := index[d] + [i]];
            i := i + 1;
          }
          dims := dims[d := inputDims[d]];
        }
        d := d + 1;
      }
    }

    method Validate(inputDims: seq<nat>) returns (valid: bool)
      requires |inputDims| == |index|
      ensures valid <==> InRange(index, inputDims)
    {
      var d := 0;
      while d < |index|
        invariant 0 <= d <= |index|
        invariant forall e, i :: 0 <= e < d && 0 <= i < |index[e]| ==> 1 <= index[e][i] <= inputDims[e]
      {
        var i := 0;
        while i < |index[d]|
          invariant 0 <= i <= |index[d]|
          invariant forall j :: 0 <= j < i ==> 1 <= index[d][j] <= inputDims[d]
        {
          var n := index[d][i];
          if n < 1 || n > inputDims[d] {
            return false;
          }
          i := i + 1;
        }
        d := d + 1;
      }
      return true;
    }

    /** The check that a squeezed dimension is scalar never fails. */
    method SqueezeDims(ghost selectors: seq<Selector>) returns (squeezed: seq<nat>, ok: bool)
      requires |dimType| == |dims| == |selectors|
      requires forall d :: 0 <= d < |selectors| ==>
                 dimType[d] == TypeOf(selectors[d]) && (selectors[d].Wrapped? ==> dims[d] == 1)
      ensures ok && squeezed == Unsqueezed(selectors, dims)
    {
      squeezed := [];
      var d := 0;
      while d < |dims|
        invariant 0 <= d <= |dims|
        invariant squeezed + Unsqueezed(selectors[d..], dims[d..]) == Unsqueezed(selectors, dims)
      {
        assert selectors[d..][1..] == selectors[d + 1..] && dims[d..][1..] == dims[d + 1..];
        if dimType[d] == Squeeze {
          if dims[d] != 1 {
            return squeezed, false;
          }
        } else {
          squeezed := squeezed + [dims[d]];
        }
        d := d + 1;
      }
      return squeezed, true;
    }

    /** The odometer. */
    method Fill(inputDims: seq<nat>)
      requires |inputDims| == |index| == |dims| && index != [] && src == []
      requires NoneEmpty(index) && InRange(index, inputDims)
      modifies this`src
      ensures |src| == Product(Sizes(index))
      ensures forall k :: 0 <= k < |src| ==> src[k] == Source(index, inputDims, k) && src[k] < Product(inputDims)
    {
      var strides := Strides(inputDims);
      var ind := Zeros(|dims|);
      FirstDigits(index);
      var done := false;
      PositiveProduct(index);
      hide Digits, Offset, Product, Sizes, Successor, AllLast, InRange, NoneEmpty;
      while !done
        invariant !done ==> |src| < Product(Sizes(index)) && ind == Digits(index, |src|)
        invariant done ==> |src| == Product(Sizes(index))
        invariant forall k :: 0 <= k < |src| ==> src[k] == Source(index, inputDims, k) && src[k] < Product(inputDims)
        decreases Product(Sizes(index)) - |src|
      {
        var i := SourceAt(inputDims, strides, ind);
        OffsetInside(index, inputDims, ind);
        ghost var k := |src|;
        src := src + [i];
        NextDigits(index, k);
        LastDigits(index, k);
        ind, done := Advance(ind);
      }
    }

    method Strides(inputDims: seq<nat>) returns (strides: seq<nat>)
      requires |inputDims| == |dims|
      ensures |strides| == |inputDims|
      ensures forall d :: 0 <= d < |strides| ==> strides[d] == Product(inputDims[..d])
    {
      strides := [];
      var stride := 1;
      var d := 0;
      while d < |dims|
        invariant 0 <= d == |strides| <= |dims|
        invariant stride == Product(inputDims[..d])
        invariant forall e :: 0 <= e < d ==> strides[e] == Product(inputDims[..e])
      {
        strides := strides + [stride];
        ProductNext(inputDims, d);
        stride := stride * inputDims[d];
        d := d + 1;
      }
    }

    method SourceAt(inputDims: seq<nat>, strides: seq<nat>, ind: seq<nat>) returns (i: nat)
      requires |inputDims| == |index| == |strides| == |ind| && InRange(index, inputDims)
      requires forall d :: 0 <= d < |index| ==> ind[d] < |index[d]| && strides[d] == Product(inputDims[..d])
      ensures i == Offset(index, inputDims, ind)
    {
      i := 0;
      var d := 0;
      assert index[0..] == index && inputDims[0..] == inputDims && ind[0..] == ind;
      while d < |index|
        invariant 0 <= d <= |index|
        invariant i + Product(inputDims[..d]) * Offset(index[d..], inputDims[d..], ind[d..])
               == Offset(index, inputDims, ind)
      {
        assert index[d..][1..] == index[d + 1..];
        assert inputDims[d..][1..] == inputDims[d + 1..];
        assert ind[d..][1..] == ind[d + 1..];
        ProductNext(inputDims, d);
        Carry(Product(inputDims[..d]), index[d][ind[d]] - 1, inputDims[d],
              Offset(index[d + 1..], inputDims[d + 1..], ind[d + 1..]));
        i := i + (index[d][ind[d]] - 1) * strides[d];
        d := d + 1;
      }
    }

    method Advance(from: seq<nat>) returns (ind: seq<nat>, done: bool)
      requires |from| == |index| && index != [] && forall d :: 0 <= d < |index| ==> from[d] < |index[d]|
      ensures ind == Successor(index, from)
      ensures done <==> AllLast(index, from)
    {
      hide Successor, Carrying, AllLast;
      ind, done := from, false;
      CarryStart(index, from);
      var d := 0;
      while d < |index|
        invariant 0 <= d <= |index|
        invariant Carrying(index, from, ind, d)
        invariant done <==> d == |index|
      {
        CarryAt(index, from, ind, d);
        if from[d] + 1 < |index[d]| {
          CarryStop(index, from, ind, d);
        } else {
          CarryOn(index, from, ind, d);
        }
        ind := ind[d := ind[d] + 1];
        if ind[d] < |index[d]| {
          return;
        }
        ind := ind[d := 0];
        if d == |index| - 1 {
          done := true;
        }
        d := d + 1;
      }
      CarryEnd(index, from, ind);
    }

    /**
     * EVENT_RUN_SERVICE: gathers the input through the table, for the element types that the process handles. A
     * `T` is a value of that type.
     */
    method Serve<T>(output: array<T>, input: array<T>) returns (ok: bool)
      requires output != input && |src| <= output.Length
      requires forall k :: 0 <= k < |src| ==> src[k] < input.Length
      modifies output
      ensures Served(inputType, old(output[..]), input[..], output[..], src, ok)
    {
      match inputType {
        case Float64 | Float32 | UInt64 | UInt32 | UInt16 | UInt8 | Int64 | Int32 | Int16 | Int8 =>
          DoIndex(output, input, src);
          return true;
        case Bool8 =>
          return false;
      }
    }
  }

  function Zeros(n: nat): (zeros: seq<nat>)
    ensures |zeros| == n
  {
    seq(n, _ => 0)
  }

  /** The digits below `d` have overflowed, the others are still to be stepped. */
  ghost predicate Carrying(lists: seq<seq<nat>>, from: seq<nat>, ind: seq<nat>, d: nat) {
    && |ind| == |from| == |lists| && d <= |lists|
    && ind[d..] == from[d..]
    && (forall e :: 0 <= e < d ==> ind[e] == Successor(lists, from)[e] && from[e] + 1 >= |lists[e]|)
    && Successor(lists[d..], from[d..]) == Successor(lists, from)[d..]
  }

  lemma CarryStart(lists: seq<seq<nat>>, from: seq<nat>)
    requires |from| == |lists|
    ensures Carrying(lists, from, from, 0)
  {
    assert lists[0..] == lists && from[0..] == from;
  }

  lemma CarryAt(lists: seq<seq<nat>>, from: seq<nat>, ind: seq<nat>, d: nat)
    requires Carrying(lists, from, ind, d) && d < |lists|
    ensures |ind| == |from| == |lists| && ind[d] == from[d]
    ensures from[d] + 1 < |lists[d]| ==> !AllLast(lists, from)
  {
    assert ind[d..][0] == from[d..][0];
  }

  lemma CarryStop(lists: seq<seq<nat>>, from: seq<nat>, ind: seq<nat>, d: nat)
    requires Carrying(lists, from, ind, d) && d < |lists| && from[d] + 1 < |lists[d]|
    ensures |ind| == |lists| && ind[d := from[d] + 1] == Successor(lists, from)
  {
    SuccessorAt(lists, from, d);
    hide Successor;
    var next, last := Successor(lists, from), ind[d := from[d] + 1];
    forall e | d < e < |lists| ensures last[e] == next[e] {
      assert last[e] == ind[d..][e - d] == from[d + 1..][e - d - 1] == next[d..][e - d];
    }
    assert next[d] == next[d..][0];
  }

  lemma CarryOn(lists: seq<seq<nat>>, from: seq<nat>, ind: seq<nat>, d: nat)
    requires Carrying(lists, from, ind, d) && d < |lists| && from[d] + 1 >= |lists[d]|
    ensures |ind| == |lists| && Carrying(lists, from, ind[d := from[d] + 1][d := 0], d + 1)
  {
    SuccessorAt(lists, from, d);
    hide Successor;
    var next, last := Successor(lists, from), ind[d := from[d] + 1][d := 0];
    assert next[d] == next[d..][0];
    assert next[d + 1..] == next[d..][1..];
    assert last[d + 1..] == ind[d..][1..] && from[d + 1..] == from[d..][1..];
  }

  lemma CarryEnd(lists: seq<seq<nat>>, from: seq<nat>, ind: seq<nat>)
    requires Carrying(lists, from, ind, |lists|)
    ensures ind == Successor(lists, from) && AllLast(lists, from)
  {
    SuccessorEnd(lists[|lists|..], from[|lists|..]);
  }

  lemma SuccessorAt(lists: seq<seq<nat>>, digits: seq<nat>, d: nat)
    requires |digits| == |lists| && d < |lists|
    ensures Successor(lists[d..], digits[d..])
         == if digits[d] + 1 < |lists[d]| then [digits[d] + 1] + digits[d + 1..]
            else [0] + Successor(lists[d + 1..], digits[d + 1..])
  {
    assert lists[d..][1..] == lists[d + 1..] && digits[d..][1..] == digits[d + 1..];
  }

  lemma SuccessorEnd(lists: seq<seq<nat>>, digits: seq<nat>)
    requires |digits| == |lists| == 0
    ensures Successor(lists, digits) == []
  {
  }

  lemma {:induction false} ProductNext(sizes: seq<nat>, d: nat)
    requires d < |sizes|
    ensures Product(sizes[..d + 1]) == Product(sizes[..d]) * sizes[d]
  {
    if d > 0 {
      assert sizes[..d + 1][1..] == sizes[1..][..d] && sizes[..d][1..] == sizes[1..][..d - 1];
      ProductNext(sizes[1..], d - 1);
      assert sizes[0] * (Product(sizes[1..][..d - 1]) * sizes[d]) == sizes[0] * Product(sizes[1..][..d - 1]) * sizes[d];
    } else {
      assert sizes[..1][1..] == [];
    }
  }

  lemma Carry(stride: nat, x: int, size: nat, rest: int)
    ensures stride * (x + size * rest) == x * stride + stride * size * rest
  {
    assert stride * (x + size * rest) == stride * x + stride * (size * rest);
  }

  lemma {:induction false} FirstDigits(lists: seq<seq<nat>>)
    requires NoneEmpty(lists)
    ensures Digits(lists, 0) == Zeros(|lists|)
    decreases |lists|
  {
    if lists != [] {
      FirstDigits(lists[1..]);
      assert 0 / |lists[0]| == 0;
    }
  }

  lemma {:induction false} PositiveProduct(lists: seq<seq<nat>>)
    requires NoneEmpty(lists)
    ensures Product(Sizes(lists)) > 0
  {
    if lists != [] {
      SizesTail(lists);
      PositiveProduct(lists[1..]);
    }
  }

  lemma AllPositive(lists: seq<seq<nat>>)
    requires NumberOfElements(Sizes(lists)) != 0
    ensures lists != [] && NoneEmpty(lists)
  {
    if d :| 0 <= d < |lists| && lists[d] == [] {
      ZeroFactor(Sizes(lists), d);
    }
  }

  // ------------------------------------------------------------------------------------------ the service

  /** The service: gathers the input through the table. */
  method DoIndex<T>(output: array<T>, input: array<T>, src: seq<nat>)
    requires output != input && |src| <= output.Length
    requires forall k :: 0 <= k < |src| ==> src[k] < input.Length
    modifies output
    ensures Gathered(old(output[..]), input[..], output[..], src)
  {
    var i := 0;
    while i < |src|
      invariant 0 <= i <= |src|
      invariant forall k :: 0 <= k < i ==> output[k] == input[src[k]]
      invariant output[i..] == old(output[i..])
    {
      output[i] := input[src[i]];
      i := i + 1;
    }
    assert output[|src|..] == output[..][|src|..];
  }

  /** One value for each entry of the table, and the rest of the output as it was. */
  ghost predicate Gathered<T>(before: seq<T>, input: seq<T>, after: seq<T>, src: seq<nat>) {
    && |src| <= |before| == |after|
    && (forall k :: 0 <= k < |src| ==> src[k] < |input| && after[k] == input[src[k]])
    && after[|src|..] == before[|src|..]
  }

  /** The service refuses booleans, and gathers everything else. */
  ghost predicate Served<T>(element: Element, before: seq<T>, input: seq<T>, after: seq<T>, src: seq<nat>, ok: bool) {
    && ok == (element != Bool8)
    && if ok then Gathered(before, input, after, src) else after == before
  }

  /** What the service can come to, in the sizes that setStructure gives input and output. */
  ghost predicate Serviced<T>(element: Element, format: Format, elements: nat, before: seq<T>, input: seq<T>,
                              after: seq<T>, src: seq<nat>, ok: bool)
  {
    && |before| == Values(format, |src|) && |input| == Values(format, elements)
    && Served(element, before, input, after, src, ok)
  }

  /** The selectors fit the dimensions, and select something at this position. */
  ghost predicate Selectable(selectors: seq<Selector>, dims: seq<nat>, at: seq<nat>) {
    && |selectors| == |dims| && InRange(Selection(selectors, dims), dims)
    && Within(Sizes(Selection(selectors, dims)), at)
  }

  /** The number in the output of what a position selects: there it goes without its squeezed dimensions. */
  ghost function Target(selectors: seq<Selector>, dims: seq<nat>, at: seq<nat>): nat
    requires Selectable(selectors, dims, at)
  {
    SqueezingKeepsNumber(selectors, dims, at);
    Linear(Unsqueezed(selectors, Sizes(Selection(selectors, dims))), Unsqueezed(selectors, at))
  }

  /** Its number in the input. */
  ghost function Chosen(selectors: seq<Selector>, dims: seq<nat>, at: seq<nat>): nat
    requires Selectable(selectors, dims, at)
  {
    Linear(dims, Picked(Selection(selectors, dims), at))
  }

  /** Success, and every part of every element of the output is that part of the input's element that it selects. */
  ghost predicate Indexed<T>(format: Format, selectors: seq<Selector>, dims: seq<nat>, count: nat, input: seq<T>,
                             after: seq<T>, ok: bool)
  {
    && ok
    && forall at: seq<nat>, part: nat :: Selectable(selectors, dims, at) && part < Parts(format) ==>
      PartIndexed(format, selectors, dims, count, input, after, at, part)
  }

  /** `count` is the number of elements of the output. */
  ghost predicate PartIndexed<T>(format: Format, selectors: seq<Selector>, dims: seq<nat>, count: nat, input: seq<T>,
                                 after: seq<T>, at: seq<nat>, part: nat)
    requires Selectable(selectors, dims, at)
  {
    var to := Part(format, count, Target(selectors, dims, at), part);
    var from := Part(format, Product(dims), Chosen(selectors, dims, at), part);
    to < |after| && from < |input| && after[to] == input[from]
  }

  /** What Connect leaves: a table of what the selectors select. */
  ghost predicate HasTable(selectors: seq<Selector>, dims: seq<nat>, src: seq<nat>) {
    |selectors| == |dims| && Tabulated(Selection(selectors, dims), dims, src)
  }

  /** Where the table leads from a position. */
  lemma TableSelects(selectors: seq<Selector>, dims: seq<nat>, src: seq<nat>, at: seq<nat>)
    requires HasTable(selectors, dims, src) && Selectable(selectors, dims, at)
    ensures Target(selectors, dims, at) < |src| && Chosen(selectors, dims, at) < Product(dims)
    ensures src[Target(selectors, dims, at)] == Chosen(selectors, dims, at)
  {
    var lists := Selection(selectors, dims);
    SqueezingKeepsNumber(selectors, dims, at);
    NumberOfDigits(lists, at);
    OffsetIsLinear(lists, dims, at);
    LinearInside(dims, Picked(lists, at));
  }

  /** The position of every entry of the table. */
  lemma TablePosition(selectors: seq<Selector>, dims: seq<nat>, src: seq<nat>, k: nat) returns (at: seq<nat>)
    requires HasTable(selectors, dims, src) && k < |src|
    ensures Selectable(selectors, dims, at) && Target(selectors, dims, at) == k
  {
    var lists := Selection(selectors, dims);
    at := Digits(lists, k);
    DigitsOfNumber(lists, k);
    SqueezingKeepsNumber(selectors, dims, at);
  }

  /**
   * The service indexes whatever it is given if and only if the elements are not boolean, and they are real or there
   * are none.
   */
  lemma IndexesExactly<T(!new)>(element: Element, format: Format, selectors: seq<Selector>, dims: seq<nat>,
                                src: seq<nat>, x: T, y: T)
    requires HasTable(selectors, dims, src) && x != y
    ensures (forall before: seq<T>, input: seq<T>, after: seq<T>, ok: bool ::
               Serviced(element, format, Product(dims), before, input, after, src, ok)
               ==> Indexed(format, selectors, dims, |src|, input, after, ok))
       <==> (element != Bool8 && (!format.complex || src == []))
  {
    hide *;
    if element == Bool8 {
      var input, output, ok := BooleansRefused(element, format, selectors, dims, src, x);
      assert !(Serviced(element, format, Product(dims), output, input, output, src, ok)
               ==> Indexed(format, selectors, dims, |src|, input, output, ok));
    } else if format.complex && src != [] {
      var input, output := ImaginaryMissed(element, format, selectors, dims, src, x, y);
    } else {
      forall before: seq<T>, input: seq<T>, after: seq<T>, ok: bool |
        Serviced(element, format, Product(dims), before, input, after, src, ok)
        ensures Indexed(format, selectors, dims, |src|, input, after, ok)
      {
        RealIndexed(element, format, selectors, dims, before, input, after, src, ok);
      }
    }
  }

  /** Booleans of any sizes, an empty array of them included. */
  lemma BooleansRefused<T>(element: Element, format: Format, selectors: seq<Selector>, dims: seq<nat>, src: seq<nat>,
                           x: T)
    returns (input: seq<T>, output: seq<T>, ok: bool)
    requires element == Bool8
    ensures Serviced(element, format, Product(dims), output, input, output, src, ok)
    ensures !Indexed(format, selectors, dims, |src|, input, output, ok)
  {
    ok := false;
    input := seq(Values(format, Product(dims)), _ => x);
    output := seq(Values(format, |src|), _ => x);
  }

  /** Values whose imaginary parts do not arrive. */
  lemma ImaginaryMissed<T>(element: Element, format: Format, selectors: seq<Selector>, dims: seq<nat>, src: seq<nat>,
                           x: T, y: T)
    returns (input: seq<T>, output: seq<T>)
    requires HasTable(selectors, dims, src) && x != y
    requires element != Bool8 && format.complex && src != []
    ensures Serviced(element, format, Product(dims), output, input, output, src, true)
    ensures !Indexed(format, selectors, dims, |src|, input, output, true)
  {
    input := seq(2 * Product(dims), _ => x);
    output := seq(2 * |src|, n => if n < |src| then x else y);
    var at := TablePosition(selectors, dims, src, |src| - 1);
    TableInside(selectors, dims, src);
    hide HasTable, Selectable, Target, Chosen, Product;
    assert !PartIndexed(format, selectors, dims, |src|, input, output, at, 1);
  }

  lemma TableInside(selectors: seq<Selector>, dims: seq<nat>, src: seq<nat>)
    requires HasTable(selectors, dims, src)
    ensures forall k :: 0 <= k < |src| ==> src[k] < Product(dims)
  {
  }

  /** Real elements are indexed. */
  lemma RealIndexed<T>(element: Element, format: Format, selectors: seq<Selector>, dims: seq<nat>, before: seq<T>,
                       input: seq<T>, after: seq<T>, src: seq<nat>, ok: bool)
    requires HasTable(selectors, dims, src) && element != Bool8 && (!format.complex || src == [])
    requires Serviced(element, format, Product(dims), before, input, after, src, ok)
    ensures Indexed(format, selectors, dims, |src|, input, after, ok)
  {
    hide HasTable, Selectable, Target, Chosen, Product, PartIndexed;
    forall at: seq<nat>, part: nat | Selectable(selectors, dims, at) && part < Parts(format)
      ensures PartIndexed(format, selectors, dims, |src|, input, after, at, part)
    {
      TableSelects(selectors, dims, src, at);
      RealPartIndexed(element, format, selectors, dims, before, input, after, src, ok, at);
    }
  }

  /** So is the real part of an element whose parts are not interleaved; what is behind the real parts stays. */
  lemma RealPartIndexed<T>(element: Element, format: Format, selectors: seq<Selector>, dims: seq<nat>,
                           before: seq<T>, input: seq<T>, after: seq<T>, src: seq<nat>, ok: bool, at: seq<nat>)
    requires HasTable(selectors, dims, src) && element != Bool8
    requires Serviced(element, format, Product(dims), before, input, after, src, ok)
    requires !(format.complex && format.interleaved) && Selectable(selectors, dims, at)
    ensures PartIndexed(format, selectors, dims, |src|, input, after, at, 0)
    ensures |src| <= |before| == |after| && after[|src|..] == before[|src|..]
  {
    hide HasTable, Selectable, Target, Chosen, Product;
    TableSelects(selectors, dims, src, at);
  }
}
