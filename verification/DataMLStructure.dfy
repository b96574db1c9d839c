/**
 * DataML structure: dimensions and field names are attributes of a node, written as text and scanned back.
 */
module DataMLStructure {
  import opened Messages
  import opened DataMLNumeric
  import opened IndexNumeric

  const LIMIT: nat := 0x1_0000_0000

  // -------------------------------------------------------------------------------------- dimensions

  predicate IsSpace(c: char) {
    c == ' ' || c == '\t' || c == '\n' || c == '\r' || c == '\U{000B}' || c == '\U{000C}'
  }

  /** The sizes separated by single spaces. */
  function DimsText(dims: seq<nat>): string {
    if dims == [] then ""
    else if |dims| == 1 then Decimal(dims[0])
    else Decimal(dims[0]) + " " + DimsText(dims[1..])
  }

  /** What scanning an unsigned 32-bit number from a stream gives; a sign is not part of this model. */
  datatype Scanned = Size(size: nat) | NoNumber | Signed

  function SkipSpaces(text: string, i: nat): (start: nat)
    requires i <= |text|
    ensures i <= start <= |text| && !IsSpace(At(text, start))
    decreases |text| - i
  {
    if i < |text| && IsSpace(text[i]) then SkipSpaces(text, i + 1) else i
  }

  function ScanSize(text: string, i: nat): Scanned
    requires i <= |text|
  {
    var start := SkipSpaces(text, i);
    var end := DigitsEnd(text, start);
    if At(text, start) == '-' || At(text, start) == '+' then Signed
    else if start == end || Value(text, start, end) >= LIMIT then NoNumber
    else Size(Value(text, start, end))
  }

  /** The end of the token at `i`: the next space or the end of the text. */
  function TokenEnd(text: string, i: nat): (e: nat)
    requires i <= |text|
    ensures i <= e <= |text| && (e < |text| ==> text[e] == ' ') && forall k :: i <= k < e ==> text[k] != ' '
    decreases |text| - i
  {
    if i < |text| && text[i] != ' ' then TokenEnd(text, i + 1) else i
  }

  datatype DimsOutcome = Dims(dims: seq<nat>) | MalformedDims | SignedDims

  function ScanDims(text: string, i: nat): DimsOutcome
    requires i <= |text|
    decreases |text| - i
  {
    if i == |text| then Dims([])
    else
      match ScanSize(text, i)
      case NoNumber => MalformedDims
      case Signed => SignedDims
      case Size(size) =>
        var e := TokenEnd(text, i);
        DimsPrefixed([size], if e == |text| then Dims([]) else ScanDims(text, e + 1))
  }

  lemma {:induction false} ValueOfDecimal(text: string, i: nat, n: nat)
    requires Follows(text, i, Decimal(n))
    ensures forall k :: i <= k < i + |Decimal(n)| ==> IsDigit(At(text, k))
    ensures Value(text, i, i + |Decimal(n)|) == n
    decreases n
  {
    var s, j := Decimal(n), i + |Decimal(n)|;
    FollowsDigits(text, i, s);
    assert At(text, j - 1) == s[|s| - 1] by { assert text[i..j][|s| - 1] == text[j - 1]; }
    if n < 10 {
      assert Value(text, i, i) == 0;
    } else {
      FollowsHead(text, i, Decimal(n / 10), [DigitChar(n % 10)]);
      ValueOfDecimal(text, i, n / 10);
    }
  }

  lemma TokenEndAt(text: string, i: nat, e: nat)
    requires i <= e <= |text| && (e < |text| ==> text[e] == ' ') && forall k :: i <= k < e ==> text[k] != ' '
    ensures TokenEnd(text, i) == e
  {
  }

  /** A printed size scans as itself, and its token ends with its digits. */
  lemma ScansPrinted(text: string, i: nat, n: nat)
    requires Follows(text, i, Decimal(n))
    requires i + |Decimal(n)| == |text| || At(text, i + |Decimal(n)|) == ' '
    ensures ScanSize(text, i) == if n < LIMIT then Size(n) else NoNumber
    ensures TokenEnd(text, i) == i + |Decimal(n)|
  {
    var end := i + |Decimal(n)|;
    ValueOfDecimal(text, i, n);
    EndOfDigits(text, i, end);
    assert IsDigit(At(text, i));
    assert SkipSpaces(text, i) == i;
    forall k | i <= k < end ensures text[k] != ' ' {
      assert IsDigit(At(text, k));
    }
    TokenEndAt(text, i, end);
    hide Decimal, Value, DigitsEnd, SkipSpaces, TokenEnd;
  }

  predicate AllBelowLimit(dims: seq<nat>) {
    forall d :: 0 <= d < |dims| ==> dims[d] < LIMIT
  }

  /** Sizes below 2^32 survive printing and scanning, whatever their number; any other size is refused. */
  lemma {:induction false} DimsSurvive(text: string, i: nat, dims: seq<nat>)
    requires i <= |text| && text[i..] == DimsText(dims)
    ensures ScanDims(text, i) == if AllBelowLimit(dims) then Dims(dims) else MalformedDims
    decreases |dims|
  {
    if dims == [] {
      assert i == |text|;
    } else if |dims| == 1 {
      OneSize(text, i, dims[0]);
      assert dims == [dims[0]];
    } else {
      var next := FirstSize(text, i, dims);
      hide *;
      DimsSurvive(text, next, dims[1..]);
      FirstAndRest(text, i, dims, next);
    }
  }

  lemma OneSize(text: string, i: nat, n: nat)
    requires i <= |text| && text[i..] == DimsText([n])
    ensures ScanDims(text, i) == if AllBelowLimit([n]) then Dims([n]) else MalformedDims
  {
    assert text[i..i + |Decimal(n)|] == text[i..];
    hide Decimal, ScanSize, TokenEnd;
    ScansPrinted(text, i, n);
    assert [n] == [n] + [];
  }

  lemma FirstSize(text: string, i: nat, dims: seq<nat>) returns (next: nat)
    requires i <= |text| && text[i..] == DimsText(dims) && |dims| > 1
    ensures i < next <= |text| && text[next..] == DimsText(dims[1..])
    ensures ScanSize(text, i) == if dims[0] < LIMIT then Size(dims[0]) else NoNumber
    ensures TokenEnd(text, i) == next - 1
  {
    var n, rest := Decimal(dims[0]), DimsText(dims[1..]);
    hide Decimal;
    Cut(text, i, n, rest);
    hide ScanSize, TokenEnd, DimsText;
    ScansPrinted(text, i, dims[0]);
    next := i + |n| + 1;
  }

  lemma FirstAndRest(text: string, i: nat, dims: seq<nat>, next: nat)
    requires i < next <= |text| && |dims| > 1
    requires ScanSize(text, i) == if dims[0] < LIMIT then Size(dims[0]) else NoNumber
    requires TokenEnd(text, i) == next - 1
    requires ScanDims(text, next) == if AllBelowLimit(dims[1..]) then Dims(dims[1..]) else MalformedDims
    ensures ScanDims(text, i) == if AllBelowLimit(dims) then Dims(dims) else MalformedDims
  {
    hide ScanSize, TokenEnd;
    assert dims == [dims[0]] + dims[1..];
    assert forall d :: 0 < d < |dims| ==> dims[d] == dims[1..][d - 1];
    assert forall d :: 0 <= d < |dims| - 1 ==> dims[1..][d] == dims[d + 1];
  }

  // ------------------------------------------------------------------------------------- element count

  const WRAP: nat := 0x1_0000_0000_0000_0000

  /** getNumberOfElements: a product in 64 bits. */
  function ElementCount(dims: seq<nat>): nat {
    NumberOfElements(dims) % WRAP
  }

  method CountElements(dims: seq<nat>) returns (count: nat)
    ensures count == ElementCount(dims)
  {
    if |dims| == 0 {
      return 0;
    }
    count := 1;
    var d := 0;
    assert dims[..|dims|] == dims;
    while d < |dims|
      invariant 0 <= d <= |dims|
      invariant count == Product(dims[..d]) % WRAP
    {
      ProductNext(dims, d);
      WrapFactor(Product(dims[..d]), dims[d]);
      count := count * dims[d] % WRAP;
      d := d + 1;
    }
  }

  lemma WrapFactor(x: nat, y: nat)
    ensures x % WRAP * y % WRAP == x * y % WRAP
  {
    var q, r := x / WRAP, x % WRAP;
    assert x * y == r * y + (q * y) * WRAP;
    AddWraps(r * y, q * y);
  }

  lemma {:induction false} AddWraps(n: nat, k: nat)
    ensures (n + k * WRAP) % WRAP == n % WRAP
  {
    if k > 0 {
      AddWraps(n, k - 1);
      assert n + k * WRAP == n + (k - 1) * WRAP + WRAP;
    }
  }

  /** The shape attribute of an array node: written by setArrayStructure, read back by assign. */
  class ShapeNode {
    var shape: Option<string>
    var dims: seq<nat>

    constructor ()
      ensures shape == None && dims == []
    {
      shape, dims := None, [];
    }

    /** A count of 1 is written as no attribute at all. */
    method SetArrayStructure(dims: seq<nat>)
      modifies this
      ensures this.dims == dims
      ensures shape == if ElementCount(dims) == 1 then None else Some(DimsText(dims))
    {
      this.dims := dims;
      shape := None;
      var elements := CountElements(dims);
      if elements != 1 {
        var text := PrintDims(dims);
        shape := Some(text);
      }
    }

    /** No attribute means [1]; a text of another node's making may also be refused. */
    method Assign() returns (outcome: DimsOutcome)
      modifies `dims
      ensures outcome == if shape.Some? then ScanDims(shape.value, 0) else Dims([1])
      ensures outcome.Dims? ==> dims == outcome.dims
    {
      if shape.None? {
        dims := [1];
        return Dims(dims);
      }
      outcome := ParseDims(shape.value);
      if outcome.Dims? {
        dims := outcome.dims;
      }
    }
  }

  /** The conversion of dimensions to a string. */
  method PrintDims(dims: seq<nat>) returns (text: string)
    ensures text == DimsText(dims)
  {
    hide Decimal;
    text := "";
    var d := 0;
    assert dims[0..] == dims && "" + "" + DimsText(dims) == DimsText(dims);
    while d < |dims|
      invariant 0 <= d <= |dims|
      invariant Printed(text, dims, d)
    {
      PrintedNext(text, dims, d);
      if d > 0 {
        text := text + " ";
      }
      text := text + Decimal(dims[d]);
      d := d + 1;
    }
  }

  /** The first `d` sizes are in the text. */
  ghost predicate Printed(text: string, dims: seq<nat>, d: nat) {
    d <= |dims| && text + (if 0 < d < |dims| then " " else "") + DimsText(dims[d..]) == DimsText(dims)
  }

  lemma PrintedNext(text: string, dims: seq<nat>, d: nat)
    requires Printed(text, dims, d) && d < |dims|
    ensures Printed((if d > 0 then text + " " else text) + Decimal(dims[d]), dims, d + 1)
  {
    DimsTextNext(dims, d);
    var before := if d > 0 then text + " " else text;
    assert text + (if 0 < d < |dims| then " " else "") == before;
    var size, rest := Decimal(dims[d]), DimsText(dims[d + 1..]);
    if d + 1 < |dims| {
      hide Decimal, DimsText;
      JoinSizes(before, size, rest);
    } else {
      assert rest == "";
      hide Decimal, DimsText;
      JoinSizes(before, size, "");
    }
  }

  lemma JoinSizes(before: string, size: string, rest: string)
    ensures before + (size + (" " + rest)) == before + size + " " + rest
    ensures before + (size + "") == before + size + "" + ""
  {
  }

  /** Reads the shape attribute token by token. */
  method ParseDims(text: string) returns (outcome: DimsOutcome)
    ensures outcome == ScanDims(text, 0)
  {
    hide ScanSize;
    var dims: seq<nat>, i := [], 0;
    PrefixedNone(ScanDims(text, 0));
    while i < |text|
      invariant 0 <= i <= |text|
      invariant ScanDims(text, 0) == DimsPrefixed(dims, ScanDims(text, i))
    {
      var e := FindSpace(text, i);
      var scanned := ScanSize(text, i);
      if scanned == NoNumber {
        return MalformedDims;
      }
      if scanned == Signed {
        return SignedDims;
      }
      PrefixedMore(dims, scanned.size, if e == |text| then Dims([]) else ScanDims(text, e + 1));
      dims := dims + [scanned.size];
      if e == |text| {
        return Dims(dims);
      }
      i := e + 1;
    }
    return Dims(dims);
  }

  method FindSpace(text: string, i: nat) returns (e: nat)
    requires i <= |text|
    ensures e == TokenEnd(text, i)
  {
    e := i;
    while e < |text| && text[e] != ' '
      invariant i <= e <= |text| && TokenEnd(text, i) == TokenEnd(text, e)
    {
      e := e + 1;
    }
  }

  lemma PrefixedNone(outcome: DimsOutcome)
    ensures DimsPrefixed([], outcome) == outcome
  {
  }

  lemma PrefixedMore(dims: seq<nat>, size: nat, rest: DimsOutcome)
    ensures DimsPrefixed(dims, DimsPrefixed([size], rest)) == DimsPrefixed(dims + [size], rest)
    ensures DimsPrefixed(dims, Dims([])) == Dims(dims)
  {
    if rest.Dims? {
      assert dims + ([size] + rest.dims) == dims + [size] + rest.dims;
    }
  }

  function DimsPrefixed(dims: seq<nat>, outcome: DimsOutcome): DimsOutcome {
    if outcome.Dims? then Dims(dims + outcome.dims) else outcome
  }

  lemma DimsTextNext(dims: seq<nat>, d: nat)
    requires d < |dims|
    ensures DimsText(dims[d..]) == Decimal(dims[d]) + if d + 1 < |dims| then " " + DimsText(dims[d + 1..]) else ""
  {
    assert dims[d..][1..] == dims[d + 1..];
  }

  /**
   * What is written and read back survives if and only if its sizes are below 2^32 and it is not of count 1, as all
   * of that count come back as [1].
   */
  lemma ShapeSurvives(dims: seq<nat>)
    ensures var shape := if ElementCount(dims) == 1 then None else Some(DimsText(dims));
            (if shape.Some? then ScanDims(shape.value, 0) else Dims([1])) == Dims(dims)
            <==> (ElementCount(dims) != 1 && AllBelowLimit(dims)) || dims == [1]
  {
    var text := DimsText(dims);
    assert text[0..] == text;
    assert ElementCount([1]) == 1 by {
      assert Product([1]) == 1 * Product([1][1..]);
    }
    hide ElementCount;
    DimsSurvive(text, 0, dims);
  }

  /** For instance [1, 1], the shape of a scalar written as a matrix, does not survive. */
  lemma MatrixScalarDoesNotSurvive()
    ensures ElementCount([1, 1]) == 1 && [1, 1] != [1]
  {
    assert Product([1, 1]) == 1 * Product([1, 1][1..]);
    assert [1, 1][1..] == [1];
    assert Product([1]) == 1 * Product([1][1..]);
  }

  /** Nor do these sizes, each below 2^32: their product is 40 * 2^64 + 1. */
  lemma WrappedShapeDoesNotSurvive()
    ensures var dims := [37, 251, 859, 24979, 3702849463];
            AllBelowLimit(dims) && NumberOfElements(dims) == 40 * WRAP + 1 && ElementCount(dims) == 1
  {
    var dims := [37, 251, 859, 24979, 3702849463];
    assert Product(dims[4..]) == 3702849463 by {
      assert dims[4..][1..] == [];
    }
    assert dims[3..][1..] == dims[4..] && dims[2..][1..] == dims[3..] && dims[1..][1..] == dims[2..];
    assert Product(dims[3..]) == 24979 * 3702849463;
    assert Product(dims[2..]) == 859 * (24979 * 3702849463);
    assert Product(dims[1..]) == 251 * (859 * (24979 * 3702849463));
    assert Product(dims) == 37 * (251 * (859 * (24979 * 3702849463)));
    AddWraps(1, 40);
  }
}
