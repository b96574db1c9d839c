/**
 * DataML numeric arrays: a chunk-flushed printer and a cursor-based parser are inverse to each other.
 *
 * A text is a string without its terminating NUL; reading at its end gives NUL. A double is a real here, but the
 * conversion of a 64-bit count to double is an arbitrary function `dbl` that is exact up to 2^53 and promises
 * nothing beyond. Infinities, NaNs and exponents are recognised and given up as Unmodelled.
 */
module DataMLNumeric {
  import opened Messages
  import opened NumericTypes

  const NUL: char := '\0'
  const TWO_53: int := 0x20_0000_0000_0000
  const SUB_MAX: nat := 1_000_000_000_000_000_000

  newtype uint64 = x: int | 0 <= x < 0x1_0000_0000_0000_0000

  ghost predicate ExactTo53(dbl: nat -> real) {
    forall n: nat :: n <= TWO_53 ==> dbl(n) == n as real
  }

  function At(text: string, i: nat): char {
    if i < |text| then text[i] else NUL
  }

  predicate IsDigit(c: char) {
    '0' <= c <= '9'
  }

  function DigitValue(c: char): (n: nat)
    requires IsDigit(c)
    ensures n < 10
  {
    c as nat - '0' as nat
  }

  function DigitChar(n: nat): (c: char)
    requires n < 10
    ensures IsDigit(c) && DigitValue(c) == n
  {
    "0123456789"[n]
  }

  // ------------------------------------------------------------------------------------------ printing

  function Decimal(n: nat): (s: string)
    ensures s != [] && forall k :: 0 <= k < |s| ==> IsDigit(s[k])
  {
    if n < 10 then [DigitChar(n)] else Decimal(n / 10) + [DigitChar(n % 10)]
  }

  function Print(v: int): (s: string)
    ensures s != [] && NUL !in s
  {
    if v < 0 then "-" + Decimal(-v) else Decimal(v)
  }

  /** Every number followed by a space. */
  function Spaced(values: seq<int>): string {
    if values == [] then "" else Spaced(values[..|values| - 1]) + Print(values[|values| - 1]) + " "
  }

  function Trimmed(s: string): string {
    if s == "" then "" else s[..|s| - 1]
  }

  ghost predicate Sixty4Bits(values: seq<int>) {
    forall k :: 0 <= k < |values| ==> -0x8000_0000_0000_0000 <= values[k] < 0x1_0000_0000_0000_0000
  }

  function Power10(k: nat): (p: nat)
    ensures p > 0
  {
    if k == 0 then 1 else 10 * Power10(k - 1)
  }

  lemma {:induction false} DecimalLength(n: nat, k: nat)
    requires k > 0 && n < Power10(k)
    ensures |Decimal(n)| <= k
  {
    if n >= 10 {
      DecimalLength(n / 10, k - 1);
    }
  }

  lemma PrintIsShort(v: int)
    requires -0x8000_0000_0000_0000 <= v < 0x1_0000_0000_0000_0000
    ensures |Print(v)| <= 20
  {
    assert Power10(5) == 100_000;
    assert Power10(10) == 100_000 * Power10(5);
    assert Power10(15) == 100_000 * Power10(10);
    assert Power10(19) == 10_000 * Power10(15);
    assert Power10(20) == 10 * Power10(19);
    if v < 0 {
      DecimalLength(-v, 19);
    } else {
      DecimalLength(v, 20);
    }
  }

  const BUFFER_SIZE: nat := 16384

  /** The C string at the start of a buffer, `used` characters long. */
  ghost predicate Holds(buffer: array<char>, used: nat, s: string)
    reads buffer
  {
    && buffer.Length == BUFFER_SIZE && used == |s| < BUFFER_SIZE && NUL !in s
    && buffer[..used] == s && buffer[used] == NUL
  }

  /** sprintf of a number and a space, at a cursor, with the NUL. */
  method Sprintf(buffer: array<char>, at: nat, s: string)
    requires at + |s| < buffer.Length
    modifies buffer
    ensures forall k :: 0 <= k < at ==> buffer[k] == old(buffer[k])
    ensures forall k :: at <= k < at + |s| ==> buffer[k] == s[k - at]
    ensures buffer[at + |s|] == NUL
  {
    var n := 0;
    while n < |s|
      invariant 0 <= n <= |s|
      invariant forall k :: 0 <= k < at ==> buffer[k] == old(buffer[k])
      invariant forall k :: at <= k < at + n ==> buffer[k] == s[k - at]
    {
      buffer[at + n] := s[n];
      n := n + 1;
    }
    buffer[at + |s|] := NUL;
  }

  /** Appends one number to the buffer; the cursor stops at the NUL. */
  method Put(buffer: array<char>, at: nat, v: int, ghost s: string) returns (next: nat)
    requires Holds(buffer, at, s) && at <= BUFFER_SIZE - 32
    requires -0x8000_0000_0000_0000 <= v < 0x1_0000_0000_0000_0000
    modifies buffer
    ensures Holds(buffer, next, s + Print(v) + " ")
  {
    hide Print;
    PrintIsShort(v);
    ghost var end := at + |Print(v) + " "|;
    Sprintf(buffer, at, Print(v) + " ");
    Extended(buffer[..], s, Print(v));
    next := Scan(buffer, at, end);
  }

  /** Moves the cursor to the next NUL. */
  method Scan(buffer: array<char>, at: nat, ghost end: nat) returns (next: nat)
    requires at <= end < buffer.Length && buffer[end] == NUL
    requires forall k :: at <= k < end ==> buffer[k] != NUL
    ensures next == end
  {
    next := at;
    while buffer[next] != NUL
      invariant at <= next <= end
      decreases end - next
    {
      next := next + 1;
    }
  }

  lemma Extended(buffer: string, s: string, number: string)
    requires NUL !in s && NUL !in number && |s| + |number| + 1 <= |buffer|
    requires forall k :: 0 <= k < |s| ==> buffer[k] == s[k]
    requires forall k :: |s| <= k < |s| + |number| + 1 ==> buffer[k] == (number + " ")[k - |s|]
    ensures NUL !in s + number + " "
    ensures forall k :: |s| <= k < |s| + |number| + 1 ==> buffer[k] != NUL
    ensures buffer[..|s| + |number| + 1] == s + number + " "
  {
    assert buffer[|s|..|s| + |number| + 1] == number + " ";
  }

  /** Moves the buffered text to the end of a string. */
  method Flush(buffer: array<char>, cursor: nat, str: string, ghost text: string) returns (out: string)
    requires Holds(buffer, cursor, text)
    modifies buffer
    ensures Holds(buffer, 0, "") && out == str + text
  {
    out := str + buffer[..cursor];
    buffer[0] := NUL;
  }

  /** The printer: one or two arrays, through a buffer that is flushed when it approaches full. */
  method NumericDataToText(p1: seq<int>, p2: Option<seq<int>>) returns (str: string)
    requires Sixty4Bits(p1) && (p2.Some? ==> Sixty4Bits(p2.value))
    ensures str == Trimmed(Spaced(p1 + if p2.Some? then p2.value else []))
  {
    var buffer := new char[BUFFER_SIZE];
    buffer[0] := NUL;
    assert Holds(buffer, 0, "");
    hide Holds, Spaced;
    ghost var used := "";
    var cursor: nat := 0;
    str := "";
    SpacedNone();
    str, cursor, used := Loop(buffer, cursor, p1, str, used, []);
    assert [] + p1 == p1;
    if p2.Some? {
      str, cursor, used := Loop(buffer, cursor, p2.value, str, used, p1);
    } else {
      assert p1 + [] == p1;
    }
    str := Flush(buffer, cursor, str, used);
    if |str| != 0 {
      str := str[..|str| - 1];
    }
  }

  lemma SpacedNone()
    ensures "" + "" == Spaced([])
  {
  }

  /** Prints one array; `done` are the numbers printed before. */
  method Loop(buffer: array<char>, at: nat, values: seq<int>, before: string, ghost used: string, ghost done: seq<int>)
    returns (str: string, cursor: nat, ghost text: string)
    requires Holds(buffer, at, used) && at <= BUFFER_SIZE - 32 && before + used == Spaced(done)
    requires Sixty4Bits(values)
    modifies buffer
    ensures Holds(buffer, cursor, text) && cursor <= BUFFER_SIZE - 32 && str + text == Spaced(done + values)
  {
    hide Holds, Spaced, Print;
    str, cursor, text := before, at, used;
    var n := 0;
    assert done + values[..0] == done;
    while n < |values|
      invariant 0 <= n <= |values|
      invariant Holds(buffer, cursor, text) && cursor <= BUFFER_SIZE - 32
      invariant str + text == Spaced(done + values[..n])
    {
      SpacedNext(done, values, n);
      ghost var so := text;
      cursor := Put(buffer, cursor, values[n], text);
      text := text + Print(values[n]) + " ";
      Regroup(str, so, Print(values[n]), " ");
      if cursor > BUFFER_SIZE - 32 {
        str := Flush(buffer, cursor, str, text);
        cursor := 0;
        text := "";
        assert str + text == str;
      }
      n := n + 1;
    }
    assert values[..n] == values;
  }

  lemma Regroup(a: string, b: string, c: string, d: string)
    ensures a + (b + c + d) == a + b + c + d
  {
  }

  lemma SpacedNext(done: seq<int>, values: seq<int>, n: nat)
    requires n < |values|
    ensures Spaced(done + values[..n + 1]) == Spaced(done + values[..n]) + Print(values[n]) + " "
  {
    var all := done + values[..n + 1];
    assert all[..|all| - 1] == done + values[..n];
  }

  // ------------------------------------------------------------------------------------------- parsing

  /** The index of the first character from `i` on that is no digit. */
  function DigitsEnd(text: string, i: nat): (end: nat)
    ensures i <= end && !IsDigit(At(text, end)) && forall k :: i <= k < end ==> IsDigit(At(text, k))
    decreases |text| - i
  {
    if IsDigit(At(text, i)) then DigitsEnd(text, i + 1) else i
  }

  /** What the accumulator holds after the digits from `i` up to `j`; past SUB_MAX it takes no more digits. */
  function Accumulated(text: string, i: nat, j: nat): (num: nat)
    requires i < j && forall k :: i <= k < j ==> IsDigit(At(text, k))
    ensures num <= 10 * SUB_MAX + 9
  {
    if j == i + 1 then DigitValue(At(text, i))
    else
      var num := Accumulated(text, i, j - 1);
      if num <= SUB_MAX then 10 * num + DigitValue(At(text, j - 1)) else num
  }

  /** The divisor of a fraction: a power of ten for the digits that the accumulator took. */
  function Divisor(text: string, i: nat, j: nat): (divisor: real)
    requires i < j && forall k :: i <= k < j ==> IsDigit(At(text, k))
    ensures divisor > 0.0
  {
    if j == i + 1 then 10.0
    else if Accumulated(text, i, j - 1) <= SUB_MAX then Divisor(text, i, j - 1) * 10.0
    else Divisor(text, i, j - 1)
  }

  /** The value of the digits from `i` up to `j`. */
  function Value(text: string, i: nat, j: nat): nat
    requires i <= j && forall k :: i <= k < j ==> IsDigit(At(text, k))
  {
    if i == j then 0 else 10 * Value(text, i, j - 1) + DigitValue(At(text, j - 1))
  }

  /**
   * The accumulator takes leading digits, all of them or as many as bring it past SUB_MAX, and the divisor is the
   * power of ten for those: so a fraction parses as its decimal value, cut off after the digits taken.
   */
  lemma {:induction false} TakesLeadingDigits(text: string, i: nat, j: nat) returns (taken: nat)
    requires i < j && forall k :: i <= k < j ==> IsDigit(At(text, k))
    ensures 0 < taken <= j - i
    ensures Accumulated(text, i, j) == Value(text, i, i + taken)
    ensures Divisor(text, i, j) == Power10(taken) as real
    ensures taken < j - i ==> Value(text, i, i + taken) > SUB_MAX
    decreases j - i
  {
    if j == i + 1 {
      taken := 1;
      assert Value(text, i, i) == 0;
      assert Power10(1) == 10 * Power10(0);
    } else {
      taken := TakesLeadingDigits(text, i, j - 1);
      if Accumulated(text, i, j - 1) <= SUB_MAX {
        taken := taken + 1;
        TimesTen(Power10(taken - 1));
      }
    }
  }

  lemma TimesTen(p: nat)
    ensures (10 * p) as real == p as real * 10.0
  {
  }

  /** Up to 18 digits all are taken. */
  lemma TakesAllDigits(text: string, i: nat, j: nat)
    requires i < j <= i + 18 && forall k :: i <= k < j ==> IsDigit(At(text, k))
    ensures Accumulated(text, i, j) == Value(text, i, j) && Divisor(text, i, j) == Power10(j - i) as real
  {
    hide Power10, Value, Accumulated, Divisor;
    var taken := TakesLeadingDigits(text, i, j);
    if taken < j - i {
      ValueBelowPower(text, i, i + taken);
      PowersGrow(taken, 18);
      EighteenDigits();
    }
  }

  lemma {:induction false} ValueBelowPower(text: string, i: nat, j: nat)
    requires i <= j && forall k :: i <= k < j ==> IsDigit(At(text, k))
    ensures Value(text, i, j) < Power10(j - i)
    decreases j - i
  {
    if i < j {
      ValueBelowPower(text, i, j - 1);
    }
  }

  lemma {:induction false} PowersGrow(m: nat, n: nat)
    requires m <= n
    ensures Power10(m) <= Power10(n)
    decreases n - m
  {
    if m < n {
      PowersGrow(m, n - 1);
    }
  }

  lemma EighteenDigits()
    ensures Power10(18) == SUB_MAX
  {
    assert Power10(5) == 100_000;
    assert Power10(10) == 100_000 * Power10(5);
    assert Power10(15) == 100_000 * Power10(10);
    assert Power10(18) == 1_000 * Power10(15);
  }

  function Ratio(x: real, y: real): real
    requires y != 0.0
  {
    x / y
  }

  /** A value times its sign. */
  function Signed(value: real, neg: real): real {
    value * neg
  }

  datatype Parsed = Number(value: real, next: nat) | Malformed | Unmodelled

  /** The sign: its factor, and where the number goes on. */
  function Sign(text: string, i: nat): (real, nat) {
    if At(text, i) == '-' then (-1.0, i + 1) else if At(text, i) == '+' then (1.0, i + 1) else (1.0, i)
  }

  function IntegerPart(text: string, i: nat, dbl: nat -> real): (real, nat) {
    var end := DigitsEnd(text, i);
    if i < end then (dbl(Accumulated(text, i, end)), end) else (0.0, i)
  }

  function FractionPart(text: string, i: nat, dbl: nat -> real): Option<(real, nat)> {
    if At(text, i) != '.' then Some((0.0, i))
    else
      var end := DigitsEnd(text, i + 1);
      if i + 1 == end then None
      else Some((Ratio(dbl(Accumulated(text, i + 1, end)), Divisor(text, i + 1, end)), end))
  }

  /** What ends a number: a space, which only the last number may lack. */
  function Close(text: string, i: nat, value: real, last: bool): Parsed {
    if At(text, i) == 'E' || At(text, i) == 'e' then Unmodelled
    else if At(text, i) == ' ' then Number(value, i + 1)
    else if last then Number(value, i)
    else Malformed
  }

  function ParseUnsigned(text: string, i: nat, neg: real, last: bool, dbl: nat -> real): Parsed {
    if At(text, i) == 'I' || At(text, i) == 'N' then Unmodelled
    else
      var whole := IntegerPart(text, i, dbl);
      var fraction := FractionPart(text, whole.1, dbl);
      if fraction.None? then Malformed
      else Close(text, fraction.value.1, Signed(whole.0 + fraction.value.0, neg), last)
  }

  /** One number and what ends it. */
  function ParseNumber(text: string, i: nat, last: bool, dbl: nat -> real): Parsed {
    var sign := Sign(text, i);
    ParseUnsigned(text, sign.1, sign.0, last, dbl)
  }

  /** The conversion of a double to an integer type: toward zero. */
  function Truncate(x: real): int {
    if x < 0.0 then -(-x).Floor else x.Floor
  }

  datatype Outcome = Read(values: seq<int>, next: nat) | ParseError | OutOfModel

  function ParseNumbers(text: string, i: nat, count: nat, dbl: nat -> real): Outcome
    decreases count
  {
    if count == 0 then Read([], i)
    else
      match ParseNumber(text, i, count == 1, dbl)
      case Malformed => ParseError
      case Unmodelled => OutOfModel
      case Number(value, next) =>
        match ParseNumbers(text, next, count - 1, dbl)
        case Read(values, end) => Read([Truncate(value)] + values, end)
        case other => other
  }

  method CollectInteger(text: string, i: nat) returns (num: uint64, end: nat)
    requires IsDigit(At(text, i))
    ensures end == DigitsEnd(text, i) && num as nat == Accumulated(text, i, end)
  {
    num, end := DigitValue(At(text, i)) as uint64, i + 1;
    while IsDigit(At(text, end))
      invariant i < end && forall k :: i <= k < end ==> IsDigit(At(text, k))
      invariant DigitsEnd(text, i) == DigitsEnd(text, end)
      invariant num as nat == Accumulated(text, i, end)
      decreases |text| - end
    {
      if num as nat <= SUB_MAX {
        num := num * 10;
        num := num + DigitValue(At(text, end)) as uint64;
      }
      end := end + 1;
    }
  }

  method CollectFraction(text: string, i: nat) returns (num: uint64, divisor: real, end: nat)
    requires IsDigit(At(text, i))
    ensures end == DigitsEnd(text, i) && num as nat == Accumulated(text, i, end) && divisor == Divisor(text, i, end)
  {
    num, end, divisor := DigitValue(At(text, i)) as uint64, i + 1, 10.0;
    while IsDigit(At(text, end))
      invariant i < end && forall k :: i <= k < end ==> IsDigit(At(text, k))
      invariant DigitsEnd(text, i) == DigitsEnd(text, end)
      invariant num as nat == Accumulated(text, i, end) && divisor == Divisor(text, i, end)
      decreases |text| - end
    {
      if num as nat <= SUB_MAX {
        num := num * 10;
        num := num + DigitValue(At(text, end)) as uint64;
        divisor := divisor * 10.0;
      }
      end := end + 1;
    }
  }

  lemma DigitsEndAt(text: string, i: nat)
    ensures IsDigit(At(text, i)) <==> i < DigitsEnd(text, i)
  {
  }

  method ScanNumber(text: string, i: nat, last: bool, dbl: nat -> real) returns (parsed: Parsed)
    ensures parsed == ParseNumber(text, i, last, dbl)
  {
    hide ParseUnsigned;
    var p, neg := i, 1.0;
    if At(text, p) == '-' {
      neg, p := -1.0, p + 1;
    } else if At(text, p) == '+' {
      p := p + 1;
    }
    parsed := ScanUnsigned(text, p, neg, last, dbl);
  }

  method ScanUnsigned(text: string, i: nat, neg: real, last: bool, dbl: nat -> real) returns (parsed: Parsed)
    ensures parsed == ParseUnsigned(text, i, neg, last, dbl)
  {
    hide DigitsEnd, Accumulated, Divisor, Ratio, Signed;
    var p, val := i, 0.0;
    if At(text, p) == 'I' || At(text, p) == 'N' {
      return Unmodelled;
    }
    DigitsEndAt(text, p);
    if IsDigit(At(text, p)) {
      var num, end := CollectInteger(text, p);
      val, p := dbl(num as nat), end;
    }
    assert IntegerPart(text, i, dbl) == (val, p);
    hide IntegerPart;
    if At(text, p) == '.' {
      p := p + 1;
      DigitsEndAt(text, p);
      if !IsDigit(At(text, p)) {
        return Malformed;
      }
      var num, divisor, end := CollectFraction(text, p);
      val, p := val + Ratio(dbl(num as nat), divisor), end;
    }
    if At(text, p) == 'E' || At(text, p) == 'e' {
      return Unmodelled;
    }
    if At(text, p) != ' ' {
      if !last {
        return Malformed;
      }
    } else {
      p := p + 1;
    }
    return Number(Signed(val, neg), p);
  }

  /** The parser: `count` numbers from a cursor on. */
  method TextToNumericData(text: string, from: nat, count: nat, dbl: nat -> real) returns (outcome: Outcome)
    ensures outcome == ParseNumbers(text, from, count, dbl)
  {
    hide ParseNumber;
    var values: seq<int>, p, n := [], from, 0;
    while n < count
      invariant 0 <= n <= count
      invariant ParseNumbers(text, from, count, dbl) == Prefixed(values, ParseNumbers(text, p, count - n, dbl))
    {
      var parsed := ScanNumber(text, p, n == count - 1, dbl);
      match parsed {
        case Malformed => return ParseError;
        case Unmodelled => return OutOfModel;
        case Number(value, next) =>
          PrefixedTwice(values, Truncate(value), ParseNumbers(text, next, count - n - 1, dbl));
          values, p := values + [Truncate(value)], next;
      }
      n := n + 1;
    }
    return Read(values, p);
  }

  ghost function Prefixed(values: seq<int>, outcome: Outcome): Outcome {
    if outcome.Read? then Read(values + outcome.values, outcome.next) else outcome
  }

  lemma PrefixedTwice(values: seq<int>, value: int, outcome: Outcome)
    ensures Prefixed(values, Prefixed([value], outcome)) == Prefixed(values + [value], outcome)
  {
    if outcome.Read? {
      assert values + ([value] + outcome.values) == values + [value] + outcome.values;
    }
  }

  // ----------------------------------------------------------------------------------- what a text means

  /** The number that a text has at `i`: a sign, digits up to `b`, and after a point digits up to `c`. */
  ghost function DecimalValue(text: string, i: nat, a: nat, b: nat, c: nat): real
    requires a <= b && forall k :: a <= k < b ==> IsDigit(At(text, k))
    requires c == b || (b < c && forall k :: b < k < c ==> IsDigit(At(text, k)))
  {
    var whole := Value(text, a, b) as real;
    var size := if c == b then whole else whole + Ratio(Value(text, b + 1, c) as real, Power10(c - b - 1) as real);
    if At(text, i) == '-' then -size else size
  }

  /** Where the digits before and after the point end. */
  ghost predicate Digitwise(text: string, a: nat, b: nat, c: nat) {
    && a <= b && (forall k :: a <= k < b ==> IsDigit(At(text, k))) && !IsDigit(At(text, b))
    && if At(text, b) == '.' then
         b < c && (forall k :: b < k < c ==> IsDigit(At(text, k))) && !IsDigit(At(text, c))
       else c == b
  }

  /**
   * What is taken for a number, and with which value: digits may be missing, altogether even, but not after a point;
   * a space must end it unless it is the last. Up to 15 digits on either side of the point are held exactly.
   */
  lemma NumberExactly(text: string, i: nat, a: nat, b: nat, c: nat, last: bool, dbl: nat -> real)
    requires a == if At(text, i) == '-' || At(text, i) == '+' then i + 1 else i
    requires Digitwise(text, a, b, c) && b - a <= 15 && c - b <= 16 && ExactTo53(dbl)
    ensures ParseNumber(text, i, last, dbl)
         == if At(text, a) == 'I' || At(text, a) == 'N' then Unmodelled
            else if At(text, b) == '.' && c == b + 1 then Malformed
            else if At(text, c) == 'E' || At(text, c) == 'e' then Unmodelled
            else if At(text, c) == ' ' then Number(DecimalValue(text, i, a, b, c), c + 1)
            else if last then Number(DecimalValue(text, i, a, b, c), c)
            else Malformed
  {
    EndOfDigits(text, a, b);
    if At(text, b) == '.' {
      EndOfDigits(text, b + 1, c);
    }
    WholePart(text, a, b, dbl);
    PartBehindPoint(text, b, c, dbl);
    hide DigitsEnd, Accumulated, Divisor, Value, Ratio, Power10, IntegerPart, FractionPart, ExactTo53;
  }

  lemma WholePart(text: string, a: nat, b: nat, dbl: nat -> real)
    requires a <= b <= a + 15 && forall k :: a <= k < b ==> IsDigit(At(text, k))
    requires DigitsEnd(text, a) == b && ExactTo53(dbl)
    ensures IntegerPart(text, a, dbl) == (Value(text, a, b) as real, b)
  {
    hide DigitsEnd, Accumulated, Divisor, Power10;
    if a < b {
      ShortIsExact(text, a, b, dbl);
    }
  }

  lemma PartBehindPoint(text: string, b: nat, c: nat, dbl: nat -> real)
    requires b <= c <= b + 16 && forall k :: b < k < c ==> IsDigit(At(text, k))
    requires if At(text, b) == '.' then b < c && DigitsEnd(text, b + 1) == c else c == b
    requires ExactTo53(dbl)
    ensures FractionPart(text, b, dbl)
         == if c == b then Some((0.0, b))
            else if c == b + 1 then None
            else Some((Ratio(Value(text, b + 1, c) as real, Power10(c - b - 1) as real), c))
  {
    hide DigitsEnd, Accumulated, Divisor, Power10, Value, Ratio;
    if b + 1 < c {
      ShortIsExact(text, b + 1, c, dbl);
    }
  }

  lemma ShortIsExact(text: string, i: nat, j: nat, dbl: nat -> real)
    requires i < j <= i + 15 && (forall k :: i <= k < j ==> IsDigit(At(text, k))) && ExactTo53(dbl)
    ensures dbl(Accumulated(text, i, j)) == Value(text, i, j) as real
    ensures Divisor(text, i, j) == Power10(j - i) as real
  {
    hide Accumulated, Divisor, Power10, Value;
    TakesAllDigits(text, i, j);
    ShortIsSmall(text, i, j);
  }

  lemma ShortIsSmall(text: string, i: nat, j: nat)
    requires i < j <= i + 15 && forall k :: i <= k < j ==> IsDigit(At(text, k))
    ensures Value(text, i, j) <= TWO_53
  {
    hide Power10, Value;
    ValueBelowPower(text, i, j);
    PowersGrow(j - i, 15);
    FifteenDigits();
  }

  lemma FifteenDigits()
    ensures Power10(15) <= TWO_53
  {
    assert Power10(5) == 100_000;
    assert Power10(10) == 100_000 * Power10(5);
    assert Power10(15) == 100_000 * Power10(10);
  }

  lemma TruncatesTowardZero(x: real)
    ensures x >= 0.0 ==> 0.0 <= Truncate(x) as real <= x < Truncate(x) as real + 1.0
    ensures x <= 0.0 ==> Truncate(x) as real - 1.0 < x <= Truncate(x) as real <= 0.0
  {
  }

  /** The numbers that the parser gets through, one behind the other, and what becomes of them. */
  ghost predicate InOrder(text: string, count: nat, dbl: nat -> real, at: seq<nat>, numbers: seq<real>) {
    && |at| == |numbers| + 1 && |numbers| <= count
    && forall n :: 0 <= n < |numbers| ==>
         ParseNumber(text, at[n], n == count - 1, dbl) == Number(numbers[n], at[n + 1])
  }

  lemma {:induction false} ReadsInOrder(text: string, i: nat, count: nat, dbl: nat -> real)
    returns (at: seq<nat>, numbers: seq<real>)
    ensures InOrder(text, count, dbl, at, numbers) && at[0] == i
    ensures
      var n, outcome := |numbers|, ParseNumbers(text, i, count, dbl);
      if n == count then
        && outcome.Read? && outcome.next == at[n] && |outcome.values| == n
        && forall k :: 0 <= k < n ==> outcome.values[k] == Truncate(numbers[k])
      else
        var failed := ParseNumber(text, at[n], n == count - 1, dbl);
        !failed.Number? && outcome == if failed.Malformed? then ParseError else OutOfModel
    decreases count
  {
    hide ParseNumber, Truncate;
    at, numbers := [i], [];
    if count > 0 {
      var parsed := ParseNumber(text, i, count == 1, dbl);
      if parsed.Number? {
        var rest, more := ReadsInOrder(text, parsed.next, count - 1, dbl);
        at, numbers := [i] + rest, [parsed.value] + more;
        forall n | 0 <= n < |numbers|
          ensures ParseNumber(text, at[n], n == count - 1, dbl) == Number(numbers[n], at[n + 1])
        {
          if n > 0 {
            assert ParseNumber(text, rest[n - 1], n - 1 == count - 2, dbl) == Number(more[n - 1], rest[n]);
          }
        }
      }
    }
  }

  // ---------------------------------------------------------------------------------------- round trip

  /** At `i` the text goes on with `s`. */
  ghost predicate Follows(text: string, i: nat, s: string) {
    i + |s| <= |text| && text[i..i + |s|] == s
  }

  lemma {:induction false} EndOfDigits(text: string, i: nat, j: nat)
    requires i <= j && !IsDigit(At(text, j)) && forall k :: i <= k < j ==> IsDigit(At(text, k))
    ensures DigitsEnd(text, i) == j
    decreases j - i
  {
    if i < j {
      EndOfDigits(text, i + 1, j);
    }
  }

  lemma {:induction false} AccumulatesDecimal(text: string, i: nat, n: nat)
    requires Follows(text, i, Decimal(n)) && n <= 10 * SUB_MAX + 9
    ensures forall k :: i <= k < i + |Decimal(n)| ==> IsDigit(At(text, k))
    ensures Accumulated(text, i, i + |Decimal(n)|) == n
    decreases n
  {
    var s, j := Decimal(n), i + |Decimal(n)|;
    forall k | i <= k < j ensures At(text, k) == s[k - i] {
      assert text[i..j][k - i] == text[k];
    }
    if n >= 10 {
      assert s == Decimal(n / 10) + [DigitChar(n % 10)];
      FollowsHead(text, i, Decimal(n / 10), [DigitChar(n % 10)]);
      AccumulatesDecimal(text, i, n / 10);
      assert At(text, j - 1) == DigitChar(n % 10);
    }
  }

  lemma FollowsHead(text: string, i: nat, head: string, rest: string)
    requires Follows(text, i, head + rest)
    ensures Follows(text, i, head)
  {
    assert text[i..i + |head|] == text[i..i + |head + rest|][..|head|];
  }

  lemma FollowsDigits(text: string, i: nat, s: string)
    requires Follows(text, i, s) && forall k :: 0 <= k < |s| ==> IsDigit(s[k])
    ensures forall k :: i <= k < i + |s| ==> IsDigit(At(text, k))
  {
    forall k | i <= k < i + |s| ensures At(text, k) == s[k - i] {
      assert text[i..i + |s|][k - i] == text[k];
    }
  }

  /** The accumulator holds the number exactly as long as it has not stopped collecting. */
  lemma AccumulatesExactly(text: string, i: nat, n: nat)
    requires Follows(text, i, Decimal(n))
    ensures forall k :: i <= k < i + |Decimal(n)| ==> IsDigit(At(text, k))
    ensures Accumulated(text, i, i + |Decimal(n)|) == n <==> n <= 10 * SUB_MAX + 9
  {
    FollowsDigits(text, i, Decimal(n));
    if n <= 10 * SUB_MAX + 9 {
      AccumulatesDecimal(text, i, n);
    }
  }

  lemma ParsesMagnitude(text: string, i: nat, n: nat, neg: real, last: bool, dbl: nat -> real)
    requires Follows(text, i, Decimal(n)) && n <= TWO_53 && ExactTo53(dbl)
    requires At(text, i + |Decimal(n)|) == ' ' || At(text, i + |Decimal(n)|) == NUL
    ensures IsDigit(At(text, i))
    ensures ParseUnsigned(text, i, neg, last, dbl) == Close(text, i + |Decimal(n)|, Signed(n as real, neg), last)
  {
    var end := i + |Decimal(n)|;
    AccumulatesDecimal(text, i, n);
    EndOfDigits(text, i, end);
    hide DigitsEnd, Accumulated, Decimal, Follows, Close, Ratio, Signed;
    assert n as real + 0.0 == n as real;
    assert dbl(n) == n as real;
    assert IntegerPart(text, i, dbl) == (n as real, end);
    assert FractionPart(text, end, dbl) == Some((0.0, end));
    hide IntegerPart, FractionPart;
  }

  lemma PrintedSign(text: string, i: nat, v: int)
    requires Follows(text, i, Print(v))
    ensures var n, at := if v < 0 then -v else v, if v < 0 then i + 1 else i;
            && Sign(text, i) == (if v < 0 then -1.0 else 1.0, at)
            && Follows(text, at, Decimal(n)) && at + |Decimal(n)| == i + |Print(v)|
  {
    hide Decimal;
    if v < 0 {
      FollowsMinus(text, i, Decimal(-v));
    } else {
      FollowsFirst(text, i, Decimal(v));
    }
  }

  lemma FollowsMinus(text: string, i: nat, digits: string)
    requires Follows(text, i, "-" + digits)
    ensures At(text, i) == '-' && Follows(text, i + 1, digits)
  {
    var s := "-" + digits;
    assert text[i..i + |s|][0] == text[i];
    assert text[i + 1..i + 1 + |digits|] == text[i..i + |s|][1..];
  }

  lemma FollowsFirst(text: string, i: nat, s: string)
    requires Follows(text, i, s) && s != [] && IsDigit(s[0])
    ensures At(text, i) == s[0]
  {
    assert text[i..i + |s|][0] == text[i];
  }

  lemma SignedInteger(v: int, n: nat, neg: real)
    requires n == if v < 0 then -v else v
    requires neg == if v < 0 then -1.0 else 1.0
    ensures Signed(n as real, neg) == v as real
  {
  }

  /** A printed number parses as itself, together with the space after it. */
  lemma ParsesPrinted(text: string, i: nat, v: int, last: bool, dbl: nat -> real)
    requires Follows(text, i, Print(v)) && -TWO_53 <= v <= TWO_53 && ExactTo53(dbl)
    requires At(text, i + |Print(v)|) == ' ' || (last && i + |Print(v)| == |text|)
    ensures ParseNumber(text, i, last, dbl)
         == Number(v as real, i + |Print(v)| + if At(text, i + |Print(v)|) == ' ' then 1 else 0)
  {
    hide Decimal, ExactTo53, Follows, ParseUnsigned, Sign, Print, Signed;
    var n: nat, at := if v < 0 then -v else v, if v < 0 then i + 1 else i;
    PrintedSign(text, i, v);
    ParsesMagnitude(text, at, n, Sign(text, i).0, last, dbl);
    SignedInteger(v, n, Sign(text, i).0);
  }

  lemma {:induction false} SpacedFront(v: int, values: seq<int>)
    ensures Spaced([v] + values) == Print(v) + " " + Spaced(values)
  {
    hide Print;
    if values == [] {
      assert ([v] + values)[..0] == [];
      assert Spaced([]) == "";
      assert "" + Print(v) + " " == Print(v) + " " + "";
    } else {
      var last := |values| - 1;
      assert ([v] + values)[..|values|] == [v] + values[..last];
      SpacedFront(v, values[..last]);
      Regroup(Print(v) + " ", Spaced(values[..last]), Print(values[last]), " ");
    }
  }

  lemma SpacedNotEmpty(values: seq<int>)
    requires values != []
    ensures Spaced(values) != ""
  {
  }

  /** From `i` on, the text is that of some numbers. */
  ghost predicate Left(text: string, i: nat, values: seq<int>) {
    i <= |text| && text[i..] == Trimmed(Spaced(values))
  }

  /** The text of some numbers that are followed by more: the cursor ends where the text of the others starts. */
  lemma {:induction false} ParsesSpaced(text: string, i: nat, values: seq<int>, more: seq<int>, dbl: nat -> real)
    returns (next: nat)
    requires Left(text, i, values + more)
    requires ExactTo53(dbl) && forall k :: 0 <= k < |values| ==> -TWO_53 <= values[k] <= TWO_53
    ensures ParseNumbers(text, i, |values|, dbl) == Read(values, next)
    ensures Left(text, next, more)
    decreases |values|
  {
    hide *;
    if values == [] {
      assert values + more == more;
      ReadsNone(text, i, dbl);
      next := i;
    } else {
      var v, rest := values[0], values[1..] + more;
      assert values + more == [v] + rest;
      var end := ParsesFirst(text, i, v, rest, |values| == 1, dbl);
      next := ParsesSpaced(text, end, values[1..], more, dbl);
      ReadsOne(text, i, |values|, v, end, values[1..], next, dbl);
      assert values == [v] + values[1..];
    }
  }

  lemma ReadsNone(text: string, i: nat, dbl: nat -> real)
    ensures ParseNumbers(text, i, 0, dbl) == Read([], i)
  {
  }

  /** The first of some printed numbers parses as itself, and leaves the text of the rest. */
  lemma ParsesFirst(text: string, i: nat, v: int, rest: seq<int>, last: bool, dbl: nat -> real) returns (end: nat)
    requires Left(text, i, [v] + rest) && (rest == [] ==> last)
    requires ExactTo53(dbl) && -TWO_53 <= v <= TWO_53
    ensures ParseNumber(text, i, last, dbl) == Number(v as real, end)
    ensures Left(text, end, rest)
  {
    hide *;
    if rest == [] {
      PrintedLast(text, i, v);
    } else {
      PrintedBefore(text, i, v, rest);
    }
    ParsesPrinted(text, i, v, last, dbl);
    end := i + |Print(v)| + if At(text, i + |Print(v)|) == ' ' then 1 else 0;
  }

  lemma ReadsOne(text: string, i: nat, count: nat, v: int, next: nat, values: seq<int>, end: nat, dbl: nat -> real)
    requires count > 0 && ParseNumber(text, i, count == 1, dbl) == Number(v as real, next)
    requires ParseNumbers(text, next, count - 1, dbl) == Read(values, end)
    ensures ParseNumbers(text, i, count, dbl) == Read([v] + values, end)
  {
    hide ParseNumber;
    assert Truncate(v as real) == v;
  }

  lemma PrintedLast(text: string, i: nat, v: int)
    requires Left(text, i, [v] + [])
    ensures Follows(text, i, Print(v))
    ensures At(text, i + |Print(v)|) == NUL != ' ' && i + |Print(v)| == |text|
    ensures Left(text, i + |Print(v)|, [])
  {
    var s := Print(v);
    SpacedFront(v, []);
    hide Print;
    assert Trimmed(s + " " + Spaced([])) == s;
    assert text[i..i + |s|] == text[i..];
  }

  lemma PrintedBefore(text: string, i: nat, v: int, rest: seq<int>)
    requires Left(text, i, [v] + rest) && rest != []
    ensures Follows(text, i, Print(v))
    ensures At(text, i + |Print(v)|) == ' ' && i + |Print(v)| < |text|
    ensures Left(text, i + |Print(v)| + 1, rest)
  {
    SpacedNotEmpty(rest);
    SpacedFront(v, rest);
    hide Print, Spaced, Trimmed;
    CutTrimmed(text, i, Print(v), Spaced(rest));
  }

  lemma CutTrimmed(text: string, i: nat, s: string, w: string)
    requires w != "" && i <= |text| && text[i..] == Trimmed(s + " " + w)
    ensures i + |s| < |text| && text[i..i + |s|] == s && text[i + |s|] == ' ' && text[i + |s| + 1..] == Trimmed(w)
  {
    assert Trimmed(s + " " + w) == s + " " + Trimmed(w);
    hide Trimmed;
    Cut(text, i, s, Trimmed(w));
  }

  lemma Cut(text: string, i: nat, s: string, rest: string)
    requires i <= |text| && text[i..] == s + " " + rest
    ensures i + |s| < |text| && text[i..i + |s|] == s && text[i + |s|] == ' ' && text[i + |s| + 1..] == rest
  {
    assert text[i..i + |s|] == text[i..][..|s|];
    assert text[i + |s|] == text[i..][|s|];
    assert text[i + |s| + 1..] == text[i..][|s| + 1..];
  }

  // ------------------------------------------------------------------------------------- array nodes

  datatype Refusal = Accepted | NoRealData | UnexpectedImaginary | InterleavedInTwo | ReadComplexFromReal
                   | ReadRealFromComplex | BadText | NotAtEnd | UnmodelledText

  /** Integers that a double holds exactly. */
  ghost predicate Exact(values: seq<int>) {
    forall k :: 0 <= k < |values| ==> -TWO_53 <= values[k] <= TWO_53
  }

  /** A numeric array in a node: its type, its number of elements and its text. */
  class ArrayNode {
    var format: Format
    var count: nat
    var text: string

    constructor ()
      ensures !format.complex && count == 0 && text == ""
    {
      format, count, text := Format(false, false), 0, "";
    }

    /** What has been written can be read: the text is that of the values, as many as the type needs. */
    ghost predicate Has(values: seq<int>)
      reads this
    {
      && text == Trimmed(Spaced(values))
      && |values| == if format.complex then 2 * count else count
    }

    /**
     * setRaw: `elements` is the product of the dimensions; each block holds that many numbers, or twice as many
     * when complex data comes in one block.
     */
    method SetRaw(elements: nat, format: Format, re: Option<seq<int>>, im: Option<seq<int>>) returns (refusal: Refusal)
      requires re.Some? ==> Sixty4Bits(re.value) && |re.value| == BlockSize(elements, format, im)
      requires im.Some? ==> Sixty4Bits(im.value) && |im.value| == BlockSize(elements, format, im)
      modifies this
      ensures refusal == NoRealData <==> elements > 0 && re.None?
      ensures refusal == UnexpectedImaginary <==> elements > 0 && re.Some? && !format.complex && im.Some?
      ensures refusal == InterleavedInTwo <==>
              format.interleaved && im.Some? && (elements == 0 || (re.Some? && format.complex))
      ensures refusal in {Accepted, NoRealData, UnexpectedImaginary, InterleavedInTwo}
      ensures refusal == Accepted ==>
                && this.format == format && count == elements
                && Has((if re.Some? then re.value else []) + if im.Some? then im.value else [])
    {
      if elements != 0 {
        if re.None? {
          return NoRealData;
        }
        if !format.complex && im.Some? {
          return UnexpectedImaginary;
        }
      }
      this.format := format;
      count := elements;
      if im.Some? && format.interleaved {
        return InterleavedInTwo;
      }
      text := NumericDataToText(if re.Some? then re.value else [], im);
      return Accepted;
    }

    /** getRaw: reads the real block, then the imaginary one, and expects the end of the text. */
    method GetRaw(wantImag: bool, dbl: nat -> real) returns (refusal: Refusal, re: seq<int>, im: seq<int>)
      ensures refusal == ReadComplexFromReal <==> wantImag && !format.complex
      ensures refusal == ReadRealFromComplex <==> !wantImag && format.complex
      ensures wantImag == format.complex ==>
                (refusal, re, im) == Reading(text, count, if format.complex then 2 else 1, dbl)
    {
      re, im := [], [];
      if wantImag && !format.complex {
        return ReadComplexFromReal, re, im;
      }
      if !wantImag && format.complex {
        return ReadRealFromComplex, re, im;
      }
      var outcome := TextToNumericData(text, 0, count, dbl);
      if !outcome.Read? {
        return if outcome == ParseError then BadText else UnmodelledText, re, im;
      }
      re := outcome.values;
      if format.complex {
        outcome := TextToNumericData(text, outcome.next, count, dbl);
        if !outcome.Read? {
          return if outcome == ParseError then BadText else UnmodelledText, re, im;
        }
        im := outcome.values;
      }
      return if At(text, outcome.next) != NUL then NotAtEnd else Accepted, re, im;
    }
  }

  /** How many numbers a block holds. */
  function BlockSize(elements: nat, format: Format, im: Option<seq<int>>): nat {
    if format.complex && im.None? then 2 * elements else elements
  }

  /** What reading one or two phases of `count` numbers from the start of a text gives. */
  ghost function Reading(text: string, count: nat, phases: nat, dbl: nat -> real): (Refusal, seq<int>, seq<int>) {
    match ParseNumbers(text, 0, count, dbl)
    case ParseError => (BadText, [], [])
    case OutOfModel => (UnmodelledText, [], [])
    case Read(re, next) =>
      if phases == 1 then (if At(text, next) != NUL then NotAtEnd else Accepted, re, [])
      else
        match ParseNumbers(text, next, count, dbl)
        case ParseError => (BadText, re, [])
        case OutOfModel => (UnmodelledText, re, [])
        case Read(im, end) => (if At(text, end) != NUL then NotAtEnd else Accepted, re, im)
  }

  /**
   * What comes of reading: it is refused for a number in either phase that is none, or for text behind the last
   * one; the second phase goes on where the first has ended.
   */
  lemma ReadingExactly(text: string, count: nat, phases: nat, dbl: nat -> real)
    requires 1 <= phases <= 2
    ensures
      var one := ParseNumbers(text, 0, count, dbl);
      var end := if one.Read? && phases == 2 then ParseNumbers(text, one.next, count, dbl) else one;
      var (refusal, re, im) := Reading(text, count, phases, dbl);
      && (refusal == BadText <==> one == ParseError || end == ParseError)
      && (refusal == UnmodelledText <==> one == OutOfModel || end == OutOfModel)
      && (refusal == NotAtEnd <==> end.Read? && end.next < |text| && text[end.next] != NUL)
      && (refusal == Accepted <==> end.Read? && !(end.next < |text| && text[end.next] != NUL))
      && re == (if one.Read? then one.values else [])
      && im == (if phases == 2 && end.Read? then end.values else [])
  {
    hide ParseNumbers;
  }

  /**
   * The round trip: whatever blocks integers up to 2^53 are written in, reading gives the same numbers back, the
   * first half as real and the second as imaginary parts, and the whole text is consumed.
   */
  lemma RoundTrip(text: string, re: seq<int>, im: seq<int>, dbl: nat -> real)
    requires text == Trimmed(Spaced(re + im)) && Exact(re) && Exact(im) && ExactTo53(dbl)
    ensures im == [] ==> Reading(text, |re|, 1, dbl) == (Accepted, re, [])
    ensures |im| == |re| ==> Reading(text, |re|, 2, dbl) == (Accepted, re, im)
  {
    assert text[0..] == text;
    assert Left(text, 0, re + im);
    hide *;
    if im == [] {
      assert re + im == re + [];
      ReadsReal(text, re, dbl);
    }
    if |im| == |re| {
      ReadsComplex(text, re, im, dbl);
    }
  }

  lemma ReadsReal(text: string, re: seq<int>, dbl: nat -> real)
    requires Left(text, 0, re + []) && Exact(re) && ExactTo53(dbl)
    ensures Reading(text, |re|, 1, dbl) == (Accepted, re, [])
  {
    hide *;
    ExactIsExact(re);
    var next := ParsesSpaced(text, 0, re, [], dbl);
    AtEnd(text, next);
    OnePhase(text, |re|, dbl, re, next);
  }

  lemma ReadsComplex(text: string, re: seq<int>, im: seq<int>, dbl: nat -> real)
    requires Left(text, 0, re + im) && Exact(re) && Exact(im) && |im| == |re| && ExactTo53(dbl)
    ensures Reading(text, |re|, 2, dbl) == (Accepted, re, im)
  {
    hide *;
    ExactIsExact(re);
    ExactIsExact(im);
    var next := ParsesSpaced(text, 0, re, im, dbl);
    assert im + [] == im;
    var end := ParsesSpaced(text, next, im, [], dbl);
    AtEnd(text, end);
    TwoPhases(text, |re|, dbl, re, next, im, end);
  }

  lemma ExactIsExact(values: seq<int>)
    requires Exact(values)
    ensures forall k :: 0 <= k < |values| ==> -TWO_53 <= values[k] <= TWO_53
  {
  }

  lemma OnePhase(text: string, count: nat, dbl: nat -> real, re: seq<int>, next: nat)
    requires ParseNumbers(text, 0, count, dbl) == Read(re, next) && At(text, next) == NUL
    ensures Reading(text, count, 1, dbl) == (Accepted, re, [])
  {
    hide ParseNumbers, At;
  }

  lemma TwoPhases(text: string, count: nat, dbl: nat -> real, re: seq<int>, next: nat, im: seq<int>, end: nat)
    requires ParseNumbers(text, 0, count, dbl) == Read(re, next)
    requires ParseNumbers(text, next, count, dbl) == Read(im, end) && At(text, end) == NUL
    ensures Reading(text, count, 2, dbl) == (Accepted, re, im)
  {
    hide ParseNumbers, At;
  }

  lemma AtEnd(text: string, end: nat)
    requires Left(text, end, [])
    ensures At(text, end) == NUL
  {
  }
}
