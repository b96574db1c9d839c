/**
 * The Mersenne Twister: an in-place generator refines a recurrence.
 *
 * The meaning of the generator is the infinite sequence X(origin, 0), X(origin, 1), ... that continues N given
 * words; the class keeps one block of N consecutive words of it, and overwrites that block in place.
 */
module MersenneTwister {
  import opened TwisterWords

  ghost predicate AllFit(words: seq<bv64>) {
    forall k :: 0 <= k < |words| ==> Fits(words[k])
  }

  // -------------------------------------------------------------------------------------- recurrence

  /** The sequence that continues the N words of `origin`: x(k+N) = twist(x(k+M), x(k), x(k+1)). */
  ghost function X(origin: seq<bv64>, k: nat): bv64
    requires |origin| == N
  {
    if k < N then origin[k]
    else Twist(X(origin, k - N + M), X(origin, k - N), X(origin, k - N + 1))
  }

  /** The first `count` outputs from number `at` on are all above `n` under the mask. */
  ghost predicate AllRejected(origin: seq<bv64>, at: nat, count: nat, n: bv64)
    requires |origin| == N
  {
    forall k :: 0 <= k < count ==> Masked(Output(origin, at, k), n) > n
  }

  lemma NoneRejected(origin: seq<bv64>, at: nat, n: bv64)
    requires |origin| == N
    ensures AllRejected(origin, at, 0, n)
  {
  }

  lemma OneMoreRejected(origin: seq<bv64>, at: nat, count: nat, n: bv64)
    requires |origin| == N && AllRejected(origin, at, count, n) && Rejected(Output(origin, at, count), n)
    ensures AllRejected(origin, at, count + 1, n)
  {
    hide Output, Masked;
  }

  lemma OutputFrom(origin: seq<bv64>, at: nat, m: nat, n: nat)
    requires |origin| == N
    ensures Output(origin, at + m, n) == Output(origin, at, n + m)
  {
    hide X, Temper;
    assert at + m + n == at + (n + m);
  }

  lemma NextWord(origin: seq<bv64>, k: nat)
    requires |origin| == N
    ensures X(origin, k + N) == Twist(X(origin, k + M), X(origin, k), X(origin, k + 1))
  {
    hide Twist;
  }

  /** Output `n` of a generator whose next word is number `at` of the sequence. */
  ghost function Output(origin: seq<bv64>, at: nat, n: nat): bv64
    requires |origin| == N
  {
    Temper(X(origin, at + n))
  }

  lemma {:induction false} SequenceFits(origin: seq<bv64>, k: nat)
    requires |origin| == N && AllFit(origin)
    ensures Fits(X(origin, k))
  {
    hide Twist, Fits;
    if k < N {
      assert Fits(origin[k]);
    } else {
      SequenceFits(origin, k - N + M);
      TwistFits(X(origin, k - N + M), X(origin, k - N), X(origin, k - N + 1));
    }
  }

  /** Any N consecutive words of the sequence determine the rest of it. */
  lemma {:induction false} Restart(origin: seq<bv64>, base: nat, words: seq<bv64>, k: nat)
    requires |origin| == N && |words| == N
    requires forall i :: 0 <= i < N ==> words[i] == X(origin, base + i)
    ensures X(words, k) == X(origin, base + k)
  {
    hide Twist;
    if k >= N {
      Restart(origin, base, words, k - N + M);
      Restart(origin, base, words, k - N);
      Restart(origin, base, words, k - N + 1);
    }
  }

  /** The sequence tells what came before: each word gives the top bit of the word 624 back and the other bits of the
      word after that one. */
  lemma Rewinds(origin: seq<bv64>, k: nat)
    requires |origin| == N
    ensures Untwist(X(origin, k + 397), X(origin, k + 624)) == Seam(X(origin, k), X(origin, k + 1))
  {
    hide Twist, Untwist, Seam, X;
    NextWord(origin, k);
    TwistUndone(X(origin, k + 397), X(origin, k), X(origin, k + 1));
  }

  /** 624 outputs in a row determine all later ones, as tempering loses nothing. */
  lemma OutputsDetermine(origin: seq<bv64>, at: nat, other: seq<bv64>, from: nat, n: nat)
    requires |origin| == N == |other| && AllFit(origin) && AllFit(other)
    requires forall k: nat :: k < 624 ==> Output(origin, at, k) == Output(other, from, k)
    ensures Output(origin, at, n) == Output(other, from, n)
  {
    var words := seq(N, k requires 0 <= k < N => X(origin, at + k));
    hide X, Temper, Untemper, AllFit, Fits;
    forall i: nat | i < N ensures words[i] == X(other, from + i) {
      assert Output(origin, at, i) == Output(other, from, i);
      SequenceFits(origin, at + i);
      SequenceFits(other, from + i);
      TemperUndone(X(origin, at + i));
      TemperUndone(X(other, from + i));
    }
    Restart(origin, at, words, n);
    Restart(other, from, words, n);
  }

  /** Every output is below 2^32, although the word type is wider. */
  lemma OutputFits(origin: seq<bv64>, at: nat, n: nat)
    requires |origin| == N && AllFit(origin)
    ensures Fits(Output(origin, at, n))
  {
    hide Temper, Fits;
    SequenceFits(origin, at + n);
    TemperFits(X(origin, at + n));
  }

  // ----------------------------------------------------------------------------------------- seeding

  /** Word `i` of the state that a single seed gives. */
  ghost function SeedWord(seed: bv64, i: nat): bv64
    requires i < N
  {
    if i == 0 then seed & MASK else Knuth(SeedWord(seed, i - 1), Word(i))
  }

  ghost function SeedWords(seed: bv64): (words: seq<bv64>)
    ensures |words| == N && AllFit(words)
  {
    hide Fits;
    assert forall i: nat :: i < N ==> Fits(SeedWord(seed, i)) by {
      forall i: nat | i < N ensures Fits(SeedWord(seed, i)) { SeedWordFits(seed, i); }
    }
    seq(N, i requires 0 <= i < N => SeedWord(seed, i))
  }

  lemma SeedWordFits(seed: bv64, i: nat)
    requires i < N
    ensures Fits(SeedWord(seed, i))
  {
    if i > 0 {
      KnuthFits(SeedWord(seed, i - 1), Word(i));
    } else {
      MasksFit(seed);
    }
  }

  /** Bits of the seed above the lower 32 are discarded. */
  lemma {:induction false} HighSeedBitsIgnored(seed: bv64, other: bv64, i: nat)
    requires i < N
    requires seed & MASK == other & MASK
    ensures SeedWord(seed, i) == SeedWord(other, i)
  {
    hide Knuth, Word;
    if i > 0 {
      HighSeedBitsIgnored(seed, other, i - 1);
    }
  }

  /** Seeding from an array: `count` more steps of the first pass, at word `i` and key element `j`. */
  ghost function KeyPass(words: seq<bv64>, i: nat, j: nat, key: seq<bv64>, count: nat): (end: (seq<bv64>, nat))
    requires |words| == N && 1 <= i < N && j < |key| < 0x8000_0000
    ensures |end.0| == N && 1 <= end.1 < N
    decreases count
  {
    if count == 0 then (words, i)
    else
      var mixed := words[i := MixKey(words[i], words[i - 1], key[j], Word(j))];
      var j' := if j + 1 >= |key| then 0 else j + 1;
      if i + 1 >= N then KeyPass(mixed[0 := mixed[N - 1]], 1, j', key, count - 1)
      else KeyPass(mixed, i + 1, j', key, count - 1)
  }

  lemma KeyStep(words: seq<bv64>, i: nat, j: nat, key: seq<bv64>, count: nat, mixed: seq<bv64>)
    requires |words| == N && 1 <= i < N && j < |key| < 0x8000_0000 && count > 0
    requires mixed == words[i := MixKey(words[i], words[i - 1], key[j], Word(j))]
    ensures KeyPass(words, i, j, key, count)
         == (var j' := if j + 1 >= |key| then 0 else j + 1;
             if i + 1 >= N then KeyPass(mixed[0 := mixed[N - 1]], 1, j', key, count - 1)
             else KeyPass(mixed, i + 1, j', key, count - 1))
  {
    hide MixKey, Word;
  }

  lemma KeyEnd(words: seq<bv64>, i: nat, j: nat, key: seq<bv64>)
    requires |words| == N && 1 <= i < N && j < |key| < 0x8000_0000
    ensures KeyPass(words, i, j, key, 0) == (words, i)
  {
  }

  /** The second pass, which mixes in the index. */
  ghost function IndexPass(words: seq<bv64>, i: nat, count: nat): (end: seq<bv64>)
    requires |words| == N && 1 <= i < N
    ensures |end| == N
    decreases count
  {
    if count == 0 then words
    else
      var mixed := words[i := MixIndex(words[i], words[i - 1], Word(i))];
      if i + 1 >= N then IndexPass(mixed[0 := mixed[N - 1]], 1, count - 1)
      else IndexPass(mixed, i + 1, count - 1)
  }

  ghost function KeyWords(key: seq<bv64>): (words: seq<bv64>)
    requires 0 < |key| < 0x8000_0000
    ensures |words| == N
  {
    var first := KeyPass(SeedWords(19650218), 1, 0, key, if N > |key| then N else |key|);
    IndexPass(first.0, first.1, N - 1)[0 := 0x8000_0000]
  }

  lemma {:induction false} KeyPassFits(words: seq<bv64>, i: nat, j: nat, key: seq<bv64>, count: nat)
    requires |words| == N && 1 <= i < N && j < |key| < 0x8000_0000
    requires AllFit(words)
    ensures AllFit(KeyPass(words, i, j, key, count).0)
    decreases count
  {
    hide Fits, MixKey, Word;
    if count > 0 {
      var mixed := words[i := MixKey(words[i], words[i - 1], key[j], Word(j))];
      var j' := if j + 1 >= |key| then 0 else j + 1;
      MixKeyFits(words[i], words[i - 1], key[j], Word(j));
      if i + 1 >= N {
        KeyPassFits(mixed[0 := mixed[N - 1]], 1, j', key, count - 1);
      } else {
        KeyPassFits(mixed, i + 1, j', key, count - 1);
      }
    }
  }

  lemma {:induction false} IndexPassFits(words: seq<bv64>, i: nat, count: nat)
    requires |words| == N && 1 <= i < N
    requires AllFit(words)
    ensures AllFit(IndexPass(words, i, count))
    decreases count
  {
    hide Fits, MixIndex, Word;
    if count > 0 {
      var mixed := words[i := MixIndex(words[i], words[i - 1], Word(i))];
      MixIndexFits(words[i], words[i - 1], Word(i));
      if i + 1 >= N {
        IndexPassFits(mixed[0 := mixed[N - 1]], 1, count - 1);
      } else {
        IndexPassFits(mixed, i + 1, count - 1);
      }
    }
  }

  lemma UpdateFits(words: seq<bv64>, w: bv64)
    requires |words| == N && AllFit(words) && Fits(w)
    ensures AllFit(words[0 := w])
  {
    hide Fits;
  }

  /** The state that a key gives has 32-bit words and is never all zero, which would stick the recurrence. */
  lemma KeyWordsFit(key: seq<bv64>)
    requires 0 < |key| < 0x8000_0000
    ensures AllFit(KeyWords(key)) && KeyWords(key)[0] == 0x8000_0000
  {
    assert Fits(0x8000_0000);
    hide Fits, AllFit, SeedWords, KeyPass, IndexPass;
    var first := KeyPass(SeedWords(19650218), 1, 0, key, if N > |key| then N else |key|);
    KeyPassFits(SeedWords(19650218), 1, 0, key, if N > |key| then N else |key|);
    IndexPassFits(first.0, first.1, N - 1);
    UpdateFits(IndexPass(first.0, first.1, N - 1), 0x8000_0000);
  }

  /** Bits of the key above the lower 32 in each element are discarded. */
  lemma {:induction false} HighKeyBitsIgnored(words: seq<bv64>, i: nat, j: nat, key: seq<bv64>, other: seq<bv64>,
                                              count: nat)
    requires |words| == N && 1 <= i < N && j < |key| == |other| < 0x8000_0000
    requires forall k :: 0 <= k < |key| ==> Lower(key[k]) == Lower(other[k])
    ensures KeyPass(words, i, j, key, count) == KeyPass(words, i, j, other, count)
    decreases count
  {
    hide MixKey, Lower, Word;
    if count > 0 {
      var mixed := words[i := MixKey(words[i], words[i - 1], key[j], Word(j))];
      var j' := if j + 1 >= |key| then 0 else j + 1;
      MixKeyIgnores(words[i], words[i - 1], key[j], other[j], Word(j));
      if i + 1 >= N {
        HighKeyBitsIgnored(mixed[0 := mixed[N - 1]], 1, j', key, other, count - 1);
      } else {
        HighKeyBitsIgnored(mixed, i + 1, j', key, other, count - 1);
      }
    }
  }

  // --------------------------------------------------------------------------------------- generator

  class MTRand {
    const state: array<bv64>
    var next: nat
    var left: nat
    ghost var origin: seq<bv64>
    ghost var base: nat

    /** The array holds words base, base+1, ... of the sequence that continues `origin`. */
    ghost predicate Holds()
      reads this, state
    {
      && state.Length == N == |origin|
      && forall k :: 0 <= k < N ==> state[k] == X(origin, base + k)
    }

    /** `left` counts the words from `next` to the end of the block. */
    ghost predicate Valid()
      reads this, state
    {
      Holds() && next + left == N
    }

    /** The number that draw `n` from now will return. */
    ghost function Future(n: nat): bv64
      requires Valid()
      reads this, state
    {
      Output(origin, base + next, n)
    }

    constructor FromSeed(seed: bv64)
      ensures Valid() && fresh(state)
      ensures origin == SeedWords(seed) && AllFit(origin)
      ensures forall n: nat :: Future(n) == Output(SeedWords(seed), N, n)
    {
      state := new bv64[N];
      next := 0;
      left := 0;
      new;
      Seed(seed);
    }

    constructor FromKey(key: array<bv64>)
      requires 0 < key.Length < 0x8000_0000
      ensures Valid() && fresh(state)
      ensures origin == KeyWords(key[..]) && AllFit(origin)
      ensures forall n: nat :: Future(n) == Output(KeyWords(key[..]), N, n)
    {
      state := new bv64[N];
      next := 0;
      left := 0;
      new;
      SeedFromArray(key);
    }

    method Seed(seed: bv64)
      requires state.Length == N
      modifies this, state
      ensures Valid() && left == N
      ensures origin == SeedWords(seed) && AllFit(origin)
      ensures forall n: nat :: Future(n) == Output(SeedWords(seed), N, n)
    {
      hide X, AllFit, Output;
      Initialize(seed);
      Begin();
    }

    /** The reload that ends every seeding: the words of the state become the origin. */
    method Begin()
      requires state.Length == N
      modifies this, state
      ensures Valid() && left == N && origin == old(state[..])
      ensures forall n: nat :: Future(n) == Output(origin, N, n)
    {
      hide X, Temper;
      origin := state[..];
      base := 0;
      StartsAt(origin);
      Reload();
    }

    method Initialize(seed: bv64)
      requires state.Length == N
      modifies state
      ensures state[..] == SeedWords(seed)
    {
      hide Knuth, Word;
      state[0] := seed & MASK;
      var i := 1;
      while i < N
        invariant 1 <= i <= N
        invariant forall k :: 0 <= k < i ==> state[k] == SeedWord(seed, k)
      {
        state[i] := Knuth(state[i - 1], Word(i));
        i := i + 1;
      }
    }

    method SeedFromArray(key: array<bv64>)
      requires state.Length == N
      requires 0 < key.Length < 0x8000_0000 && key != state
      modifies this, state
      ensures Valid() && left == N
      ensures origin == KeyWords(old(key[..])) && AllFit(origin)
      ensures forall n: nat :: Future(n) == Output(KeyWords(old(key[..])), N, n)
    {
      hide X, AllFit, KeyWords, Output;
      KeyWordsFit(key[..]);
      MixArray(key);
      Begin();
    }

    method MixArray(key: array<bv64>)
      requires state.Length == N
      requires 0 < key.Length < 0x8000_0000 && key != state
      modifies state
      ensures state[..] == KeyWords(old(key[..]))
    {
      hide KeyPass, IndexPass, SeedWords;
      Initialize(19650218);
      var i := MixInKey(key);
      MixInIndex(i);
      ghost var last := state[..];
      state[0] := 0x8000_0000;
      assert state[..] == last[0 := 0x8000_0000];
    }

    method MixInKey(key: array<bv64>) returns (i: nat)
      requires state.Length == N
      requires 0 < key.Length < 0x8000_0000 && key != state
      modifies state
      ensures (state[..], i) == KeyPass(old(state[..]), 1, 0, key[..], if N > key.Length then N else key.Length)
      ensures 1 <= i < N
    {
      hide MixKey, Word, KeyPass;
      ghost var from := state[..];
      i := 1;
      var j := 0;
      var k := if N > key.Length then N else key.Length;
      while k > 0
        invariant 1 <= i < N && 0 <= j < key.Length && k >= 0
        invariant KeyPass(state[..], i, j, key[..], k)
               == KeyPass(from, 1, 0, key[..], if N > key.Length then N else key.Length)
      {
        ghost var before := state[..];
        state[i] := MixKey(state[i], state[i - 1], key[j], Word(j));
        ghost var mixed := state[..];
        assert mixed == before[i := MixKey(before[i], before[i - 1], key[..][j], Word(j))];
        KeyStep(before, i, j, key[..], k, mixed);
        i, j := i + 1, j + 1;
        if i >= N {
          state[0] := state[N - 1];
          assert state[..] == mixed[0 := mixed[N - 1]];
          i := 1;
        }
        if j >= key.Length {
          j := 0;
        }
        k := k - 1;
      }
      KeyEnd(state[..], i, j, key[..]);
    }

    method MixInIndex(from: nat)
      requires state.Length == N && 1 <= from < N
      modifies state
      ensures state[..] == IndexPass(old(state[..]), from, N - 1)
    {
      hide MixIndex, Word;
      ghost var words := state[..];
      var i, k := from, N - 1;
      while k > 0
        invariant 1 <= i < N && 0 <= k < N
        invariant IndexPass(state[..], i, k) == IndexPass(words, from, N - 1)
      {
        ghost var before := state[..];
        state[i] := MixIndex(state[i], state[i - 1], Word(i));
        ghost var mixed := state[..];
        assert mixed == before[i := MixIndex(before[i], before[i - 1], Word(i))];
        i := i + 1;
        if i >= N {
          state[0] := state[N - 1];
          assert state[..] == mixed[0 := mixed[N - 1]];
          i := 1;
        }
        k := k - 1;
      }
    }

    /** Overwrites the block with the next one, in place and in three pieces. */
    method Reload()
      requires Holds()
      modifies this, state
      ensures Valid() && left == N && next == 0
      ensures origin == old(origin) && base == old(base) + N
    {
      hide Twist, X;
      ghost var words, from := origin, base;
      var p := 0;
      while p < N - M
        invariant 0 <= p <= N - M
        invariant forall k :: 0 <= k < p ==> state[k] == X(words, from + N + k)
        invariant forall k :: p <= k < N ==> state[k] == X(words, from + k)
        modifies state
      {
        var w := Twist(state[p + M], state[p], state[p + 1]);
        assert w == X(words, from + N + p) by { NextWord(words, from + p); }
        state[p] := w;
        p := p + 1;
      }
      while p < N - 1
        invariant N - M <= p <= N - 1
        invariant forall k :: 0 <= k < p ==> state[k] == X(words, from + N + k)
        invariant forall k :: p <= k < N ==> state[k] == X(words, from + k)
        modifies state
      {
        var w := Twist(state[p + M - N], state[p], state[p + 1]);
        assert w == X(words, from + N + p) by { NextWord(words, from + p); }
        state[p] := w;
        p := p + 1;
      }
      var w := Twist(state[p + M - N], state[p], state[0]);
      assert w == X(words, from + N + p) by { NextWord(words, from + p); }
      state[p] := w;
      base := base + N;
      left, next := N, 0;
    }

    /** Returns the next number of the future and moves on by one. */
    method RandInt() returns (r: bv64)
      requires Valid()
      modifies this, state
      ensures Valid() && origin == old(origin) && base + next == old(base + next) + 1
      ensures r == old(Future(0))
      ensures forall n: nat :: Future(n) == old(Future(n + 1))
      ensures AllFit(origin) ==> Fits(r)
    {
      hide X, Temper, Fits;
      ghost var at := base + next;
      if left == 0 {
        Reload();
      }
      left := left - 1;
      r := Temper(state[next]);
      next := next + 1;
      assert base + next == at + 1;
      if AllFit(origin) {
        OutputFits(origin, at, 0);
      }
    }

    /**
     * randInt(n), as far as `draws` numbers go: the first of them that is at most `n` under the mask. That one of
     * the numbers to come always is, which the source relies on to stop, is a matter of the recurrence's period.
     */
    method RandIntUpTo(n: bv64, draws: nat) returns (found: bool, i: bv64, drawn: nat)
      requires Valid()
      modifies this, state
      ensures Valid() && origin == old(origin) && base + next == old(base + next) + drawn
      ensures found ==> 0 < drawn <= draws && i <= n && i == Masked(Output(origin, old(base + next), drawn - 1), n)
      ensures !found ==> drawn == draws
      ensures |origin| == N && AllRejected(origin, old(base + next), if found then drawn - 1 else drawn, n)
    {
      hide *;
      found, i, drawn := false, 0, 0;
      ghost var start, at := origin, base + next;
      HasOrigin();
      NoneRejected(start, at, n);
      while !found && drawn < draws
        invariant drawn <= draws && Valid() && origin == start && base + next == at + drawn
        invariant found ==> 0 < drawn && i <= n && i == Masked(Output(start, at, drawn - 1), n)
        invariant AllRejected(start, at, if found then drawn - 1 else drawn, n)
      {
        found, i := Attempt(n, at, drawn);
        if !found {
          OneMoreRejected(start, at, drawn, n);
        }
        drawn := drawn + 1;
      }
    }

    lemma HasOrigin()
      requires Valid()
      ensures |origin| == N
    {
    }

    lemma FutureIsOutput(at: nat, drawn: nat)
      requires Valid() && base + next == at + drawn && |origin| == N
      ensures Future(0) == Output(origin, at, drawn)
    {
      hide X, Temper, Valid;
    }

    /** One turn of the loop: number `drawn` from number `at` of the sequence on. */
    method Attempt(n: bv64, ghost at: nat, ghost drawn: nat) returns (found: bool, i: bv64)
      requires Valid() && base + next == at + drawn && |origin| == N
      modifies this, state
      ensures Valid() && origin == old(origin) && base + next == at + drawn + 1
      ensures i == Masked(Output(origin, at, drawn), n)
      ensures found == !Rejected(Output(origin, at, drawn), n) && (found ==> i <= n)
    {
      hide *;
      FutureIsOutput(at, drawn);
      var r := RandInt();
      i := Masked(r, n);
      found := !Rejected(r, n);
      if found {
        AcceptedAtMost(r, n);
      }
    }

    method Save(saved: array<bv64>)
      requires Valid() && saved.Length == N + 1 && saved != state
      modifies saved
      ensures Valid() && saved[..] == state[..] + [CountWord(left)]
      ensures saved[N] <= 624 && WordCount(saved[N]) == left <= N
      ensures forall n: nat :: Output(saved[..N], N - left, n) == Future(n)
    {
      hide X, Temper, CountWord, WordCount;
      var i := 0;
      while i < N
        invariant 0 <= i <= N
        invariant forall k :: 0 <= k < i ==> saved[k] == state[k]
      {
        saved[i] := state[i];
        i := i + 1;
      }
      saved[i] := CountWord(left);
      CountSurvives(left);
      assert saved[..N] == state[..];
      forall n: nat ensures Output(saved[..N], N - left, n) == Future(n) {
        Restart(origin, base, saved[..N], next + n);
      }
    }

    method Load(saved: array<bv64>)
      requires state.Length == N && saved.Length == N + 1 && saved != state
      requires saved[N] <= 624 && WordCount(saved[N]) <= N
      modifies this, state
      ensures Valid() && origin == saved[..N] && left == WordCount(saved[N])
      ensures forall n: nat :: Future(n) == Output(saved[..N], N - left, n)
    {
      hide X, Temper, CountWord, WordCount;
      var i := 0;
      while i < N
        invariant 0 <= i <= N
        invariant forall k :: 0 <= k < i ==> state[k] == saved[k]
      {
        state[i] := saved[i];
        i := i + 1;
      }
      left := WordCount(saved[i]);
      next := N - left;
      origin := saved[..N];
      base := 0;
      StartsAt(origin);
    }
  }

  /** The sequence begins with the words it continues. */
  lemma StartsAt(origin: seq<bv64>)
    requires |origin| == N
    ensures forall k :: 0 <= k < N ==> X(origin, 0 + k) == origin[k]
  {
    hide Twist;
  }
}
