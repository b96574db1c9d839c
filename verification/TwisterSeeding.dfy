/**
 * What the seedings put into the state, word by word.
 *
 * Seeding from an array walks over the state in place, again and again, and copies the last word over the first one
 * whenever it gets round. Said without a state, each step makes one more number of a sequence from the number before
 * it and the number one round ago.
 */
module TwisterSeeding {
  import opened TwisterWords
  import opened MersenneTwister

  // ------------------------------------------------------------------------------------- single seed

  /** Every word of the state tells the word before it, so that the whole state comes from any word of it. */
  lemma SeedRewinds(seed: bv64, i: nat)
    requires 0 < i < 624
    ensures Unknuth(SeedWord(seed, i), i as bv64) == SeedWord(seed, i - 1)
  {
    hide Knuth, Unknuth, Fits;
    SeedWordFits(seed, i - 1);
    KnuthUndone(SeedWord(seed, i - 1), Word(i));
  }

  lemma FirstWord(seed: bv64)
    ensures SeedWord(seed, 0) == Lower(seed)
  {
    hide Knuth;
  }

  /** Two seeds agree in a word of the state exactly if they agree in their lower 32 bits. */
  lemma {:induction false} SeedsAgree(seed: bv64, other: bv64, i: nat)
    requires i < 624
    ensures SeedWord(seed, i) == SeedWord(other, i) <==> Lower(seed) == Lower(other)
  {
    hide Knuth, Unknuth, Word, Lower;
    if i == 0 {
      FirstWord(seed);
      FirstWord(other);
    } else {
      SeedRewinds(seed, i);
      SeedRewinds(other, i);
      SeedsAgree(seed, other, i - 1);
    }
  }

  // ------------------------------------------------------------------------------------------- rounds

  /** The place of step `n`: a round has 623 steps, from 1 on. */
  function Place(n: nat): (i: nat)
    ensures 1 <= i < N
  {
    1 + n % 623
  }

  lemma PlaceNext(n: nat)
    ensures Place(n + 1) == if Place(n) + 1 >= N then 1 else Place(n) + 1
  {
  }

  lemma PlaceRound(n: nat)
    ensures Place(n + 623) == Place(n)
    ensures n < 623 ==> Place(n) == n + 1
  {
  }

  /** Within a round no place comes twice. */
  lemma PlacesDiffer(m: nat, n: nat)
    requires m < n < m + 623
    ensures Place(m) != Place(n)
  {
  }

  function Turn(n: nat, size: nat): (j: nat)
    requires size > 0
    ensures j < size
  {
    n % size
  }

  lemma TurnNext(n: nat, size: nat)
    requires size > 0
    ensures Turn(n + 1, size) == if Turn(n, size) + 1 >= size then 0 else Turn(n, size) + 1
  {
    var q, r := n / size, n % size;
    assert n == q * size + r;
    if r + 1 < size {
      Division(n + 1, q, r + 1, size);
    } else {
      assert n + 1 == (q + 1) * size;
      Division(n + 1, q + 1, 0, size);
    }
  }

  lemma Division(n: nat, q: nat, r: nat, size: nat)
    requires n == q * size + r && r < size
    ensures n % size == r
  {
    var p := n / size;
    assert n == p * size + n % size;
    assert p < q ==> (p + 1) * size <= q * size;
    assert q < p ==> (q + 1) * size <= p * size;
  }

  // --------------------------------------------------------------------------------------- first pass

  /** What step `n` of the first pass makes, from what was there, what the step before made and a key element. */
  ghost function KeyWord(words: seq<bv64>, key: seq<bv64>, n: nat): bv64
    requires |words| == N && 0 < |key| < 0x8000_0000
  {
    MixKey(if n < 623 then words[n + 1] else KeyWord(words, key, n - 623),
           if n == 0 then words[0] else KeyWord(words, key, n - 1),
           key[Turn(n, |key|)], Word(Turn(n, |key|)))
  }

  /** After `n` steps: the next place and key element, the word before that place, and each place's last word. */
  ghost predicate KeyReached(words: seq<bv64>, key: seq<bv64>, n: nat, state: seq<bv64>, i: nat, j: nat) {
    && |words| == N == |state| && 0 < |key| < 0x8000_0000
    && i == Place(n) && j == Turn(n, |key|)
    && state[i - 1] == (if n == 0 then words[0] else KeyWord(words, key, n - 1))
    && (forall m: nat :: m < n <= m + 623 ==> state[Place(m)] == KeyWord(words, key, m))
    && (forall m: nat :: n <= m < 623 ==> state[Place(m)] == words[m + 1])
  }

  lemma KeyStarts(words: seq<bv64>, key: seq<bv64>)
    requires |words| == N && 0 < |key| < 0x8000_0000
    ensures KeyReached(words, key, 0, words, 1, 0)
  {
    hide KeyWord;
  }

  lemma KeyMixed(words: seq<bv64>, key: seq<bv64>, n: nat, state: seq<bv64>, i: nat, j: nat)
    requires KeyReached(words, key, n, state, i, j)
    ensures MixKey(state[i], state[i - 1], key[j], Word(j)) == KeyWord(words, key, n)
  {
    hide MixKey, Word, Place, Turn;
    if n < 623 {
      assert state[Place(n)] == words[n + 1];
    } else {
      PlaceRound(n - 623);
      assert state[Place(n - 623)] == KeyWord(words, key, n - 623);
    }
  }

  /** One step, with the word at place 0 replaced at the end of a round. */
  lemma KeyAdvances(words: seq<bv64>, key: seq<bv64>, n: nat, state: seq<bv64>, i: nat, j: nat, state': seq<bv64>)
    requires KeyReached(words, key, n, state, i, j)
    requires |state'| == N
    requires state'[i] == KeyWord(words, key, n)
    requires forall k :: 1 <= k < N && k != i ==> state'[k] == state[k]
    requires i == N - 1 ==> state'[0] == state'[i]
    ensures KeyReached(words, key, n + 1, state', Place(n + 1), Turn(n + 1, |key|))
  {
    hide KeyWord, Place, Turn;
    PlaceNext(n);
    forall m: nat | m < n + 1 <= m + 623 ensures state'[Place(m)] == KeyWord(words, key, m) {
      if m < n {
        PlacesDiffer(m, n);
      }
    }
    forall m: nat | n + 1 <= m < 623 ensures state'[Place(m)] == words[m + 1] {
      PlacesDiffer(n, m);
    }
  }

  lemma {:induction false} KeyPassReaches(words: seq<bv64>, key: seq<bv64>, n: nat, state: seq<bv64>, i: nat, j: nat,
                                          count: nat)
    requires KeyReached(words, key, n, state, i, j)
    ensures KeyReached(words, key, n + count, KeyPass(state, i, j, key, count).0,
                       KeyPass(state, i, j, key, count).1, Turn(n + count, |key|))
    decreases count
  {
    hide MixKey, Word, Turn, KeyWord, KeyReached, Place;
    KeyReachedBounds(words, key, n, state, i, j);
    if count > 0 {
      var mixed := state[i := MixKey(state[i], state[i - 1], key[j], Word(j))];
      var state' := if i + 1 >= N then mixed[0 := mixed[N - 1]] else mixed;
      KeyMixed(words, key, n, state, i, j);
      KeyAdvances(words, key, n, state, i, j, state');
      PlaceNext(n);
      TurnNext(n, |key|);
      KeyPassReaches(words, key, n + 1, state', Place(n + 1), Turn(n + 1, |key|), count - 1);
      assert n + 1 + (count - 1) == n + count;
    }
  }

  lemma KeyReachedBounds(words: seq<bv64>, key: seq<bv64>, n: nat, state: seq<bv64>, i: nat, j: nat)
    requires KeyReached(words, key, n, state, i, j)
    ensures |words| == N == |state| && 0 < |key| < 0x8000_0000 && i == Place(n) && j == Turn(n, |key|)
  {
    hide KeyWord;
  }

  // -------------------------------------------------------------------------------------- second pass

  function PlaceFrom(at: nat, n: nat): (i: nat)
    ensures 1 <= i < N
  {
    Place(at + n)
  }

  /** What step `n` of the second pass makes, which starts at the place of number `at`. */
  ghost function IndexWord(words: seq<bv64>, at: nat, n: nat): bv64
    requires |words| == N
  {
    MixIndex(words[PlaceFrom(at, n)], if n == 0 then words[Place(at) - 1] else IndexWord(words, at, n - 1),
             Word(PlaceFrom(at, n)))
  }

  ghost predicate IndexReached(words: seq<bv64>, at: nat, n: nat, state: seq<bv64>, i: nat) {
    && |words| == N == |state| && n <= 623
    && i == PlaceFrom(at, n)
    && state[i - 1] == (if n == 0 then words[Place(at) - 1] else IndexWord(words, at, n - 1))
    && (forall m: nat :: m < n ==> state[PlaceFrom(at, m)] == IndexWord(words, at, m))
    && (forall m: nat :: n <= m < 623 ==> state[PlaceFrom(at, m)] == words[PlaceFrom(at, m)])
  }

  lemma IndexStarts(words: seq<bv64>, at: nat)
    requires |words| == N
    ensures IndexReached(words, at, 0, words, PlaceFrom(at, 0))
  {
    hide IndexWord;
  }

  lemma IndexMixed(words: seq<bv64>, at: nat, n: nat, state: seq<bv64>, i: nat)
    requires IndexReached(words, at, n, state, i) && n < 623
    ensures MixIndex(state[i], state[i - 1], Word(i)) == IndexWord(words, at, n)
  {
    hide MixIndex, Word, PlaceFrom;
  }

  lemma IndexAdvances(words: seq<bv64>, at: nat, n: nat, state: seq<bv64>, i: nat, state': seq<bv64>)
    requires IndexReached(words, at, n, state, i) && n < 623
    requires |state'| == N
    requires state'[i] == IndexWord(words, at, n)
    requires forall k :: 1 <= k < N && k != i ==> state'[k] == state[k]
    requires i == N - 1 ==> state'[0] == state'[i]
    ensures IndexReached(words, at, n + 1, state', PlaceFrom(at, n + 1))
  {
    hide IndexWord, Place;
    PlaceNext(at + n);
    forall m: nat | m < n + 1 ensures state'[PlaceFrom(at, m)] == IndexWord(words, at, m) {
      if m < n {
        PlacesDiffer(at + m, at + n);
      }
    }
    forall m: nat | n + 1 <= m < 623 ensures state'[PlaceFrom(at, m)] == words[PlaceFrom(at, m)] {
      PlacesDiffer(at + n, at + m);
    }
  }

  lemma {:induction false} IndexPassReaches(words: seq<bv64>, at: nat, n: nat, state: seq<bv64>, i: nat, count: nat)
    requires IndexReached(words, at, n, state, i) && n + count == 623
    ensures IndexReached(words, at, 623, IndexPass(state, i, count), PlaceFrom(at, 623))
    decreases count
  {
    hide MixIndex, Word, IndexWord, IndexReached, Place;
    IndexReachedBounds(words, at, n, state, i);
    if count > 0 {
      var mixed := state[i := MixIndex(state[i], state[i - 1], Word(i))];
      var state' := if i + 1 >= N then mixed[0 := mixed[N - 1]] else mixed;
      IndexMixed(words, at, n, state, i);
      IndexAdvances(words, at, n, state, i, state');
      PlaceNext(at + n);
      IndexPassReaches(words, at, n + 1, state', PlaceFrom(at, n + 1), count - 1);
    }
  }

  lemma IndexReachedBounds(words: seq<bv64>, at: nat, n: nat, state: seq<bv64>, i: nat)
    requires IndexReached(words, at, n, state, i)
    ensures |words| == N == |state| && i == PlaceFrom(at, n)
  {
    hide IndexWord, PlaceFrom;
  }

  // -------------------------------------------------------------------------------------- both passes

  /** How many steps the first pass has: enough to touch every word and to use every key element. */
  function Steps(key: seq<bv64>): (count: nat)
    ensures count >= 624 && count >= |key| && (count == 624 || count == |key|)
  {
    if |key| < 624 then 624 else |key|
  }

  /** Number `n` of the second pass in terms of the numbers of the first. */
  ghost function FinalWord(seeds: seq<bv64>, key: seq<bv64>, n: nat): bv64
    requires |seeds| == N && 0 < |key| < 0x8000_0000 && n < 623
  {
    MixIndex(KeyWord(seeds, key, Steps(key) - 623 + n),
             if n == 0 then KeyWord(seeds, key, Steps(key) - 1) else FinalWord(seeds, key, n - 1),
             Word(Place(Steps(key) + n)))
  }

  lemma {:induction false} SecondPassIsFinal(seeds: seq<bv64>, key: seq<bv64>, words: seq<bv64>, i: nat, n: nat)
    requires |seeds| == N && 0 < |key| < 0x8000_0000 && n < 623
    requires KeyReached(seeds, key, Steps(key), words, i, Turn(Steps(key), |key|))
    ensures IndexWord(words, Steps(key), n) == FinalWord(seeds, key, n)
  {
    hide MixIndex, Word, Steps, KeyWord, Place, Turn;
    PlaceRound(Steps(key) - 623 + n);
    assert words[Place(Steps(key) - 623 + n)] == KeyWord(seeds, key, Steps(key) - 623 + n);
    if n > 0 {
      SecondPassIsFinal(seeds, key, words, i, n - 1);
    }
  }

  /** Every word of the state that a key gives. */
  lemma KeySeedsExactly(key: seq<bv64>, n: nat)
    requires 0 < |key| < 0x8000_0000 && n < 623
    ensures KeyWords(key)[0] == 0x8000_0000
    ensures KeyWords(key)[Place(Steps(key) + n)] == FinalWord(SeedWords(19650218), key, n)
  {
    hide KeyPass, IndexPass, KeyReached, KeyWord, IndexWord, FinalWord, Place, Turn, SeedWords;
    var seeds := SeedWords(19650218);
    var first := KeyPass(seeds, 1, 0, key, Steps(key));
    KeyStarts(seeds, key);
    TurnStarts(|key|);
    KeyPassReaches(seeds, key, 0, seeds, 1, 0, Steps(key));
    KeyReachedBounds(seeds, key, Steps(key), first.0, first.1, Turn(Steps(key), |key|));
    IndexStarts(first.0, Steps(key));
    IndexPassReaches(first.0, Steps(key), 0, first.0, first.1, 623);
    IndexIsReached(first.0, Steps(key), n, IndexPass(first.0, first.1, 623), PlaceFrom(Steps(key), 623));
    SecondPassIsFinal(seeds, key, first.0, first.1, n);
  }

  lemma TurnStarts(size: nat)
    requires size > 0
    ensures Turn(0, size) == 0
  {
  }

  lemma IndexIsReached(words: seq<bv64>, at: nat, n: nat, state: seq<bv64>, i: nat)
    requires IndexReached(words, at, 623, state, i) && n < 623
    ensures |state| == N && state[Place(at + n)] == IndexWord(words, at, n)
  {
    hide IndexWord, Place;
    assert state[PlaceFrom(at, n)] == IndexWord(words, at, n);
  }
}
