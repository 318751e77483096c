/** The protocol steps of src/main.cpp: qubit generation, the noisy channel,
    the receiver's measurement, sifting and the quantum bit error rate.
    Every random draw is an explicit parameter: a `Bit` for each `bit_dist`
    call and a `UnitReal` for each `prob_dist` call. */
module Protocol {
  import opened Qubits

  /** What one uniform real draw (`prob_dist`) yields: a real in [0, 1). */
  type UnitReal = r: real | 0.0 <= r < 1.0 witness 0.0

  /** Every element of `s` is a bit. */
  predicate AllBits(s: seq<int>) {
    forall i :: 0 <= i < |s| ==> IsBit(s[i])
  }

  function Min(a: nat, b: nat): nat {
    if a <= b then a else b
  }

  // ---------------------------------------------------------------------
  // 1. Generation, 2. transmission, 3. measurement

  /** The sender prepares a qubit from two bit draws, the value first and
      the basis second. */
  function GenerateQubit(valueDraw: Bit, basisDraw: Bit): (q: Qubit)
    ensures WellFormed(q)
    ensures q.value == valueDraw && q.basis == basisDraw
  {
    Qubit(valueDraw, basisDraw)
  }

  /** The channel copies the qubit and flips its value (`1 - value`) when the
      noise draw falls below the noise level; the basis is never touched. */
  method SendQubit(q: Qubit, naturalNoiseLevel: real, noiseDraw: UnitReal) returns (transmitted: Qubit)
    ensures transmitted.basis == q.basis
    ensures transmitted.value != q.value <==> noiseDraw < naturalNoiseLevel
    ensures noiseDraw < naturalNoiseLevel ==> transmitted.value == 1 - q.value
    ensures !(noiseDraw < naturalNoiseLevel) ==> transmitted == q
    ensures WellFormed(q) ==> WellFormed(transmitted)
    ensures naturalNoiseLevel <= 0.0 ==> transmitted == q
  {
    transmitted := q;
    if noiseDraw < naturalNoiseLevel {
      transmitted := transmitted.(value := 1 - transmitted.value);
    }
  }

  /** The channel called with the qubit alone: the declaration's default
      noise level applies, so the qubit arrives unchanged. */
  method SendQubitWithDefaults(q: Qubit, noiseDraw: UnitReal) returns (transmitted: Qubit)
    ensures transmitted == q
  {
    transmitted := SendQubit(q, DefaultNoiseLevel, noiseDraw);
  }

  /** The receiver draws a basis and reports it through `receiverBasis`.
      When it equals the qubit's basis the result is the qubit's value;
      otherwise the result is a second bit draw, `outcomeDraw`, which the
      source makes only in that case. */
  method MeasureQubit(q: Qubit, basisDraw: Bit, outcomeDraw: Bit) returns (result: int, receiverBasis: Bit)
    ensures receiverBasis == basisDraw
    ensures q.basis == receiverBasis ==> result == q.value
    ensures q.basis != receiverBasis ==> result == outcomeDraw
    ensures IsBit(q.value) ==> IsBit(result)
  {
    receiverBasis := basisDraw;
    if q.basis == receiverBasis {
      result := q.value;
    } else {
      result := outcomeDraw;
    }
  }

  // ---------------------------------------------------------------------
  // 4. Sifting

  /** The positions below `n` at which the sender's basis equals the
      receiver's, in increasing order: exactly the positions sifting keeps. */
  function KeptIndices(kamilQubits: seq<Qubit>, katarzynaBases: seq<int>, n: nat): (kept: seq<nat>)
    requires n <= |kamilQubits| && n <= |katarzynaBases|
    ensures |kept| <= n
    ensures forall j :: 0 <= j < |kept| ==>
      kept[j] < n && kamilQubits[kept[j]].basis == katarzynaBases[kept[j]]
    ensures forall j, k :: 0 <= j < k < |kept| ==> kept[j] < kept[k]
    ensures forall i :: 0 <= i < n && kamilQubits[i].basis == katarzynaBases[i] ==> i in kept
  {
    if n == 0 then []
    else
      var kept := KeptIndices(kamilQubits, katarzynaBases, n - 1);
      if kamilQubits[n - 1].basis == katarzynaBases[n - 1] then kept + [n - 1] else kept
  }

  /** The set of positions below `n` whose bases agree. */
  ghost function MatchingPositions(kamilQubits: seq<Qubit>, katarzynaBases: seq<int>, n: nat): set<nat>
    requires n <= |kamilQubits| && n <= |katarzynaBases|
  {
    set i: nat | i < n && kamilQubits[i].basis == katarzynaBases[i]
  }

  /** Extending the range by one position adds that position to the matching
      set exactly when its bases agree. */
  lemma MatchingPositionsStep(kamilQubits: seq<Qubit>, katarzynaBases: seq<int>, n: nat)
    requires 0 < n <= |kamilQubits| && n <= |katarzynaBases|
    ensures |MatchingPositions(kamilQubits, katarzynaBases, n)| ==
      |MatchingPositions(kamilQubits, katarzynaBases, n - 1)| +
      (if kamilQubits[n - 1].basis == katarzynaBases[n - 1] then 1 else 0)
  {
    var before := MatchingPositions(kamilQubits, katarzynaBases, n - 1);
    var after := MatchingPositions(kamilQubits, katarzynaBases, n);
    assert n - 1 !in before;
    if kamilQubits[n - 1].basis == katarzynaBases[n - 1] {
      assert after == before + {n - 1};
    } else {
      assert after == before;
    }
  }

  /** The number of kept positions is the number of positions whose bases agree. */
  lemma {:induction false} KeptIndicesCount(kamilQubits: seq<Qubit>, katarzynaBases: seq<int>, n: nat)
    requires n <= |kamilQubits| && n <= |katarzynaBases|
    ensures |KeptIndices(kamilQubits, katarzynaBases, n)| == |MatchingPositions(kamilQubits, katarzynaBases, n)|
  {
    if n > 0 {
      KeptIndicesCount(kamilQubits, katarzynaBases, n - 1);
      MatchingPositionsStep(kamilQubits, katarzynaBases, n);
    }
  }

  /** Sifting clears both raw keys, then walks the sender's qubits in order
      and, at every position whose bases agree, appends the sender's value
      to the first key and the receiver's result to the second. The
      receiver's vectors are indexed unchecked, so they must be at least as
      long as the sender's. */
  method Sifting(kamilQubits: seq<Qubit>, katarzynaBases: seq<int>, katarzynaResults: seq<int>)
    returns (rawKeyKamil: seq<int>, rawKeyKatarzyna: seq<int>)
    requires |katarzynaBases| >= |kamilQubits| && |katarzynaResults| >= |kamilQubits|
    ensures var kept := KeptIndices(kamilQubits, katarzynaBases, |kamilQubits|);
      |rawKeyKamil| == |kept| && |rawKeyKatarzyna| == |kept| &&
      forall j :: 0 <= j < |kept| ==>
        rawKeyKamil[j] == kamilQubits[kept[j]].value && rawKeyKatarzyna[j] == katarzynaResults[kept[j]]
    ensures |rawKeyKamil| == |rawKeyKatarzyna| == |MatchingPositions(kamilQubits, katarzynaBases, |kamilQubits|)|
    ensures |rawKeyKamil| <= |kamilQubits|
    ensures (forall i :: 0 <= i < |kamilQubits| ==> WellFormed(kamilQubits[i])) ==> AllBits(rawKeyKamil)
    ensures AllBits(katarzynaResults) ==> AllBits(rawKeyKatarzyna)
  {
    rawKeyKamil, rawKeyKatarzyna := [], [];
    var i := 0;
    while i < |kamilQubits|
      invariant 0 <= i <= |kamilQubits|
      invariant var kept := KeptIndices(kamilQubits, katarzynaBases, i);
        |rawKeyKamil| == |kept| && |rawKeyKatarzyna| == |kept| &&
        forall j :: 0 <= j < |kept| ==>
          rawKeyKamil[j] == kamilQubits[kept[j]].value && rawKeyKatarzyna[j] == katarzynaResults[kept[j]]
    {
      if kamilQubits[i].basis == katarzynaBases[i] {
        rawKeyKamil := rawKeyKamil + [kamilQubits[i].value];
        rawKeyKatarzyna := rawKeyKatarzyna + [katarzynaResults[i]];
      }
      i := i + 1;
    }
    KeptIndicesCount(kamilQubits, katarzynaBases, |kamilQubits|);
  }

  // ---------------------------------------------------------------------
  // 5. Quantum bit error rate

  /** The number of positions below `n` at which the keys differ. */
  function MismatchCount(keyA: seq<int>, keyB: seq<int>, n: nat): (errors: nat)
    requires n <= |keyA| && n <= |keyB|
    ensures errors <= n
  {
    if n == 0 then 0
    else MismatchCount(keyA, keyB, n - 1) + (if keyA[n - 1] != keyB[n - 1] then 1 else 0)
  }

  /** The error rate: 0 when either key is empty, otherwise the mismatches
      among the first min(|keyA|, |keyB|) positions divided by that length. */
  function Qber(keyA: seq<int>, keyB: seq<int>): (rate: real)
    ensures 0.0 <= rate <= 1.0
  {
    if |keyA| == 0 || |keyB| == 0 then 0.0
    else
      var minLen := Min(|keyA|, |keyB|);
      MismatchCount(keyA, keyB, minLen) as real / minLen as real
  }

  lemma {:induction false} MismatchCountZero(keyA: seq<int>, keyB: seq<int>, n: nat)
    requires n <= |keyA| && n <= |keyB|
    ensures MismatchCount(keyA, keyB, n) == 0 <==> forall i :: 0 <= i < n ==> keyA[i] == keyB[i]
  {
    if n > 0 {
      MismatchCountZero(keyA, keyB, n - 1);
    }
  }

  lemma {:induction false} MismatchCountAll(keyA: seq<int>, keyB: seq<int>, n: nat)
    requires n <= |keyA| && n <= |keyB|
    ensures MismatchCount(keyA, keyB, n) == n <==> forall i :: 0 <= i < n ==> keyA[i] != keyB[i]
  {
    if n > 0 {
      MismatchCountAll(keyA, keyB, n - 1);
    }
  }

  /** The rate is 0 exactly when a key is empty or the keys agree on their
      common prefix. */
  lemma QberZeroIff(keyA: seq<int>, keyB: seq<int>)
    ensures Qber(keyA, keyB) == 0.0 <==>
      |keyA| == 0 || |keyB| == 0 ||
      forall i :: 0 <= i < Min(|keyA|, |keyB|) ==> keyA[i] == keyB[i]
  {
    if |keyA| > 0 && |keyB| > 0 {
      MismatchCountZero(keyA, keyB, Min(|keyA|, |keyB|));
    }
  }

  /** The rate is 1 exactly when both keys are non-empty and differ at every
      position of their common prefix. */
  lemma QberOneIff(keyA: seq<int>, keyB: seq<int>)
    ensures Qber(keyA, keyB) == 1.0 <==>
      |keyA| > 0 && |keyB| > 0 &&
      forall i :: 0 <= i < Min(|keyA|, |keyB|) ==> keyA[i] != keyB[i]
  {
    if |keyA| > 0 && |keyB| > 0 {
      MismatchCountAll(keyA, keyB, Min(|keyA|, |keyB|));
    }
  }

  /** Identical keys have error rate 0. */
  lemma QberOfIdenticalKeys(key: seq<int>)
    ensures Qber(key, key) == 0.0
  {
    QberZeroIff(key, key);
  }

  /** The estimator counts the mismatching positions in a loop and divides
      by the shorter length; an empty key gives 0. */
  method CalculateQber(keyKamil: seq<int>, keyKatarzyna: seq<int>) returns (qber: real)
    ensures qber == Qber(keyKamil, keyKatarzyna)
    ensures 0.0 <= qber <= 1.0
  {
    if |keyKamil| == 0 || |keyKatarzyna| == 0 {
      return 0.0;
    }
    var errors := 0;
    var minLen := Min(|keyKamil|, |keyKatarzyna|);
    var i := 0;
    while i < minLen
      invariant 0 <= i <= minLen
      invariant errors == MismatchCount(keyKamil, keyKatarzyna, i)
    {
      if keyKamil[i] != keyKatarzyna[i] {
        errors := errors + 1;
      }
      i := i + 1;
    }
    qber := errors as real / minLen as real;
  }
}
