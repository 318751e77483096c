/** The simulation driver `main` of src/main.cpp without its console output:
    generate and transmit every qubit, measure every transmitted qubit,
    sift, and estimate the error rate. */
module Simulation {
  import opened Qubits
  import opened Protocol

  /** The run's configuration constants. */
  const NumQubits: nat := 10000
  const NaturalNoise: real := 0.01

  /** The draws the driver consumes for qubit `i`: the sender's value and
      basis, the channel's noise check, the receiver's basis, and the
      receiver's random outcome (used only when the bases differ). */
  datatype QubitDraws = QubitDraws(value: Bit, basis: Bit, noise: UnitReal, receiverBasis: Bit, outcome: Bit)

  /** The qubits the sender prepares from the draws (a helper of `RunProtocol`'s contract). */
  function SentQubits(draws: seq<QubitDraws>): (qubits: seq<Qubit>)
    ensures |qubits| == |draws|
    ensures forall i :: 0 <= i < |draws| ==>
      WellFormed(qubits[i]) && qubits[i].value == draws[i].value && qubits[i].basis == draws[i].basis
  {
    seq(|draws|, i requires 0 <= i < |draws| => GenerateQubit(draws[i].value, draws[i].basis))
  }

  /** The bases the receiver draws (a helper of `RunProtocol`'s contract). */
  function ReceiverBases(draws: seq<QubitDraws>): (bases: seq<int>)
    ensures |bases| == |draws|
    ensures forall i :: 0 <= i < |draws| ==> bases[i] == draws[i].receiverBasis
  {
    seq(|draws|, i requires 0 <= i < |draws| => draws[i].receiverBasis)
  }

  /** The positions a run keeps: those whose two basis draws agree. */
  function KeptPositions(draws: seq<QubitDraws>): (kept: seq<nat>)
    ensures forall j :: 0 <= j < |kept| ==> kept[j] < |draws|
  {
    KeptIndices(SentQubits(draws), ReceiverBases(draws), |draws|)
  }

  /** The number of positions listed in `kept` whose noise draw is below the
      noise level, that is, where the channel flipped the qubit. */
  function FlipCount(draws: seq<QubitDraws>, kept: seq<nat>, naturalNoise: real): (flips: nat)
    requires forall j :: 0 <= j < |kept| ==> kept[j] < |draws|
    ensures flips <= |kept|
  {
    if |kept| == 0 then 0
    else
      FlipCount(draws, kept[..|kept| - 1], naturalNoise) +
      (if draws[kept[|kept| - 1]].noise < naturalNoise then 1 else 0)
  }

  /** The fraction of kept positions at which the channel flipped the qubit;
      0 when nothing is kept. */
  function NoiseRate(naturalNoise: real, draws: seq<QubitDraws>): (rate: real)
    ensures 0.0 <= rate <= 1.0
  {
    var kept := KeptPositions(draws);
    if |kept| == 0 then 0.0 else Ratio(FlipCount(draws, kept, naturalNoise), |kept|)
  }

  function Ratio(part: nat, whole: nat): (r: real)
    requires 0 < whole && part <= whole
    ensures 0.0 <= r <= 1.0
  {
    part as real / whole as real
  }

  /** When two keys differ exactly at the kept positions whose noise check
      fired, their mismatches are those flips. */
  lemma {:induction false} MismatchesAreFlips(keyA: seq<int>, keyB: seq<int>, draws: seq<QubitDraws>,
                                              kept: seq<nat>, naturalNoise: real, m: nat)
    requires |keyA| == |kept| && |keyB| == |kept| && m <= |kept|
    requires forall j :: 0 <= j < |kept| ==> kept[j] < |draws|
    requires forall j :: 0 <= j < |kept| ==> (keyA[j] != keyB[j] <==> draws[kept[j]].noise < naturalNoise)
    ensures MismatchCount(keyA, keyB, m) == FlipCount(draws, kept[..m], naturalNoise)
  {
    if m > 0 {
      MismatchesAreFlips(keyA, keyB, draws, kept, naturalNoise, m - 1);
      assert kept[..m][..m - 1] == kept[..m - 1];
    }
  }

  /** Keys that differ exactly at the kept positions whose noise check fired
      have the run's noise rate as their error rate; if no noise check fired
      anywhere, they are equal and the rate is 0. */
  lemma KeyRateIsNoiseRate(keyA: seq<int>, keyB: seq<int>, naturalNoise: real, draws: seq<QubitDraws>)
    requires var kept := KeptPositions(draws);
      |keyA| == |kept| && |keyB| == |kept| &&
      forall j :: 0 <= j < |kept| ==> (keyA[j] != keyB[j] <==> draws[kept[j]].noise < naturalNoise)
    ensures Qber(keyA, keyB) == NoiseRate(naturalNoise, draws)
    ensures (forall i :: 0 <= i < |draws| ==> draws[i].noise >= naturalNoise) ==>
      keyA == keyB && Qber(keyA, keyB) == 0.0
  {
    var kept := KeptPositions(draws);
    MismatchesAreFlips(keyA, keyB, draws, kept, naturalNoise, |kept|);
    assert kept[..|kept|] == kept;
    if forall i :: 0 <= i < |draws| ==> draws[i].noise >= naturalNoise {
      assert keyA == keyB;
      QberOfIdenticalKeys(keyA);
    }
  }

  /** One protocol run over `|draws|` qubits. The raw keys are the sender's
      values and the receiver's results at the positions whose bases agree,
      and they differ at a kept position exactly when the channel's noise
      check fired there; so without noise the keys agree and the error rate
      is 0, and with noise level 1 or more every kept position differs. The
      rate is the fraction of kept positions whose noise check fired. */
  method RunProtocol(naturalNoise: real, draws: seq<QubitDraws>)
    returns (rawKeyKamil: seq<int>, rawKeyKatarzyna: seq<int>, qber: real)
    ensures var kept := KeptPositions(draws);
      |rawKeyKamil| == |kept| && |rawKeyKatarzyna| == |kept| &&
      forall j :: 0 <= j < |kept| ==>
        draws[kept[j]].basis == draws[kept[j]].receiverBasis &&
        rawKeyKamil[j] == draws[kept[j]].value &&
        (rawKeyKamil[j] != rawKeyKatarzyna[j] <==> draws[kept[j]].noise < naturalNoise)
    ensures |rawKeyKamil| <= |draws|
    ensures AllBits(rawKeyKamil) && AllBits(rawKeyKatarzyna)
    ensures qber == Qber(rawKeyKamil, rawKeyKatarzyna)
    ensures qber == NoiseRate(naturalNoise, draws)
    ensures (forall i :: 0 <= i < |draws| ==> draws[i].noise >= naturalNoise) ==>
      rawKeyKamil == rawKeyKatarzyna && qber == 0.0
    ensures naturalNoise <= 0.0 ==> rawKeyKamil == rawKeyKatarzyna && qber == 0.0
    ensures naturalNoise >= 1.0 && rawKeyKamil != [] ==> qber == 1.0
  {
    var n := |draws|;
    // Stage 1: generation and transmission.
    var kamilOriginal: seq<Qubit> := [];
    var transmittedQubits: seq<Qubit> := [];
    var i := 0;
    while i < n
      invariant 0 <= i <= n
      invariant kamilOriginal == SentQubits(draws)[..i]
      invariant |transmittedQubits| == i
      invariant forall k :: 0 <= k < i ==>
        transmittedQubits[k].basis == kamilOriginal[k].basis &&
        WellFormed(transmittedQubits[k]) &&
        (transmittedQubits[k].value != kamilOriginal[k].value <==> draws[k].noise < naturalNoise)
    {
      var qOrig := GenerateQubit(draws[i].value, draws[i].basis);
      var qTrans := SendQubit(qOrig, naturalNoise, draws[i].noise);
      kamilOriginal := kamilOriginal + [qOrig];
      transmittedQubits := transmittedQubits + [qTrans];
      i := i + 1;
    }
    assert kamilOriginal == SentQubits(draws);

    // Stage 2: measurement; both vectors start as n zeros.
    var katarzynaBases := new int[n](_ => 0);
    var katarzynaResults := new int[n](_ => 0);
    i := 0;
    while i < n
      invariant 0 <= i <= n
      invariant forall k :: 0 <= k < i ==>
        katarzynaBases[k] == draws[k].receiverBasis &&
        IsBit(katarzynaResults[k]) &&
        (transmittedQubits[k].basis == katarzynaBases[k] ==> katarzynaResults[k] == transmittedQubits[k].value)
    {
      var result, basis := MeasureQubit(transmittedQubits[i], draws[i].receiverBasis, draws[i].outcome);
      katarzynaBases[i] := basis;
      katarzynaResults[i] := result;
      i := i + 1;
    }
    assert katarzynaBases[..] == ReceiverBases(draws);

    // Stage 3: sifting.
    rawKeyKamil, rawKeyKatarzyna := Sifting(kamilOriginal, katarzynaBases[..], katarzynaResults[..]);

    // Stage 4: the error rate.
    qber := CalculateQber(rawKeyKamil, rawKeyKatarzyna);

    KeyRateIsNoiseRate(rawKeyKamil, rawKeyKatarzyna, naturalNoise, draws);
    if naturalNoise >= 1.0 {
      QberOneIff(rawKeyKamil, rawKeyKatarzyna);
    }
  }

  /** The driver with its configured constants: `NumQubits` qubits over a
      channel with noise level `NaturalNoise`. */
  method Simulate(draws: seq<QubitDraws>) returns (rawKeyLength: nat, qber: real)
    requires |draws| == NumQubits
    ensures rawKeyLength <= NumQubits
    ensures rawKeyLength == |KeptPositions(draws)|
    ensures qber == NoiseRate(NaturalNoise, draws)
    ensures (forall i :: 0 <= i < |draws| ==> draws[i].noise >= NaturalNoise) ==> qber == 0.0
  {
    var rawKeyKamil, rawKeyKatarzyna;
    rawKeyKamil, rawKeyKatarzyna, qber := RunProtocol(NaturalNoise, draws);
    rawKeyLength := |rawKeyKamil|;
  }
}
