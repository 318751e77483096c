# BB84 key-distribution simulator, modelled in Dafny

This project models the deterministic core of a simulator for BB84, the
Bennett–Brassard 1984 quantum key distribution protocol. The sender (Kamil)
prepares qubits, each a classical (value, basis) pair of bits. They cross a
channel that flips a value with probability equal to the natural noise level.
The receiver (Katarzyna) measures each qubit in a basis drawn on the receiving side.
Sifting keeps the positions whose bases agree, and the quantum bit error rate
(QBER) is the fraction of kept positions where the two raw keys differ.

The simulator draws from one global random generator. The model makes every
draw an explicit parameter instead: a `Bit` (an int that is 0 or 1) for each
uniform bit draw and a `UnitReal` (a real in [0, 1)) for each uniform real
draw. For each qubit, the draws come in the order the code makes them: the
value, then the basis, then the noise check, then the receiver's basis, and
last the random outcome, which is drawn only when the bases differ. Across
qubits, the program makes every generation and noise draw before any
receiver draw.

- `qubits.dfy`, module `Qubits` (src/BB84.hpp): the `Qubit` record, the
  `WellFormed` invariant (value and basis are both 0 or 1), and the declared
  default noise level 0.0.
- `protocol.dfy`, module `Protocol` (src/main.cpp:16-87):
  - `GenerateQubit` is a function.
  - `SendQubit` is a method that changes a local copy. `MeasureQubit` is a
    method that returns the basis it drew as a second out-parameter.
  - `Sifting` and `CalculateQber` are loops. They are proved against the
    specification functions `KeptIndices`, `MismatchCount` and `Qber`, whose
    properties are proved as lemmas.
- `simulation.dfy`, module `Simulation` (src/main.cpp:89-134): the `main`
  pipeline without its console output, as the method `RunProtocol`. Its
  parameters are the noise level and the draws for each qubit. `Simulate`
  fixes the run's constants: 10000 qubits and noise level 0.01. The functions
  `SentQubits`, `ReceiverBases` and `KeptPositions` only name, for
  `RunProtocol`'s contract, the qubits, bases and kept positions that the
  draws determine. `NoiseRate` is the fraction of kept positions whose noise
  check fired.

The model follows src/main.cpp as written:
- Fuller versions of this simulator add an intercept-resend eavesdropper, a
  multi-run experiment runner and a dataset recorder. No definition in
  src/main.cpp implements them, so they are not modelled.
- Sifting is meant for sender and receiver vectors of equal length. `sifting`
  only needs the receiver's two vectors to be at least as long as the
  sender's, because it indexes them without checks up to the sender's length.
  `Sifting` requires exactly that.

Note on the header: src/BB84.hpp:23-27 declares
`send_qubit(q, natural_noise_level = 0.0, attack_intensity = 0.0)`. However,
src/main.cpp:26 defines a separate two-parameter overload and never defines
the three-parameter one. Under the C++ overload rules, the two-argument call
at src/main.cpp:101 matches both declarations equally well, because default
arguments do not break the tie, so as written that call is ambiguous. A call
with the qubit alone could bind only to the three-parameter declaration, which
has no definition. The model follows the two-parameter definition.
`SendQubitWithDefaults` states what a call with only the qubit would mean
under the declared default noise level, although no such function is defined.

## Model

| member | source | states |
|---|---|---|
| `Protocol.GenerateQubit` | src/main.cpp:18-23 | the qubit is well formed; its value is the first bit draw and its basis the second |
| `Protocol.SendQubit` | src/main.cpp:26-34 | the basis is never changed; the value changes exactly when the noise draw is below the noise level, and then becomes `1 - value`; otherwise the qubit is returned unchanged; well-formedness is preserved; a noise level of 0 or less always returns the qubit unchanged |
| `Protocol.SendQubitWithDefaults` | src/BB84.hpp:23-27 | a transmission that gives only the qubit uses the default noise level 0.0 and returns the qubit unchanged, whatever the draw |
| `Protocol.MeasureQubit` | src/main.cpp:37-47 | the reported basis is the receiver's basis draw; when it equals the qubit's basis the result is the qubit's value, otherwise the result is the outcome draw; a qubit with a bit value always yields a bit |
| `Protocol.KeptIndices` | src/main.cpp:60-66 | the kept positions are strictly increasing, lie below the range, are exactly the positions whose bases agree, and number at most the range |
| `Protocol.KeptIndicesCount` | src/main.cpp:60-66 | the number of kept positions equals the size of the set of positions whose bases agree |
| `Protocol.Sifting` | src/main.cpp:50-67 | the previous contents of both keys are discarded; both keys have length equal to the number of positions whose bases agree, which is at most the number of qubits; the j-th entries are the sender's value and the receiver's result at the j-th kept position, in order; bit inputs give bit keys |
| `Protocol.MismatchCount` | src/main.cpp:76-84 | the number of differing positions in a range is at most the range's length |
| `Protocol.MismatchCountZero` | src/main.cpp:80-84 | no mismatch is counted exactly when the keys agree at every position of the range |
| `Protocol.MismatchCountAll` | src/main.cpp:80-84 | every position is counted exactly when the keys differ at every position of the range |
| `Protocol.Qber` | src/main.cpp:70-86 | the error rate always lies in [0, 1] |
| `Protocol.QberZeroIff` | src/main.cpp:74-85 | the rate is 0 if and only if a key is empty or the keys agree on their first min(length) positions |
| `Protocol.QberOneIff` | src/main.cpp:74-85 | the rate is 1 if and only if both keys are non-empty and differ at each of their first min(length) positions |
| `Protocol.QberOfIdenticalKeys` | src/main.cpp:74-85 | a key compared with itself has rate 0 |
| `Protocol.CalculateQber` | src/main.cpp:70-86 | the counting loop returns 0 for an empty key and otherwise mismatches divided by min(length), which is the rate `Qber`; the result lies in [0, 1] |
| `Simulation.MismatchesAreFlips` | src/main.cpp:80-84 | when two keys differ exactly at the kept positions whose noise check fired, the error count over any prefix equals the number of flips among those kept positions |
| `Simulation.KeyRateIsNoiseRate` | src/main.cpp:74-85 | such keys have the run's noise rate as their error rate; if no noise check fired anywhere, the keys are equal and the rate is 0 |
| `Simulation.RunProtocol` | src/main.cpp:99-129 | the raw keys keep exactly the positions whose bases agree, hold bits, and are at most as long as the run; the sender's key holds the prepared values; the keys differ at a kept position if and only if the noise check fired there; the result is the rate of the two keys and equals the fraction of kept positions whose noise check fired; if no noise check fired (in particular with noise 0) the keys are equal and the rate is 0; with noise 1 or more a non-empty key has rate 1 |
| `Simulation.Simulate` | src/main.cpp:90-129 | with 10000 qubits and noise 0.01, the raw key length is the number of positions whose bases agree, at most 10000; the rate is the fraction of kept positions whose noise draw is below 0.01, and it is 0 when no noise draw is below 0.01 |

## Left out

- The global Mersenne Twister generator and its seeding (src/main.cpp:11-14): draws are parameters. The model does not state that the draws come from one shared stream. It also does not state that a matching-basis measurement leaves its unused outcome draw for the next call.
- Console output of `main` (src/main.cpp:106, 117, 125-126, 131) and its return code.
- The `attack_intensity` parameter declared in src/BB84.hpp:26: no definition uses it. Interception, the multi-run experiment runner and dataset recording have no implementation in the modelled code.
- Statistical properties (about half the positions kept; the expected QBER under noise): they are probabilistic and cannot be stated about a deterministic model.
- Floating point: the QBER is the real ratio of the error count to the common length. The noise check compares reals. IEEE doubles are not modelled.
- Fixed-width integers: `errors` (int) and the lengths (size_t) are unbounded here. With 10000 qubits no overflow can occur.
- Aliasing: `sifting` takes its two outputs by reference. Passing the same vector for both would interleave the pushes. The model returns two separate keys.
