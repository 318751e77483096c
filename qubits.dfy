/** The qubit record and the parameter conventions of src/BB84.hpp.
    A qubit is abstracted to a classical (value, basis) pair of ints. */
module Qubits {

  /** The simulator stores bits as ints; a bit is 0 or 1. */
  predicate IsBit(x: int) {
    x == 0 || x == 1
  }

  /** What one uniform bit draw (`bit_dist`) yields. */
  type Bit = b: int | IsBit(b)

  /** A prepared qubit: `value` is the encoded bit, `basis` is 0 for the
      rectilinear Z basis and 1 for the diagonal X basis. */
  datatype Qubit = Qubit(value: int, basis: int)

  /** The invariant every qubit the protocol builds keeps. */
  predicate WellFormed(q: Qubit) {
    IsBit(q.value) && IsBit(q.basis)
  }

  /** The default noise level of the channel's declaration. */
  const DefaultNoiseLevel: real := 0.0
}
