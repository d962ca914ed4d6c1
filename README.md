# quantum4j core, modelled in Dafny

quantum4j is a Java library for building and simulating quantum circuits. This project models
its core:

- **Complex arithmetic and the gate matrices.** These are `Complex`, `GateMatrices` and the
  `StandardGates` classes, including the parametrised RX/RY/RZ and U1/U2/U3 gates, and the
  separate `CNOTGate` and `CCXGate` classes of the `io` package.
- **The state-vector kernels.**
  - `SingleQubitGate.apply`, `TwoQubitGate.apply` and `ThreeQubitGate.apply` update a
    `StateVector`'s amplitude array in place.
  - `StateVector` itself holds the amplitudes and performs whole-register and single-qubit
    measurement.
- **`StateVectorBackend.run`.** It executes a circuit shot by shot and counts the classical
  outcomes. `RunOptions` carries the shot count and the backend type.
- **The circuit builders.** These are the two `QuantumCircuit` classes (`com` and `io`) and
  `Instruction`.
- **The transpiler.**
  - The orchestration: `PassManager` and `DefaultTranspiler`.
  - The rewriting passes: swap, U3, basis and CX→CZ decomposition; CX cancellation; rotation
    fusion; gate commutation; gate inversion; cancellation of adjacent X/H/Z pairs; and removal
    of redundant measurements.
- **The `QFT` circuit builder.**
- **The OpenQASM 2.0 exporter and importer.**

## How the model is organised

- Gates and instructions are values.
  - `Gates.Gate` has one constructor per gate class.
  - `Circuits.Instruction` is either `GateOp(gate, qubits)` or `MeasureOp(qubit, cbit)`.
  - `Circuits.Circuit` pairs a qubit count with an instruction sequence.
  - `Gates.Matrix` gives each gate its matrix.
- Complex numbers are exact pairs of reals. `cos`, `sin` and `1/sqrt` are not interpreted.
  - They arrive as a `Numerics` record `num`.
  - Where a proof needs `INV_SQRT2² = ½`, it says so through `ExactInvSqrt2(num)`.
- The state vector is a `class` that owns an `array` of amplitudes. The gate kernels and the
  measurements are methods that update that array in place.
  - Each method is proved against a function on sequences, such as `SingleResult`,
    `Collapse` or `Choose`.
  - Those functions carry the lemmas about what a gate or a measurement does.
- `RunOptions`, `PassManager` and the two circuit builders are classes whose methods update
  their fields.
- The passes rebuild a circuit in a loop. Each pass is a method proved equal to a recursive
  function on the instruction sequence, and the pass's properties are lemmas about that
  function.
- Java exceptions become `Result` failures with a kind: `IllegalArgument`, `IllegalState`,
  `IndexOutOfBounds`, `QasmParse` or `UnsupportedOperation`.
- Randomness enters as a parameter. A draw `r` in [0, 1) is passed to each measurement, and a
  draw function to each backend run.
- Java's decimal formatting and parsing of doubles are a formatter/parser pair. The QASM
  round trip assumes that this pair reads back what it prints.
- The `com` and `io` packages form one program: each imports the other's classes. They share
  one `Instruction` and one `Circuit` value type.
  - The `com` builder appends the `StandardGates` classes.
  - The `io` builder's `cx` and `ccx` append the `io` `CNOTGate` and `CCXGate` classes, which
    are `Gates.IoCNOT` and `Gates.IoCCX` here. They carry their matrix literals as written, and
    the backend simulates those literals (see Findings).
  - The passes, the QFT builder and the importer are modelled as building with the `com`
    builder. This is a modelling decision: `QFT.java`, `PassManager.java` and several passes
    import the `io` `QuantumCircuit`, but the calls they make (`u1` in `QFT.java` line 66,
    `addInstruction` in the passes) exist only on the `com` builder, and `QFTTest` expects the
    `StandardGates` classes in the QFT's output.

## Model

| member | source | states |
|---|---|---|
| ComplexNumbers.AbsSquared | src/main/java/io/quantum4j/core/math/Complex.java:107-109 | the squared modulus is never negative, and it is 0 exactly at ZERO |
| ComplexNumbers.Scale | src/main/java/io/quantum4j/core/math/Complex.java:98-100 | scaling by a real multiplies the squared modulus by its square; scaling by 1 is the identity and by 0 gives ZERO |
| ComplexNumbers.Conjugate | src/main/java/io/quantum4j/core/math/Complex.java:116-118 | the conjugate keeps the modulus and the real part; z times its conjugate is the real number abs²(z); z plus its conjugate is real |
| ComplexNumbers.Equals | src/main/java/io/quantum4j/core/math/Complex.java:126-131 | equal exactly when both components agree |
| ComplexNumbers.AddSubCancel | src/main/java/io/quantum4j/core/math/Complex.java:60-74 | subtracting what was added gives the number back, and addition commutes |
| ComplexNumbers.MulOneIdentity | src/main/java/io/quantum4j/core/math/Complex.java:84-88 | ONE is a two-sided identity for the product |
| ComplexNumbers.ZeroLaws | src/main/java/io/quantum4j/core/math/Complex.java:60-88 | ZERO is neutral for the sum and absorbing for the product |
| ComplexNumbers.MulAbsSquared | src/main/java/io/quantum4j/core/math/Complex.java:84-109 | the squared modulus of a product is the product of the squared moduli |
| ComplexNumbers.MulCommutes | src/main/java/io/quantum4j/core/math/Complex.java:84-88 | the product is commutative |
| ComplexNumbers.ConjugateInvolution | src/main/java/io/quantum4j/core/math/Complex.java:116-118 | conjugating twice gives the number back |
| GateMatrices.RX | src/main/java/com/quantum4j/core/gates/GateMatrices.java:61-68 | RX(θ) is 2×2 and symmetric, with two equal real diagonal entries and purely imaginary off-diagonal entries |
| GateMatrices.RY | src/main/java/com/quantum4j/core/gates/GateMatrices.java:70-77 | RY(θ) is 2×2 and real, with equal diagonal entries, and its lower-left entry is the negation of its upper-right entry |
| GateMatrices.RZ | src/main/java/com/quantum4j/core/gates/GateMatrices.java:79-86 | RZ(θ) is diagonal, and its second diagonal entry is the conjugate of the first |
| GateMatrices.MatrixShapes | src/main/java/com/quantum4j/core/gates/GateMatrices.java:27-157 | every matrix is square: 2×2 for X, Y, Z, H, S, T, RX, RY and RZ, 4×4 for CNOT, CZ, SWAP, ISWAP and CH, and 8×8 for CCX |
| GateMatrices.PermutationGatesArePermutationMatrices | src/main/java/com/quantum4j/core/gates/GateMatrices.java:27-157 | X, CNOT, SWAP and CCX are the permutation matrices of [1,0], [0,1,3,2], [0,2,1,3] and [0,1,2,3,4,5,7,6] |
| GateMatrices.XIsPerm | src/main/java/com/quantum4j/core/gates/GateMatrices.java:27-30 | X is the permutation matrix that exchanges the two basis states |
| GateMatrices.CnotIsPerm | src/main/java/com/quantum4j/core/gates/GateMatrices.java:109-114 | CNOT is the permutation matrix of [0,1,3,2] |
| GateMatrices.SwapIsPerm | src/main/java/com/quantum4j/core/gates/GateMatrices.java:123-128 | SWAP is the permutation matrix of [0,2,1,3] |
| GateMatrices.CcxIsPerm | src/main/java/com/quantum4j/core/gates/GateMatrices.java:148-157 | CCX is the permutation matrix that exchanges basis states 6 and 7 and fixes the rest |
| GateMatrices.CnotOnBasis | src/main/java/com/quantum4j/core/gates/GateMatrices.java:109-114 | CNOT maps basis state 2 to 3 and 3 to 2, and fixes 0 and 1 |
| GateMatrices.SwapOnBasis | src/main/java/com/quantum4j/core/gates/GateMatrices.java:123-128 | SWAP exchanges basis states 1 and 2, and fixes 0 and 3 |
| GateMatrices.CcxOnBasis | src/main/java/com/quantum4j/core/gates/GateMatrices.java:148-157 | CCX exchanges basis states 6 and 7, and fixes the other six |
| GateMatrices.IswapOnBasis | src/main/java/com/quantum4j/core/gates/GateMatrices.java:130-135 | ISWAP exchanges basis states 1 and 2 with phase i, and fixes 0 and 3 |
| GateMatrices.PhasedConstants | src/main/java/com/quantum4j/core/gates/GateMatrices.java:32-135 | Y, Z, CZ and ISWAP are permutation matrices with unit phases (Y with -i and i, Z and CZ with a final -1) |
| GateMatrices.SelfInversePermutations | src/main/java/com/quantum4j/core/gates/GateMatrices.java:27-157 | X, CNOT, SWAP and CCX squared are the identity |
| GateMatrices.SelfInversePhased | src/main/java/com/quantum4j/core/gates/GateMatrices.java:32-121 | Y, Z and CZ squared are the identity |
| GateMatrices.YSquare | src/main/java/com/quantum4j/core/gates/GateMatrices.java:32-35 | Y·Y is the 2×2 identity |
| GateMatrices.ZSquare | src/main/java/com/quantum4j/core/gates/GateMatrices.java:37-40 | Z·Z is the 2×2 identity |
| GateMatrices.CzSquare | src/main/java/com/quantum4j/core/gates/GateMatrices.java:116-121 | CZ·CZ is the 4×4 identity |
| GateMatrices.HadamardSelfInverse | src/main/java/com/quantum4j/core/gates/GateMatrices.java:21-45 | when INV_SQRT2² is exactly ½, H·H is the identity |
| GateMatrices.ControlledHadamardSelfInverse | src/main/java/com/quantum4j/core/gates/GateMatrices.java:137-142 | when INV_SQRT2² is exactly ½, CH·CH is the identity |
| GateMatrices.DiagonalConstants | src/main/java/com/quantum4j/core/gates/GateMatrices.java:37-121 | Z, S, T and CZ are diagonal, and CZ's diagonal is 1, 1, 1, -1 |
| GateMatrices.InvolutionPermutationMatrix | src/main/java/com/quantum4j/core/gates/GateMatrices.java:27-157 | a permutation matrix whose permutation is its own inverse squares to the identity |
| GateMatrices.PhasedPermMatVec | src/main/java/com/quantum4j/core/gates/GateMatrices.java:27-157 | for an involutive permutation, row i of the phased permutation matrix picks amplitude p[i] times phase i |
| Gates.Arity | src/main/java/com/quantum4j/core/gates/StandardGates.java:29-331 | a gate has arity 1, 2 or 3 exactly when it is a single-, two- or three-qubit gate class |
| Gates.U3Matrix | src/main/java/com/quantum4j/core/gates/StandardGates.java:262-275 | the U3 matrix is 2×2, so a U3 gate passes the single-qubit shape check |
| Gates.U1Matrix | src/main/java/com/quantum4j/core/gates/StandardGates.java:324-330 | U1(λ) is diagonal with 1 and e^{iλ} |
| Gates.MatrixMatchesArity | src/main/java/com/quantum4j/core/gates/StandardGates.java:29-331 | every gate's matrix is square of size 2^arity, so it meets its kernel's shape check |
| Gates.NamesAreLowercase | src/main/java/com/quantum4j/core/gates/StandardGates.java:36-319 | every gate name is non-empty and made of lower-case letters and digits, so lower-casing it changes nothing |
| Gates.NamesDetermineClass | src/main/java/com/quantum4j/core/gates/StandardGates.java:36-319 | two gates with the same name are of the same class, except that the io CNOT and CCX classes share their names with the standard ones |
| Gates.U2IsU3 | src/main/java/com/quantum4j/core/gates/StandardGates.java:282-291 | U2(φ, λ) has the matrix of U3(π/2, φ, λ) |
| Gates.U1IsPhase | src/main/java/com/quantum4j/core/gates/StandardGates.java:308-330 | when cos 0 = 1 and sin 0 = 0, U1(λ) is diagonal with e^{iλ} in the second entry, and has the matrix of U3(0, 0, λ) |
| Gates.IoLiteralsArePermutations | src/main/java/io/quantum4j/core/gates/CNOTGate.java:8-22 | the io CNOT and CCX literals are the permutation matrices of [0,3,2,1] and [0,1,2,7,4,5,6,3] |
| Gates.IoCnotAsWrittenOnBasis | src/main/java/io/quantum4j/core/gates/CNOTGate.java:8-22 | the io CNOT literal exchanges local basis states 1 and 3 |
| Gates.IoCcxAsWrittenOnBasis | src/main/java/io/quantum4j/core/gates/CCXGate.java:15-44 | the io CCX literal exchanges local basis states 3 and 7 |
| Gates.IoLiteralsSelfInverse | src/main/java/io/quantum4j/core/gates/CCXGate.java:15-44 | both io literals square to the identity |
| AmplitudeGroups.Groups2Partition | src/main/java/io/quantum4j/core/gates/TwoQubitGate.java:70-103 | every index belongs to exactly one 4-index group, the one whose base has both gate qubits cleared, at the local position given by its two bits |
| AmplitudeGroups.Member2Bits | src/main/java/io/quantum4j/core/gates/TwoQubitGate.java:47-76 | the member at local position c has bit q0 equal to c's high bit and bit q1 equal to its low bit, and keeps all other bits of the base |
| AmplitudeGroups.Local2Member2 | src/main/java/io/quantum4j/core/gates/TwoQubitGate.java:47-76 | the local position of a group's member is the position it was built from |
| AmplitudeGroups.Groups3Partition | src/main/java/io/quantum4j/core/gates/ThreeQubitGate.java:74-99 | every index belongs to exactly one 8-index group, at the local position localK gives it |
| AmplitudeGroups.Member3Bits | src/main/java/io/quantum4j/core/gates/ThreeQubitGate.java:74-99 | the member at local position c carries c's three bits on q0, q1 and q2, and keeps the base's other bits |
| AmplitudeGroups.Local3Member3 | src/main/java/io/quantum4j/core/gates/ThreeQubitGate.java:74-79 | localK of a group's member is the position it was built from |
| AmplitudeGroups.Pair1 | src/main/java/io/quantum4j/core/gates/SingleQubitGate.java:65-80 | for an index i with the target bit cleared, its twin has the bit set and clears back to i, and every index that clears to i is i or its twin |
| GateKernels.NewSingleQubitGate | src/main/java/io/quantum4j/core/gates/SingleQubitGate.java:27-32 | construction succeeds exactly for a 2×2 matrix; otherwise IllegalArgument |
| GateKernels.NewTwoQubitGate | src/main/java/io/quantum4j/core/gates/TwoQubitGate.java:35-40 | the corrected constructor (see Findings): it accepts exactly a matrix with 4 rows of 4 entries and fails with IllegalArgument otherwise; Java checks only the row count and the first row's length (TwoQubitCheckAsWritten), and every matrix accepted here passes that check too |
| GateKernels.NewThreeQubitGate | src/main/java/io/quantum4j/core/gates/ThreeQubitGate.java:30-35 | the corrected constructor (see Findings): it accepts exactly a matrix with 8 rows of 8 entries and fails with IllegalArgument otherwise; Java checks only the row count and the first row's length (ThreeQubitCheckAsWritten), and every matrix accepted here passes that check too |
| GateKernels.ShapeChecksAdmitRaggedRows | src/main/java/io/quantum4j/core/gates/TwoQubitGate.java:35-40 | the checks as written accept a ragged 4-row matrix whose second row has 3 entries, and an 8-row matrix whose last row is empty |
| GateKernels.ApplySingle | src/main/java/io/quantum4j/core/gates/SingleQubitGate.java:54-81 | a target outside [0, n) is IllegalArgument and leaves the state alone; otherwise each (\|…0…⟩, \|…1…⟩) pair is multiplied by the 2×2 matrix, which is SingleResult |
| GateKernels.ApplyTwo | src/main/java/io/quantum4j/core/gates/TwoQubitGate.java:56-106 | equal qubits are IllegalArgument and an out-of-range qubit is IndexOutOfBounds, both leaving the state alone; otherwise every 4-amplitude group ordered \|q0 q1⟩ is multiplied by the matrix (TwoResult) |
| GateKernels.ApplyThree | src/main/java/io/quantum4j/core/gates/ThreeQubitGate.java:51-104 | repeated qubits are IllegalArgument and an out-of-range qubit IndexOutOfBounds, both leaving the state alone; otherwise every 8-amplitude group is multiplied by the matrix (ThreeResult) |
| GateKernels.ThreeInto | src/main/java/io/quantum4j/core/gates/ThreeQubitGate.java:56-99 | the scratch vector receives ThreeResult of the source amplitudes |
| GateKernels.GroupSum | src/main/java/io/quantum4j/core/gates/ThreeQubitGate.java:82-99 | the column loop sums a row of the matrix times the gathered group, which is their dot product |
| GateKernels.SingleStep | src/main/java/io/quantum4j/core/gates/SingleQubitGate.java:65-80 | one loop step writes the 2×2 product of the pair starting at index i and changes nothing else |
| GateKernels.TwoStep | src/main/java/io/quantum4j/core/gates/TwoQubitGate.java:85-103 | one loop step writes the 4×4 product of the group whose base is idx and changes nothing else |
| GateKernels.TwoResultAtBase | src/main/java/io/quantum4j/core/gates/TwoQubitGate.java:70-103 | at each member of a group, TwoResult is the dot product of the matching matrix row with the gathered group |
| GateSemantics.SinglePermutes | src/main/java/io/quantum4j/core/gates/SingleQubitGate.java:54-81 | a 2×2 permutation matrix moves each amplitude to the index whose target bit is permuted |
| GateSemantics.SinglePermutesBasis | src/main/java/io/quantum4j/core/gates/SingleQubitGate.java:54-81 | on a basis state, a single-qubit gate whose matrix is an involutive permutation gives the basis state with the target bit permuted |
| GateSemantics.SingleTwiceRestores | src/main/java/io/quantum4j/core/gates/SingleQubitGate.java:54-81 | applying a single-qubit gate whose matrix is an involutive permutation twice gives the vector back |
| GateSemantics.XSwapsPairs | src/main/java/io/quantum4j/core/gates/SingleQubitGate.java:54-81 | X exchanges the amplitudes of each index and its twin with the target bit flipped |
| GateSemantics.XTwiceRestores | src/main/java/io/quantum4j/core/gates/SingleQubitGate.java:54-81 | X applied twice to any qubit gives the vector back |
| GateSemantics.XOnBasis | src/main/java/io/quantum4j/core/gates/SingleQubitGate.java:54-81 | X on basis state k gives basis state k with the target bit flipped |
| GateSemantics.TwoPermutes | src/main/java/io/quantum4j/core/gates/TwoQubitGate.java:56-106 | an involutive 4×4 permutation matrix moves each amplitude to the index whose two gate bits are permuted |
| GateSemantics.TwoPermutesBasis | src/main/java/io/quantum4j/core/gates/TwoQubitGate.java:56-106 | on a basis state, such a two-qubit gate gives the basis state with the two gate bits permuted |
| GateSemantics.TwoTwiceRestores | src/main/java/io/quantum4j/core/gates/TwoQubitGate.java:56-106 | such a two-qubit gate, applied twice, gives the vector back |
| GateSemantics.CnotFlipsTarget | src/main/java/com/quantum4j/core/gates/GateMatrices.java:109-114 | CNOT(c, t) on basis state k gives k with bit t flipped exactly when bit c of k is 1 |
| GateSemantics.SwapExchangesBits | src/main/java/com/quantum4j/core/gates/GateMatrices.java:123-128 | SWAP(a, b) on basis state k gives k with bits a and b exchanged |
| GateSemantics.IoCnotAsWrittenFlipsFirst | src/main/java/io/quantum4j/core/gates/CNOTGate.java:8-22 | the io CNOT literal, applied to (c, t), flips bit c when bit t is 1: the first argument is the target |
| GateSemantics.ThreePermutes | src/main/java/io/quantum4j/core/gates/ThreeQubitGate.java:51-104 | an involutive 8×8 permutation matrix moves each amplitude to the index whose three gate bits are permuted |
| GateSemantics.ThreePermutesBasis | src/main/java/io/quantum4j/core/gates/ThreeQubitGate.java:51-104 | on a basis state, such a three-qubit gate gives the basis state with the three gate bits permuted |
| GateSemantics.ThreeTwiceRestores | src/main/java/io/quantum4j/core/gates/ThreeQubitGate.java:51-104 | such a three-qubit gate, applied twice, gives the vector back |
| GateSemantics.CcxFlipsTarget | src/main/java/com/quantum4j/core/gates/GateMatrices.java:148-157 | CCX(c1, c2, t) on basis state k flips bit t exactly when bits c1 and c2 are both 1 |
| GateSemantics.IoCcxAsWrittenFlipsFirst | src/main/java/io/quantum4j/core/gates/CCXGate.java:15-44 | the io CCX literal, applied to (c1, c2, t), flips bit c1 when bits c2 and t are both 1 |
| GateTraces.XTrace | src/test/java/com/quantum4j/tests/TestXGate.java:10-24 | X(a) on \|0…0⟩ gives the basis state with only bit a set; its probabilities sum to 1, sampling picks it, and its bit string has '1' only at position a |
| GateTraces.CnotTrace | src/test/java/com/quantum4j/tests/TestCNOT.java:10-27 | x(a) then cx(a, b) with the standard CNOT gives the basis state with bits a and b set ("11") |
| GateTraces.IoCnotTraceAsWritten | src/main/java/io/quantum4j/core/gates/CNOTGate.java:8-22 | x(a) then the io CNOT on (a, b) leaves only bit a set: bit b reads '0', not the '1' the gate's comment promises |
| GateTraces.SwapTrace | src/test/java/io/quantum4j/tests/TestSWAP.java:10-39 | x(a) then swap(a, b) gives the basis state with only bit b set |
| GateTraces.TwoFlipsFromZero | src/test/java/com/quantum4j/tests/TestMeasurement.java:10-26 | two X gates on distinct qubits from \|0…0⟩ give the basis state with both bits set |
| GateTraces.CcxTrace | src/test/java/io/quantum4j/tests/TestCCX.java:10-26 | x(a), x(b) then the standard CCX(a, b, c) gives all three bits set ("111") |
| GateTraces.CcxOnBasisState | src/main/java/com/quantum4j/core/gates/GateMatrices.java:148-157 | CCX on a basis state flips the target bit exactly when both control bits are set |
| GateTraces.CcxOneControlTrace | src/test/java/io/quantum4j/tests/TestCCX.java:20-26 | with only one control set, CCX leaves the state unchanged ("100") |
| GateTraces.IoCcxTraceAsWritten | src/main/java/io/quantum4j/core/gates/CCXGate.java:15-44 | x(a), x(b) then the io CCX literal on (a, b, c) leaves the state unchanged: "110", not the "111" TestCCX expects |
| GateTraces.FlipFromZero | src/main/java/io/quantum4j/core/gates/SingleQubitGate.java:54-81 | X(a) on \|0…0⟩ gives the basis state With(0, a, 1) |
| StateVectors.StateVector.Init | src/main/java/io/quantum4j/core/math/StateVector.java:30-42 | a new state on n > 0 qubits is the basis state \|0…0⟩ over 2^n fresh amplitudes |
| StateVectors.Create | src/main/java/io/quantum4j/core/math/StateVector.java:30-42 | the constructor fails with IllegalArgument exactly when n ≤ 0; otherwise the state is \|0…0⟩ on n qubits |
| StateVectors.StateVector.Dimension | src/main/java/io/quantum4j/core/math/StateVector.java:58-60 | the dimension is 2^numQubits, at least 2 |
| StateVectors.StateVector.GetAmplitudes | src/main/java/io/quantum4j/core/math/StateVector.java:67-69 | the live amplitude array itself is returned, not a copy |
| StateVectors.StateVector.Copy | src/main/java/io/quantum4j/core/math/StateVector.java:76-80 | the copy is a fresh state with a fresh array holding the same amplitudes |
| StateVectors.StateVector.MeasureAll | src/main/java/io/quantum4j/core/math/StateVector.java:94-124 | a zero-norm state is IllegalState and is left alone; otherwise the state collapses to the basis state chosen by the cumulative scan of the normalised probabilities at draw r, and its bit string is returned |
| StateVectors.StateVector.MeasureOne | src/main/java/io/quantum4j/core/math/StateVector.java:150-205 | a qubit outside [0, n) is IllegalArgument; a zero-norm state fails as the source does; otherwise the outcome is sampled from the qubit's normalised marginals and the state is collapsed onto it and renormalised |
| StateVectors.QubitMarginals | src/main/java/io/quantum4j/core/math/StateVector.java:160-169 | the weights summed are exactly the squared magnitudes of the amplitudes whose qubit bit is 0, respectively 1 |
| StateVectors.CollapseOnto | src/main/java/io/quantum4j/core/math/StateVector.java:195-202 | afterwards the array is the collapse of its old contents: amplitudes agreeing with the outcome on the qubit are scaled by the norm, all others are zero |
| StateVectors.ProbabilitiesOf | src/main/java/io/quantum4j/core/math/StateVector.java:95-100 | the loop computes \|a_i\|² for every i and their total |
| StateVectors.NormalizeInPlace | src/main/java/io/quantum4j/core/math/StateVector.java:105-107 | each probability is divided by the total, in place |
| StateVectors.ScanCumulative | src/main/java/io/quantum4j/core/math/StateVector.java:109-116 | the scan returns the first index whose cumulative probability exceeds r, or the last index if none does |
| StateVectors.CollapseTo | src/main/java/io/quantum4j/core/math/StateVector.java:119-121 | after collapse the amplitudes are the basis state of the chosen index |
| StateVectors.IndexToBitString | src/main/java/io/quantum4j/core/math/StateVector.java:126-133 | character q of the string is bit q of the index (qubit 0 first) |
| StateVectors.NormalizedSum | src/main/java/io/quantum4j/core/math/StateVector.java:105-107 | after dividing by s, the probabilities sum to the old total divided by s |
| StateVectors.ChooseFromFacts | src/main/java/io/quantum4j/core/math/StateVector.java:109-116 | the chosen index lies in range; if it is not the fallback, r is below the cumulative sum through it, and r is at or above every earlier cumulative sum |
| StateVectors.ChooseInRange | src/main/java/io/quantum4j/core/math/StateVector.java:109-116 | when r is below the total, the scan picks a real index |
| StateVectors.ChosenIsPositive | src/main/java/io/quantum4j/core/math/StateVector.java:109-116 | for r ≥ 0 the scan never picks an index of probability 0 |
| StateVectors.MeasureAllChoosesOutcome | src/main/java/io/quantum4j/core/math/StateVector.java:94-124 | for a non-zero state and r in [0, 1), measureAll collapses onto an index whose amplitude is not zero |
| StateVectors.BasisMeasuresItself | src/main/java/io/quantum4j/core/math/StateVector.java:94-124 | a basis state has total probability 1 and measures to its own index for every draw |
| StateVectors.BasisNorm | src/main/java/io/quantum4j/core/math/StateVector.java:95-100 | a basis state's probabilities are 1 at its index and 0 elsewhere, summing to 1 |
| StateVectors.BasisProbabilities | src/main/java/io/quantum4j/core/math/StateVector.java:95-100 | the probability vector of basis state c is the indicator of c |
| StateVectors.UnitChoose | src/main/java/io/quantum4j/core/math/StateVector.java:109-116 | on an indicator vector the scan picks the indicated index for every r in [0, 1) |
| StateVectors.BitStringInjective | src/main/java/io/quantum4j/core/math/StateVector.java:126-133 | different indices below 2^n give different bit strings |
| StateVectors.BitProbTotal | src/main/java/io/quantum4j/core/math/StateVector.java:160-169 | p0 and p1 of a qubit add up to the total probability |
| StateVectors.SampleOutcomeNormalised | src/main/java/io/quantum4j/core/math/StateVector.java:179-190 | with normalised marginals, the outcome is 0 exactly when r < p0, and the kept probability is positive |
| StateVectors.MeasureOneOutcome | src/main/java/io/quantum4j/core/math/StateVector.java:160-190 | for a non-zero state the single-qubit measurement succeeds, gives 0 exactly when r is below p0/total, and keeps a positive probability |
| StateVectors.CollapseClearsOther | src/main/java/io/quantum4j/core/math/StateVector.java:192-202 | after collapsing a qubit to b, the other outcome has probability 0 |
| StateVectors.OneOutcomeCertain | src/main/java/io/quantum4j/core/math/StateVector.java:171-190 | if outcome 1-b has probability 0, measuring gives b with probability 1 for every draw |
| StateVectors.RemeasureAgrees | src/main/java/io/quantum4j/core/math/StateVector.java:150-205 | measuring a qubit again after it collapsed to b gives b again with certainty |
| Backend.ContainsMeasurements | src/main/java/io/quantum4j/core/backend/StateVectorBackend.java:107-109 | true exactly when some instruction is a measurement |
| Backend.GateStep | src/main/java/io/quantum4j/core/backend/StateVectorBackend.java:53-71 | a successful gate step keeps the vector's length |
| Backend.MeasureStep | src/main/java/io/quantum4j/core/backend/StateVectorBackend.java:73-80 | a successful measurement keeps the lengths, its qubit and bit were in range, and the register stays binary |
| Backend.Step | src/main/java/io/quantum4j/core/backend/StateVectorBackend.java:53-80 | a successful instruction step keeps the lengths and keeps the register binary |
| Backend.Execute | src/main/java/io/quantum4j/core/backend/StateVectorBackend.java:44-80 | a successful run of the instructions leaves 2^n amplitudes and an n-bit binary register |
| Backend.Outcomes | src/main/java/io/quantum4j/core/backend/StateVectorBackend.java:44-98 | k successful shots give k outcomes |
| Backend.Keys | src/main/java/io/quantum4j/core/backend/StateVectorBackend.java:89-96 | the keys are the shots' bit strings, in shot order |
| Backend.Merge | src/main/java/io/quantum4j/core/backend/StateVectorBackend.java:96 | after merging, the outcome is present with one more than its previous count |
| Backend.ApplyGate | src/main/java/io/quantum4j/core/backend/StateVectorBackend.java:53-71 | the in-place dispatch to the single-, two- or three-qubit kernel agrees with GateStep, success and error alike |
| Backend.BuildClassicalString | src/main/java/io/quantum4j/core/backend/StateVectorBackend.java:111-117 | the loop writes the register as a string of '0' and '1', bit 0 first |
| Backend.ExecuteInstruction | src/main/java/io/quantum4j/core/backend/StateVectorBackend.java:53-80 | the in-place execution of one instruction agrees with Step on the amplitudes and the register |
| Backend.ExecuteAt | src/main/java/io/quantum4j/core/backend/StateVectorBackend.java:50-80 | one pass of the instruction loop: from the state and register that Execute gives for the first i instructions, executing instruction i gives Execute's state and register for i + 1 instructions, or Execute's error |
| Backend.ExecuteAll | src/main/java/io/quantum4j/core/backend/StateVectorBackend.java:50-80 | the instruction loop agrees with Execute: on success it holds the final state and register, on failure it reports Execute's error |
| Backend.CopyAndRunShot | src/main/java/io/quantum4j/core/backend/StateVectorBackend.java:46-94 | copying the base state and running one shot gives that shot's outcome |
| Backend.RunShot | src/main/java/io/quantum4j/core/backend/StateVectorBackend.java:47-94 | one shot gives the bit string of the register when the circuit measures, otherwise the result of measureAll, together with the final state |
| Backend.RunShots | src/main/java/io/quantum4j/core/backend/StateVectorBackend.java:40-100 | the shot loop, started from the \|0…0⟩ base state, gives RunValue: the first failing shot's error, or the tally of the shots' outcome strings with the last shot's state |
| Backend.Run | src/main/java/io/quantum4j/core/backend/StateVectorBackend.java:36-101 | the counts and final state are RunValue: a failing shot fails the run, otherwise the counts tally the shots' strings and the final state is the last shot's |
| Backend.OutcomeIsBit | src/main/java/io/quantum4j/core/math/StateVector.java:179-190 | a single-qubit outcome is 0 or 1 |
| Backend.ExecuteNext | src/main/java/io/quantum4j/core/backend/StateVectorBackend.java:50-80 | running one more instruction is one more Step |
| Backend.ErrorSticks | src/main/java/io/quantum4j/core/backend/StateVectorBackend.java:50-80 | once an instruction fails, running further instructions reports the same failure |
| Backend.RunValueFail | src/main/java/io/quantum4j/core/backend/StateVectorBackend.java:36-101 | a failing shot makes the whole run fail with its error |
| Backend.RunValueOk | src/main/java/io/quantum4j/core/backend/StateVectorBackend.java:36-101 | when every shot succeeds, the result tallies their strings and keeps the last shot's state |
| Backend.OutcomesStep | src/main/java/io/quantum4j/core/backend/StateVectorBackend.java:44-98 | one more successful shot appends its outcome, and the tally merges its string |
| Backend.OutcomesFail | src/main/java/io/quantum4j/core/backend/StateVectorBackend.java:44-98 | a failing shot before the last makes the whole sequence fail with its error |
| Backend.OutcomesErrorSticks | src/main/java/io/quantum4j/core/backend/StateVectorBackend.java:44-98 | once a shot fails, later shot counts report the same failure |
| BackendFacts.DispatchTotal | src/main/java/io/quantum4j/core/backend/StateVectorBackend.java:53-71 | every gate is a single-, two- or three-qubit gate, so the dispatch never reports UnsupportedOperation |
| BackendFacts.TallyCounts | src/main/java/io/quantum4j/core/backend/StateVectorBackend.java:96 | the tally holds exactly the outcomes that occurred, each with its number of occurrences |
| BackendFacts.TallyConstant | src/main/java/io/quantum4j/core/backend/StateVectorBackend.java:96 | k equal outcomes tally to a single entry with count k |
| BackendFacts.OutcomeLength | src/main/java/io/quantum4j/core/backend/StateVectorBackend.java:89-94 | every shot's bit string has one character per qubit |
| BackendFacts.OutcomesAreShots | src/main/java/io/quantum4j/core/backend/StateVectorBackend.java:44-98 | outcome i is the result of shot i |
| BackendFacts.RunCounts | src/main/java/io/quantum4j/core/backend/StateVectorBackend.java:36-101 | a successful run's counts are the tally of its shots' strings |
| BackendFacts.OutcomesConstant | src/main/java/io/quantum4j/core/backend/StateVectorBackend.java:44-98 | if every shot succeeds with the same string, every key is that string |
| BackendFacts.ZeroOffCollapse | src/main/java/io/quantum4j/core/math/StateVector.java:192-202 | collapsing a state that is already certain for a qubit changes nothing |
| BackendFacts.BasisCertain | src/main/java/io/quantum4j/core/math/StateVector.java:150-205 | a basis state is certain for each qubit, at its own bit |
| BackendFacts.MeasureCertain | src/main/java/io/quantum4j/core/backend/StateVectorBackend.java:73-80 | measuring a qubit that is certain to read b writes b to the classical bit and leaves the amplitudes unchanged |
| BackendFacts.FlippedCertain | src/main/java/io/quantum4j/core/math/StateVector.java:150-205 | the state X(a)\|0…0⟩ is certain: qubit a reads 1 and every other qubit reads 0 |
| BackendFacts.ExecuteSnoc | src/main/java/io/quantum4j/core/backend/StateVectorBackend.java:50-80 | executing one more instruction is one more Step, and an earlier failure persists |
| BackendFacts.ExecuteX | src/main/java/io/quantum4j/core/backend/StateVectorBackend.java:53-71 | executing X(a) from \|0…0⟩ gives the basis state with bit a set and an all-zero register |
| BackendFacts.XMeasureExecute | src/test/java/com/quantum4j/tests/TestMeasurement.java:10-17 | x(a).measure(a, cb) writes 1 to classical bit cb and keeps the flipped basis state |
| BackendFacts.XMeasureShot | src/test/java/com/quantum4j/tests/TestMeasurement.java:10-17 | each shot of x(a).measure(a, cb) reads '1' at position cb and '0' elsewhere |
| BackendFacts.XMeasureRun | src/test/java/com/quantum4j/tests/TestMeasurement.java:10-17 | for any draws, the counts of x(a).measure(a, cb) are {OneAt(n, cb): shots} |
| BackendFacts.CertainMeasures | src/main/java/io/quantum4j/core/backend/StateVectorBackend.java:73-80 | a qubit that is certain to read b measures to b |
| BackendFacts.AllMeasureFrom | src/main/java/com/quantum4j/core/circuit/QuantumCircuit.java:136-141 | if each of the first m qubits measures to its bit, all of them do |
| BackendFacts.MeasureAllOpsExecute | src/main/java/com/quantum4j/core/circuit/QuantumCircuit.java:136-141 | on a state certain for every qubit, the first m measureAll instructions copy those qubits' bits into the register and leave the amplitudes alone |
| BackendFacts.MeasureAllStep | src/main/java/com/quantum4j/core/circuit/QuantumCircuit.java:136-141 | one more measureAll instruction writes one more certain bit |
| BackendFacts.MeasureNext | src/main/java/io/quantum4j/core/backend/StateVectorBackend.java:73-80 | appending a measurement of a certain qubit writes its bit to the register |
| BackendFacts.XMeasureAllShot | src/test/java/com/quantum4j/tests/TestXGate.java:10-16 | each shot of x(a).measureAll() reads '1' exactly at position a |
| BackendFacts.XMeasureAllRun | src/test/java/com/quantum4j/tests/TestMeasurement.java:19-26 | for any draws, the counts of x(a).measureAll() are {OneAt(n, a): shots} (for x(1) on 2 qubits, {"01": shots}) |
| Options.RunOptions.Init | src/main/java/com/quantum4j/core/backend/RunOptions.java:14-20 | a new options object holds the given positive shot count and backend type |
| Options.RunOptions.SetShots | src/main/java/com/quantum4j/core/backend/RunOptions.java:81-86 | a count ≤ 0 is IllegalArgument and keeps the old count; otherwise the count is set; the backend type never changes |
| Options.RunOptions.WithShots | src/main/java/com/quantum4j/core/backend/RunOptions.java:67-70 | a count ≤ 0 is IllegalArgument and keeps the old count; otherwise the count is set and the same object is returned |
| Options.Shots | src/main/java/com/quantum4j/core/backend/RunOptions.java:33-35 | fails with IllegalArgument exactly when n ≤ 0; otherwise a fresh object with n shots on the state-vector backend |
| Options.WithBackend | src/main/java/com/quantum4j/core/backend/RunOptions.java:45-49 | a fresh object with one shot on the given backend |
| Circuits.GateInstruction | src/main/java/com/quantum4j/core/circuit/Instruction.java:45-47 | a gate instruction reports type GATE, its gate and its qubits, and no classical bits |
| Circuits.MeasureInstruction | src/main/java/com/quantum4j/core/circuit/Instruction.java:59-61 | a measurement reports type MEASURE, no gate, the one qubit and the one classical bit |
| Circuits.Copy | src/main/java/com/quantum4j/core/circuit/Instruction.java:105-109 | the copy reports the same type, gate, qubits and classical bits as the original |
| Circuits.ViewDetermines | src/main/java/com/quantum4j/core/circuit/Instruction.java:68-98 | two instructions whose getters all agree are the same instruction |
| Circuits.MeasureAllOps | src/main/java/com/quantum4j/core/circuit/QuantumCircuit.java:136-141 | measureAll appends max(n, 0) measurements, the q-th measuring qubit q into bit q |
| Circuits.CountWhereAppend | src/main/java/com/quantum4j/core/circuit/QuantumCircuit.java:35-42 | counting over a concatenation adds the counts |
| Circuits.FilterAppend | src/main/java/com/quantum4j/core/circuit/QuantumCircuit.java:35-42 | filtering a concatenation concatenates the filtered parts |
| Circuits.WellFormedAppend | src/main/java/com/quantum4j/core/circuit/QuantumCircuit.java:35-42 | joining two instruction lists whose gates have enough qubits gives such a list |
| ComCircuit.QuantumCircuit.Create | src/main/java/com/quantum4j/core/circuit/QuantumCircuit.java:23-25 | a new circuit on the given number of qubits with no instructions |
| ComCircuit.QuantumCircuit.Apply | src/main/java/com/quantum4j/core/circuit/QuantumCircuit.java:35-42 | appends the gate on the given qubits and returns the same builder |
| ComCircuit.QuantumCircuit.H | src/main/java/com/quantum4j/core/circuit/QuantumCircuit.java:44-47 | appends the H gate on the given qubits (with its angles) and returns the same builder |
| ComCircuit.QuantumCircuit.X | src/main/java/com/quantum4j/core/circuit/QuantumCircuit.java:49-52 | appends the X gate on the given qubits (with its angles) and returns the same builder |
| ComCircuit.QuantumCircuit.Y | src/main/java/com/quantum4j/core/circuit/QuantumCircuit.java:54-57 | appends the Y gate on the given qubits (with its angles) and returns the same builder |
| ComCircuit.QuantumCircuit.Z | src/main/java/com/quantum4j/core/circuit/QuantumCircuit.java:59-62 | appends the Z gate on the given qubits (with its angles) and returns the same builder |
| ComCircuit.QuantumCircuit.S | src/main/java/com/quantum4j/core/circuit/QuantumCircuit.java:64-67 | appends the S gate on the given qubits (with its angles) and returns the same builder |
| ComCircuit.QuantumCircuit.T | src/main/java/com/quantum4j/core/circuit/QuantumCircuit.java:69-72 | appends the T gate on the given qubits (with its angles) and returns the same builder |
| ComCircuit.QuantumCircuit.RX | src/main/java/com/quantum4j/core/circuit/QuantumCircuit.java:74-77 | appends the RX gate on the given qubits (with its angles) and returns the same builder |
| ComCircuit.QuantumCircuit.RY | src/main/java/com/quantum4j/core/circuit/QuantumCircuit.java:79-82 | appends the RY gate on the given qubits (with its angles) and returns the same builder |
| ComCircuit.QuantumCircuit.RZ | src/main/java/com/quantum4j/core/circuit/QuantumCircuit.java:84-87 | appends the RZ gate on the given qubits (with its angles) and returns the same builder |
| ComCircuit.QuantumCircuit.CX | src/main/java/com/quantum4j/core/circuit/QuantumCircuit.java:93-96 | appends the CX gate on the given qubits (with its angles) and returns the same builder |
| ComCircuit.QuantumCircuit.CZ | src/main/java/com/quantum4j/core/circuit/QuantumCircuit.java:98-101 | appends the CZ gate on the given qubits (with its angles) and returns the same builder |
| ComCircuit.QuantumCircuit.Swap | src/main/java/com/quantum4j/core/circuit/QuantumCircuit.java:103-106 | appends the SWAP gate on the given qubits (with its angles) and returns the same builder |
| ComCircuit.QuantumCircuit.Iswap | src/main/java/com/quantum4j/core/circuit/QuantumCircuit.java:108-111 | appends the ISWAP gate on the given qubits (with its angles) and returns the same builder |
| ComCircuit.QuantumCircuit.CH | src/main/java/com/quantum4j/core/circuit/QuantumCircuit.java:113-116 | appends the CH gate on the given qubits (with its angles) and returns the same builder |
| ComCircuit.QuantumCircuit.CCX | src/main/java/com/quantum4j/core/circuit/QuantumCircuit.java:122-125 | appends the CCX gate on the given qubits (with its angles) and returns the same builder |
| ComCircuit.QuantumCircuit.Measure | src/main/java/com/quantum4j/core/circuit/QuantumCircuit.java:131-134 | appends measure(qubit, bit) and returns the same builder |
| ComCircuit.QuantumCircuit.MeasureAll | src/main/java/com/quantum4j/core/circuit/QuantumCircuit.java:136-141 | appends measure(q, q) for every qubit q, in order, and returns the same builder |
| ComCircuit.QuantumCircuit.AddInstruction | src/main/java/com/quantum4j/core/circuit/QuantumCircuit.java:143-146 | appends the given instruction unchanged and returns the same builder |
| ComCircuit.QuantumCircuit.U3 | src/main/java/com/quantum4j/core/circuit/QuantumCircuit.java:148-151 | appends the U3 gate on the given qubits (with its angles) and returns the same builder |
| ComCircuit.QuantumCircuit.U2 | src/main/java/com/quantum4j/core/circuit/QuantumCircuit.java:153-156 | appends the U2 gate on the given qubits (with its angles) and returns the same builder |
| ComCircuit.QuantumCircuit.U1 | src/main/java/com/quantum4j/core/circuit/QuantumCircuit.java:158-161 | appends the U1 gate on the given qubits (with its angles) and returns the same builder |
| IoCircuit.QuantumCircuit.Create | src/main/java/io/quantum4j/core/circuit/QuantumCircuit.java:31-38 | a new circuit on the given number of qubits with no instructions |
| IoCircuit.QuantumCircuit.Apply | src/main/java/io/quantum4j/core/circuit/QuantumCircuit.java:63-66 | appends the gate on the given qubits and returns the same builder |
| IoCircuit.QuantumCircuit.H | src/main/java/io/quantum4j/core/circuit/QuantumCircuit.java:72-75 | appends the H gate on the given qubits (with its angles) and returns the same builder |
| IoCircuit.QuantumCircuit.X | src/main/java/io/quantum4j/core/circuit/QuantumCircuit.java:77-80 | appends the X gate on the given qubits (with its angles) and returns the same builder |
| IoCircuit.QuantumCircuit.Y | src/main/java/io/quantum4j/core/circuit/QuantumCircuit.java:82-85 | appends the Y gate on the given qubits (with its angles) and returns the same builder |
| IoCircuit.QuantumCircuit.Z | src/main/java/io/quantum4j/core/circuit/QuantumCircuit.java:87-90 | appends the Z gate on the given qubits (with its angles) and returns the same builder |
| IoCircuit.QuantumCircuit.S | src/main/java/io/quantum4j/core/circuit/QuantumCircuit.java:92-95 | appends the S gate on the given qubits (with its angles) and returns the same builder |
| IoCircuit.QuantumCircuit.T | src/main/java/io/quantum4j/core/circuit/QuantumCircuit.java:97-100 | appends the T gate on the given qubits (with its angles) and returns the same builder |
| IoCircuit.QuantumCircuit.RX | src/main/java/io/quantum4j/core/circuit/QuantumCircuit.java:102-105 | appends the RX gate on the given qubits (with its angles) and returns the same builder |
| IoCircuit.QuantumCircuit.RY | src/main/java/io/quantum4j/core/circuit/QuantumCircuit.java:107-110 | appends the RY gate on the given qubits (with its angles) and returns the same builder |
| IoCircuit.QuantumCircuit.RZ | src/main/java/io/quantum4j/core/circuit/QuantumCircuit.java:112-115 | appends the RZ gate on the given qubits (with its angles) and returns the same builder |
| IoCircuit.QuantumCircuit.CX | src/main/java/io/quantum4j/core/circuit/QuantumCircuit.java:121-124 | appends the io CNOTGate (not the standard CNOT) on (control, target) and returns the same builder |
| IoCircuit.QuantumCircuit.CZ | src/main/java/io/quantum4j/core/circuit/QuantumCircuit.java:126-129 | appends the CZ gate on the given qubits (with its angles) and returns the same builder |
| IoCircuit.QuantumCircuit.Swap | src/main/java/io/quantum4j/core/circuit/QuantumCircuit.java:131-134 | appends the SWAP gate on the given qubits (with its angles) and returns the same builder |
| IoCircuit.QuantumCircuit.Iswap | src/main/java/io/quantum4j/core/circuit/QuantumCircuit.java:136-139 | appends the ISWAP gate on the given qubits (with its angles) and returns the same builder |
| IoCircuit.QuantumCircuit.CH | src/main/java/io/quantum4j/core/circuit/QuantumCircuit.java:141-144 | appends the CH gate on the given qubits (with its angles) and returns the same builder |
| IoCircuit.QuantumCircuit.Measure | src/main/java/io/quantum4j/core/circuit/QuantumCircuit.java:150-153 | appends measure(qubit, bit) and returns the same builder |
| IoCircuit.QuantumCircuit.MeasureAll | src/main/java/io/quantum4j/core/circuit/QuantumCircuit.java:155-160 | appends measure(q, q) for every qubit q, in order, and returns the same builder |
| IoCircuit.QuantumCircuit.CCX | src/main/java/io/quantum4j/core/circuit/QuantumCircuit.java:162-165 | appends the io CCXGate on (c1, c2, target) and returns the same builder |
| Transpiler.ApplyPass | src/main/java/io/quantum4j/transpile/TranspilerPass.java:1-30 | applying a pass object gives exactly the pass's transformation of the circuit |
| Transpiler.PassManager.constructor | src/main/java/io/quantum4j/transpile/PassManager.java:12-14 | a new pass manager has no passes |
| Transpiler.PassManager.AddPass | src/main/java/io/quantum4j/transpile/PassManager.java:22-25 | the pass is appended to the list and the same manager is returned |
| Transpiler.PassManager.Run | src/main/java/io/quantum4j/transpile/PassManager.java:42-48 | the loop feeds each pass's output to the next, in registration order, as RunPasses does, and stops with None where a pass throws |
| Transpiler.ShortCXRun | src/main/java/io/quantum4j/transpile/passes/CXCancellationPass.java:46-59 | CX cancellation returns a lone one-qubit CX and fails on two equal one-qubit CX |
| Transpiler.ShortCommuteRun | src/main/java/com/quantum4j/transpile/passes/GateCommutationPass.java:55-99 | gate commutation returns a lone gate without qubits and moves an RZ in front of a CX holding only its control |
| Transpiler.RunAppend | src/main/java/io/quantum4j/transpile/PassManager.java:42-48 | running ps then qs is running ps and feeding its result to qs |
| Transpiler.RunOne | src/main/java/io/quantum4j/transpile/PassManager.java:42-48 | a one-pass manager gives that pass's transformation |
| Transpiler.RunKeepsQubits | src/main/java/io/quantum4j/transpile/PassManager.java:42-48 | no pass changes the circuit's qubit count |
| Transpiler.CleanupKeepsRange | src/main/java/io/quantum4j/transpile/PassManager.java:42-48 | each X/H/Z-cancel and measurement-dedup pass accepts an in-range circuit and keeps it in range |
| Transpiler.CleanupPipelineRuns | src/main/java/io/quantum4j/transpile/PassManager.java:42-48 | any sequence of those cleanup passes runs to completion on an in-range circuit and keeps it in range |
| Transpiler.PeelStep | src/main/java/io/quantum4j/transpile/PassManager.java:42-48 | a cancel pass for g removes a leading g,g pair when no g follows, and the rest of the pipeline continues from there |
| Transpiler.CleanupPipelineExample | src/test/java/com/quantum4j/tests/TestTranspilerPipeline.java:19-47 | x,x,h,h,z,z,measure,measure through the four cleanup passes leaves a single measurement |
| DefaultTranspiler.StagesReady | src/main/java/io/quantum4j/transpile/DefaultTranspiler.java:34-41 | on a circuit whose gates have enough qubits every stage's precondition holds, and the result is again such a circuit |
| DefaultTranspiler.Stages | src/main/java/io/quantum4j/transpile/DefaultTranspiler.java:34-41 | transpile is SWAP decomposition, then CX cancellation, then U3 decomposition, then rotation fusion, and keeps the qubit count |
| DefaultTranspiler.StagesRun | src/main/java/io/quantum4j/transpile/DefaultTranspiler.java:34-41 | whenever each stage's input is acceptable, transpile is the composition of the four stages |
| DefaultTranspiler.Untouched | src/main/java/io/quantum4j/transpile/DefaultTranspiler.java:34-41 | with no SWAP or U gate and no adjacent CX pair, transpile only fuses rotations |
| DefaultTranspiler.TwoSwapsCancel | src/test/java/io/quantum4j/tests/DefaultTranspilerTest.java:16-23 | two SWAPs on the same pair transpile to the empty circuit |
| DefaultTranspiler.RotationsCancel | src/test/java/io/quantum4j/tests/DefaultTranspilerTest.java:26-34 | rz(t1), rz(t2), rz(-(t1+t2)) transpile to the empty circuit (when t1+t2 is not itself below the tolerance) |
| DefaultTranspiler.ThreeRotationsFuse | src/main/java/io/quantum4j/transpile/passes/RotationFusionPass.java:38-56 | fusion turns rz(t1), rz(t2), rz(-(t1+t2)) into nothing |
| DefaultTranspiler.PassOrderingRespected | src/test/java/io/quantum4j/tests/DefaultTranspilerTest.java:37-58 | swap, cx, cx, rz(t1), rz(t2) transpile to the three CX of the SWAP followed by one rz(t1+t2) |
| DefaultTranspiler.PipelineStable | src/test/java/io/quantum4j/tests/DefaultTranspilerTest.java:61-82 | the transpiled form of that test circuit (three CX and an RZ) transpiles to itself |
| DefaultTranspiler.SecondRunCanChange | src/main/java/io/quantum4j/transpile/DefaultTranspiler.java:34-41 | transpile is not idempotent in general: cx, rz(t), rz(-t), cx first becomes cx, cx, which a second run removes |
| DefaultTranspiler.AdjacentCXCancel | src/main/java/io/quantum4j/transpile/DefaultTranspiler.java:34-41 | two identical adjacent CX transpile to nothing |
| DefaultTranspiler.CXPairCancels | src/main/java/io/quantum4j/transpile/passes/CXCancellationPass.java:45-63 | CX cancellation removes two identical adjacent CX |
| DefaultTranspiler.CancelThree | src/main/java/io/quantum4j/transpile/passes/CXCancellationPass.java:45-63 | the three CX of a decomposed SWAP are left alone by CX cancellation |
| DefaultTranspiler.DecompositionBeforeFusion | src/test/java/com/quantum4j/tests/U3DecompositionPassTest.java:81-94 | u3 followed by u1(-λ), decomposed then fused, leaves the first four rotations of the U3 expansion |
| DefaultTranspiler.FuseUndoesLast | src/main/java/com/quantum4j/transpile/passes/U3DecompositionPass.java:50-54 | appending rz(-λ) to the U3 expansion lets fusion cancel its final rz(λ) |
| DefaultTranspiler.RotationsReduced | src/main/java/com/quantum4j/transpile/passes/U3DecompositionPass.java:50-54 | the five-rotation U3 expansion has no fusable neighbours |
| CXCancellation.Cancel | src/main/java/io/quantum4j/transpile/passes/CXCancellationPass.java:45-63 | on an input whose CX all have two qubits, so does the output |
| CXCancellation.Apply | src/main/java/io/quantum4j/transpile/passes/CXCancellationPass.java:38-70 | on every input where Java's comparison reads no index past an array (not Fails), the pass returns a circuit on the same qubits whose instructions are Cancel of the input |
| CXCancellation.FailsPrefix | src/main/java/io/quantum4j/transpile/passes/CXCancellationPass.java:45-63 | a run that does not throw does not throw on any prefix |
| CXCancellation.ReadyCompletes | src/main/java/io/quantum4j/transpile/passes/CXCancellationPass.java:46-59 | an input whose CX all have two qubits never makes the pass throw |
| CXCancellation.LoneShortCX | src/main/java/io/quantum4j/transpile/passes/CXCancellationPass.java:46-59 | a lone CX with one qubit is never compared, so the pass returns it without throwing |
| CXCancellation.ShortCXAfterOther | src/main/java/io/quantum4j/transpile/passes/CXCancellationPass.java:52 | a one-qubit CX(a) on top of CX(b, c) with b != a does not throw, because the && stops before q[1], and it is pushed |
| CXCancellation.EqualShortCXFail | src/main/java/io/quantum4j/transpile/passes/CXCancellationPass.java:52 | two equal one-qubit CX make the pass throw: the first indices agree, so q[1] is read |
| CXCancellation.StepReady | src/main/java/io/quantum4j/transpile/passes/CXCancellationPass.java:46-59 | one step keeps every CX in the output with two qubits |
| CXCancellation.CancelReduced | src/main/java/io/quantum4j/transpile/passes/CXCancellationPass.java:45-63 | the output has no two adjacent identical CX |
| CXCancellation.CancelReducedIdentity | src/main/java/io/quantum4j/transpile/passes/CXCancellationPass.java:45-63 | an input with no adjacent identical CX is returned unchanged |
| CXCancellation.Idempotent | src/main/java/io/quantum4j/transpile/passes/CXCancellationPass.java:45-63 | running the pass twice is the same as running it once |
| CXCancellation.CancelSnoc | src/main/java/io/quantum4j/transpile/passes/CXCancellationPass.java:45-63 | processing one more instruction is one more step on the output stack |
| CXCancellation.StepPair | src/main/java/io/quantum4j/transpile/passes/CXCancellationPass.java:46-59 | pushing the same CX twice onto a reduced stack restores it |
| CXCancellation.PairVanishes | src/main/java/io/quantum4j/transpile/passes/CXCancellationPass.java:45-63 | an identical CX pair appended at the end makes no difference |
| CXCancellation.PairRemovable | src/main/java/io/quantum4j/transpile/passes/CXCancellationPass.java:45-63 | an identical CX pair anywhere in the input makes no difference to the output |
| CXCancellation.StepPush | src/main/java/io/quantum4j/transpile/passes/CXCancellationPass.java:60-62 | a non-CX instruction is pushed unchanged |
| CXCancellation.NoCXAppend | src/main/java/io/quantum4j/transpile/passes/CXCancellationPass.java:45-63 | a tail without CX passes through unchanged |
| CXCancellation.CancelSubset | src/main/java/io/quantum4j/transpile/passes/CXCancellationPass.java:45-63 | every output instruction occurs in the input |
| CXCancellation.CancelWellFormed | src/main/java/io/quantum4j/transpile/passes/CXCancellationPass.java:45-63 | a well-formed input gives a well-formed output |
| CXCancellation.CancelKeepsOthers | src/test/java/io/quantum4j/tests/CXCancellationPassTest.java:47-59 | the non-CX instructions of the output are exactly those of the input, in order |
| CXCancellation.StepKeepsOthers | src/main/java/io/quantum4j/transpile/passes/CXCancellationPass.java:46-62 | one step adds the instruction to the non-CX part exactly when it is not a CX |
| CXCancellation.CancelLength | src/main/java/io/quantum4j/transpile/passes/CXCancellationPass.java:45-63 | the output is no longer than the input and has the same length parity |
| CXCancellation.RunOfCX | src/test/java/io/quantum4j/tests/CXCancellationPassTest.java:33-44 | k identical CX leave k mod 2 of them (two cancel, three leave one) |
| CXCancellation.ReversedCXStays | src/test/java/io/quantum4j/tests/CXCancellationPassTest.java:77-87 | cx(0,1), cx(1,0) are not cancelled |
| RotationFusion.MakeRotation | src/main/java/io/quantum4j/transpile/passes/RotationFusionPass.java:98-110 | the new rotation has the same axis as the model instruction, the given angle and its first qubit |
| RotationFusion.Apply | src/main/java/io/quantum4j/transpile/passes/RotationFusionPass.java:31-63 | the pass returns a circuit on the same qubits whose instructions are Fuse of the input |
| RotationFusion.StepReduced | src/main/java/io/quantum4j/transpile/passes/RotationFusionPass.java:38-56 | one step keeps the output free of fusable neighbours |
| RotationFusion.FuseReduced | src/main/java/io/quantum4j/transpile/passes/RotationFusionPass.java:38-56 | the output has no adjacent same-axis, same-qubit rotations |
| RotationFusion.FuseReducedIdentity | src/main/java/io/quantum4j/transpile/passes/RotationFusionPass.java:38-56 | an input with no fusable neighbours is returned unchanged |
| RotationFusion.Idempotent | src/main/java/io/quantum4j/transpile/passes/RotationFusionPass.java:38-56 | fusing twice is the same as fusing once |
| RotationFusion.FuseWellFormed | src/main/java/io/quantum4j/transpile/passes/RotationFusionPass.java:38-56 | a well-formed input gives a well-formed output |
| RotationFusion.FuseLength | src/main/java/io/quantum4j/transpile/passes/RotationFusionPass.java:38-56 | the output is never longer than the input |
| RotationFusion.StepKeepsOthers | src/main/java/io/quantum4j/transpile/passes/RotationFusionPass.java:38-56 | one step adds the instruction to the non-rotation part exactly when it is not a rotation |
| RotationFusion.FuseKeepsOthers | src/test/java/io/quantum4j/tests/RotationFusionPassTest.java:77-95 | the non-rotation instructions of the output are exactly those of the input, in order |
| RotationFusion.NoFusionAcross | src/main/java/io/quantum4j/transpile/passes/RotationFusionPass.java:41-52 | a rotation on another axis or qubit than the last output is pushed unchanged |
| RotationFusion.FusePushes | src/main/java/io/quantum4j/transpile/passes/RotationFusionPass.java:39-55 | an instruction that cannot fuse with the last output is appended |
| RotationFusion.FuseMerges | src/test/java/io/quantum4j/tests/RotationFusionPassTest.java:23-34 | a fusable rotation whose summed angle is at least 1e-12 in size replaces the last output by one rotation of the summed angle |
| RotationFusion.FuseCancels | src/test/java/io/quantum4j/tests/RotationFusionPassTest.java:37-44 | a fusable rotation whose summed angle is below 1e-12 in size removes the last output |
| RotationFusion.FuseSnoc | src/main/java/io/quantum4j/transpile/passes/RotationFusionPass.java:38-56 | processing one more instruction is one more step on the output stack |
| RotationFusion.DifferentAxesStay | src/test/java/io/quantum4j/tests/RotationFusionPassTest.java:47-59 | rx then rz on the same qubit are left alone |
| RotationFusion.ChainFuses | src/test/java/io/quantum4j/tests/RotationFusionPassTest.java:62-74 | ry(0.1), ry(0.2), ry(0.3), ry(-0.1) fuse to the single rotation ry(0.5) |
| RotationFusion.CancellationExposes | src/main/java/io/quantum4j/transpile/passes/RotationFusionPass.java:38-56 | after rz(b), rz(-b) cancel, the rotations on either side fuse, because fusion looks at the output stack |
| GateInversion.InverseOf | src/main/java/io/quantum4j/transpile/passes/GateInversionPass.java:69-132 | a measurement has no inverse; a gate's inverse is a gate on the same qubits (self-inverse gates kept, rotations negated, U1 to RZ(-λ), U3/U2 with swapped negated angles, others copied) |
| GateInversion.FirstMeasure | src/main/java/io/quantum4j/transpile/passes/GateInversionPass.java:42-51 | the index of the first measurement, or the length when there is none |
| GateInversion.Partition | src/main/java/io/quantum4j/transpile/passes/GateInversionPass.java:38-51 | the loop splits the instructions at the first measurement |
| GateInversion.InvertReversed | src/main/java/io/quantum4j/transpile/passes/GateInversionPass.java:54-59 | the backward loop produces the inverses of the unitary prefix in reverse order |
| GateInversion.Apply | src/main/java/io/quantum4j/transpile/passes/GateInversionPass.java:30-67 | the pass returns a circuit on the same qubits whose instructions are Invert of the input |
| GateInversion.U2InvertsAsU3 | src/main/java/io/quantum4j/transpile/passes/GateInversionPass.java:116-129 | U2(φ, λ) is inverted as U3(π/2, φ, λ) is |
| GateInversion.SelfInverseClassesUndo | src/main/java/io/quantum4j/transpile/passes/GateInversionPass.java:73-99 | H, X, Y, Z, CNOT, CZ, SWAP, CH and CCX are their own inverse, and each matrix squared is the identity |
| GateInversion.InverseOfInverse | src/test/java/io/quantum4j/tests/GateInversionPassTest.java:89-116 | for self-inverse gates and rotations, inverting twice gives back the instruction |
| GateInversion.AdjointReverses | src/main/java/io/quantum4j/transpile/passes/GateInversionPass.java:54-59 | on measurement-free input, position k of the adjoint is the inverse of position \|v\|-1-k |
| GateInversion.InvertShape | src/main/java/io/quantum4j/transpile/passes/GateInversionPass.java:42-64 | the length is kept; the prefix before the first measurement is inverted in reverse and everything from it on is unchanged |
| GateInversion.InvertKeepsFirstMeasure | src/main/java/io/quantum4j/transpile/passes/GateInversionPass.java:42-64 | the first measurement stays at the same index |
| GateInversion.FirstMeasureAt | src/main/java/io/quantum4j/transpile/passes/GateInversionPass.java:42-51 | FirstMeasure is the unique index with no measurement before it and a measurement at it (or the end) |
| GateInversion.InvertTwice | src/test/java/io/quantum4j/tests/GateInversionPassTest.java:89-116 | if every gate before the first measurement inverts back to itself, running the pass twice restores the input |
| GateInversion.SelfInverseGatesReverseOrder | src/test/java/io/quantum4j/tests/GateInversionPassTest.java:23-36 | h, x, z invert to z, x, h |
| GateInversion.RotationAnglesNegatedAndOrderReversed | src/test/java/io/quantum4j/tests/GateInversionPassTest.java:39-55 | rz(0.3), ry(-0.7), rx(1.2) invert to rx(-1.2), ry(0.7), rz(-0.3) |
| GateInversion.MeasurementStopsInversion | src/test/java/io/quantum4j/tests/GateInversionPassTest.java:72-86 | h, rz(0.1), measure inverts to rz(-0.1), h, measure |
| CancelPairs.Apply | src/main/java/io/quantum4j/transpile/passes/CancelDoubleXPass.java:26-49 | the pass returns a circuit on the same qubits whose instructions are Cancel of the input |
| CancelPairs.CancelDoubleX | src/main/java/io/quantum4j/transpile/passes/CancelDoubleXPass.java:26-49 | the X pass is Cancel with g = X |
| CancelPairs.CancelDoubleH | src/main/java/io/quantum4j/transpile/passes/CancelDoubleHPass.java:28-47 | the H pass is Cancel with g = H |
| CancelPairs.CancelDoubleZ | src/main/java/io/quantum4j/transpile/passes/CancelDoubleZPass.java:28-47 | the Z pass is Cancel with g = Z |
| CancelPairs.DropAt | src/main/java/io/quantum4j/transpile/passes/CancelDoubleXPass.java:34-41 | a cancelling pair at i is skipped and scanning resumes at i + 2 |
| CancelPairs.KeepAt | src/main/java/io/quantum4j/transpile/passes/CancelDoubleXPass.java:44-45 | any other instruction is kept and scanning resumes at i + 1 |
| CancelPairs.CancelLength | src/main/java/io/quantum4j/transpile/passes/CancelDoubleXPass.java:31-46 | the output is no longer than the input and shorter by an even number |
| CancelPairs.CancelKeepsOthers | src/main/java/io/quantum4j/transpile/passes/CancelDoubleXPass.java:31-46 | instructions other than single-qubit g are kept, in order |
| CancelPairs.DropPairFilter | src/main/java/io/quantum4j/transpile/passes/CancelDoubleXPass.java:34-41 | a dropped pair contributes nothing to the non-g part |
| CancelPairs.UnchangedIffNoPair | src/main/java/io/quantum4j/transpile/passes/CancelDoubleXPass.java:31-46 | the pass leaves the input unchanged exactly when no two adjacent g act on the same single qubit |
| CancelPairs.NoPairUnchanged | src/main/java/io/quantum4j/transpile/passes/CancelDoubleXPass.java:31-46 | with no adjacent pair, the input is returned unchanged |
| CancelPairs.PairShortens | src/main/java/io/quantum4j/transpile/passes/CancelDoubleXPass.java:31-46 | with an adjacent pair somewhere, the output is strictly shorter |
| CancelPairs.CancelSubset | src/main/java/io/quantum4j/transpile/passes/CancelDoubleXPass.java:31-46 | every output instruction occurs in the input |
| CancelPairs.NoneOf | src/main/java/io/quantum4j/transpile/passes/CancelDoubleXPass.java:51-57 | an input without g is unchanged |
| CancelPairs.PairDropped | src/test/java/io/quantum4j/tests/TestCancelDoubleXPass.java:13-24 | g(q), g(q) cancel to nothing |
| CancelPairs.RunLeavesParity | src/main/java/io/quantum4j/transpile/passes/CancelDoubleXPass.java:31-46 | k copies of g(q) leave k mod 2 copies |
| CancelPairs.ThreeLeaveOne | src/main/java/io/quantum4j/transpile/passes/CancelDoubleXPass.java:31-46 | three X on one qubit leave one |
| CancelPairs.CancelOne | src/main/java/io/quantum4j/transpile/passes/CancelDoubleXPass.java:31-46 | a single instruction is kept |
| CancelPairs.ExposedPairSurvives | src/main/java/io/quantum4j/transpile/passes/CancelDoubleXPass.java:31-46 | x(a), x(b), x(b), x(a) leaves x(a), x(a): the pass is one scan, so a second run changes the result |
| CancelPairs.DifferentQubitsStay | src/main/java/io/quantum4j/transpile/passes/CancelDoubleXPass.java:59-63 | g on two different qubits do not cancel |
| CancelPairs.SeparatedStay | src/main/java/io/quantum4j/transpile/passes/CancelDoubleXPass.java:34-42 | g(q), o, g(q) with o not a g is left alone: only adjacent pairs cancel |
| CancelPairs.DoubleXThenH | src/test/java/io/quantum4j/tests/TestCancelDoubleXPass.java:13-24 | x, x, h on qubit 0 leaves h |
| CancelPairs.XThenHStays | src/test/java/io/quantum4j/tests/TestCancelDoubleXPass.java:27-37 | x, h on qubit 0 is unchanged |
| GateCommutation.Insert | src/main/java/com/quantum4j/transpile/passes/GateCommutationPass.java:55-69 | bubbling a gate in adds one instruction, which ends up last unless it moved past the old last one |
| GateCommutation.Commute | src/main/java/com/quantum4j/transpile/passes/GateCommutationPass.java:45-70 | the pass keeps the number of instructions; what it does to their order is stated by CommuteOrder, CommutePermutes and CommuteKeepsMeasurements, with the commutes test reading only the indices Java reads |
| GateCommutation.FailsPrefix | src/main/java/com/quantum4j/transpile/passes/GateCommutationPass.java:45-70 | a run that does not throw does not throw on any prefix |
| GateCommutation.ReadyCompletes | src/main/java/com/quantum4j/transpile/passes/GateCommutationPass.java:82-109 | when every single-qubit gate has its qubit and every CX its two, no commutes test throws, so the pass never does |
| GateCommutation.InsertReady | src/main/java/com/quantum4j/transpile/passes/GateCommutationPass.java:56-68 | bubbling a fitting gate through fitting instructions never throws |
| GateCommutation.CommuteReady | src/main/java/com/quantum4j/transpile/passes/GateCommutationPass.java:45-70 | the output of a list whose gates fit again fits |
| GateCommutation.LoneGateWithoutQubits | src/main/java/com/quantum4j/transpile/passes/GateCommutationPass.java:55-56 | a lone gate without qubits is never tested, so the pass returns it without throwing |
| GateCommutation.RzCrossesShortCX | src/main/java/com/quantum4j/transpile/passes/GateCommutationPass.java:97-99 | an RZ behind a CX holding only its control does not throw and moves in front, as commutes reads only q[0] of the CX |
| GateCommutation.RxBehindShortCXFails | src/main/java/com/quantum4j/transpile/passes/GateCommutationPass.java:103-105 | an RX behind a CX holding only its control makes the pass throw: commutes reads q[1] of the CX |
| GateCommutation.EmptyBehindSingleFails | src/main/java/com/quantum4j/transpile/passes/GateCommutationPass.java:90-93 | a single-qubit gate without qubits behind another makes the pass throw: commutes reads its q[0] |
| GateCommutation.BubbleLeft | src/main/java/com/quantum4j/transpile/passes/GateCommutationPass.java:55-69 | when no commutes test on the way throws, the in-place swap loop gives Insert of the gate into the output |
| GateCommutation.BubbleStep | src/main/java/com/quantum4j/transpile/passes/GateCommutationPass.java:62-65 | one swap moves the gate one place left past a commuting gate |
| GateCommutation.InsertMoves | src/main/java/com/quantum4j/transpile/passes/GateCommutationPass.java:62-65 | a gate commuting with the last output moves left past it |
| GateCommutation.InsertStops | src/main/java/com/quantum4j/transpile/passes/GateCommutationPass.java:59-68 | a measurement or a non-commuting gate stops the bubbling |
| GateCommutation.CommuteOrder | src/main/java/com/quantum4j/transpile/passes/GateCommutationPass.java:45-70 | the pass only reorders: each input instruction has its own output position, and an instruction stays in front of every later one that may not cross it (either is a measurement, or commutes(later, earlier) is false) |
| GateCommutation.Apply | src/main/java/com/quantum4j/transpile/passes/GateCommutationPass.java:37-77 | on every input where no commutes test reads past an array (not Fails), the pass returns a circuit on the same qubits whose instructions are Commute of the input |
| GateCommutation.CommutesAsymmetric | src/main/java/com/quantum4j/transpile/passes/GateCommutationPass.java:82-109 | the commutation test is never true in both directions, so swaps cannot loop |
| GateCommutation.InsertPosition | src/main/java/com/quantum4j/transpile/passes/GateCommutationPass.java:55-69 | the place where the gate comes to rest lies within the output |
| GateCommutation.InsertAt | src/main/java/com/quantum4j/transpile/passes/GateCommutationPass.java:55-69 | the gate is placed at its resting position, with everything else in order |
| GateCommutation.InsertCrossed | src/main/java/com/quantum4j/transpile/passes/GateCommutationPass.java:55-69 | every instruction the gate moved past is a gate it commutes with |
| GateCommutation.InsertBlocked | src/main/java/com/quantum4j/transpile/passes/GateCommutationPass.java:55-69 | the gate stops at the front, after a measurement, or after a gate it does not commute with |
| GateCommutation.InsertPermutes | src/main/java/com/quantum4j/transpile/passes/GateCommutationPass.java:55-69 | inserting adds exactly that instruction to the multiset |
| GateCommutation.CommutePermutes | src/main/java/com/quantum4j/transpile/passes/GateCommutationPass.java:45-70 | the pass output is a permutation of its input |
| GateCommutation.InsertSettled | src/main/java/com/quantum4j/transpile/passes/GateCommutationPass.java:55-69 | inserting into a settled list keeps it settled |
| GateCommutation.CommuteSettled | src/main/java/com/quantum4j/transpile/passes/GateCommutationPass.java:45-70 | the output has no instruction that commutes with its predecessor |
| GateCommutation.SettledIdentity | src/main/java/com/quantum4j/transpile/passes/GateCommutationPass.java:45-70 | a settled input is returned unchanged |
| GateCommutation.Idempotent | src/test/java/io/quantum4j/tests/GateCommutationPassTest.java:87-104 | running the pass twice is the same as running it once |
| GateCommutation.CommuteKeepsMeasurements | src/main/java/com/quantum4j/transpile/passes/GateCommutationPass.java:49-60 | measurements stay at the same positions and nothing moves across them |
| GateCommutation.MeasureStep | src/main/java/com/quantum4j/transpile/passes/GateCommutationPass.java:49-52 | appending a measurement keeps the barriers in place |
| GateCommutation.GateStep | src/main/java/com/quantum4j/transpile/passes/GateCommutationPass.java:55-69 | inserting a gate after the last measurement keeps the barriers in place |
| GateCommutation.CommuteSnoc | src/main/java/com/quantum4j/transpile/passes/GateCommutationPass.java:45-70 | one more instruction is appended if a measurement, otherwise bubbled in |
| GateCommutation.SingleQubitGatesReorder | src/test/java/io/quantum4j/tests/GateCommutationPassTest.java:23-32 | rz on a lower qubit followed by rx on a higher one swap |
| GateCommutation.MeasurementIsBarrier | src/test/java/io/quantum4j/tests/GateCommutationPassTest.java:35-47 | h, measure, rz on one qubit stays in order |
| GateCommutation.RzOnControlMovesBeforeCX | src/test/java/io/quantum4j/tests/GateCommutationPassTest.java:50-59 | rz on the control moves before the CX |
| GateCommutation.RxOnTargetMovesBeforeCX | src/test/java/io/quantum4j/tests/GateCommutationPassTest.java:62-71 | rx on the target moves before the CX |
| GateCommutation.NonCommutingGatesStayPut | src/test/java/io/quantum4j/tests/GateCommutationPassTest.java:74-84 | x on the control stays after the CX |
| RemoveRedundantMeasurement.Measured | src/main/java/io/quantum4j/transpile/passes/RemoveRedundantMeasurementPass.java:22-34 | every (qubit, bit) pair measured in the list is in the set |
| RemoveRedundantMeasurement.Apply | src/main/java/io/quantum4j/transpile/passes/RemoveRedundantMeasurementPass.java:17-40 | with qubit and bit indices below numQubits, the pass returns a circuit whose instructions are Dedup of the input |
| RemoveRedundantMeasurement.DedupKeepsGates | src/main/java/io/quantum4j/transpile/passes/RemoveRedundantMeasurementPass.java:24-37 | all gates are kept, in order |
| RemoveRedundantMeasurement.DedupKeepsPairs | src/main/java/io/quantum4j/transpile/passes/RemoveRedundantMeasurementPass.java:24-37 | every measured (qubit, bit) pair is still measured |
| RemoveRedundantMeasurement.MeasuredAppend | src/main/java/io/quantum4j/transpile/passes/RemoveRedundantMeasurementPass.java:24-37 | the measured pairs of a concatenation are the union |
| RemoveRedundantMeasurement.MeasuredWitness | src/main/java/io/quantum4j/transpile/passes/RemoveRedundantMeasurementPass.java:24-37 | a measured pair comes from some measurement in the list |
| RemoveRedundantMeasurement.DedupNoRepeat | src/main/java/io/quantum4j/transpile/passes/RemoveRedundantMeasurementPass.java:24-37 | no (qubit, bit) pair is measured twice in the output |
| RemoveRedundantMeasurement.NoRepeatIdentity | src/main/java/io/quantum4j/transpile/passes/RemoveRedundantMeasurementPass.java:24-37 | an input without repeated pairs is unchanged |
| RemoveRedundantMeasurement.Idempotent | src/main/java/io/quantum4j/transpile/passes/RemoveRedundantMeasurementPass.java:17-40 | running the pass twice is the same as running it once |
| RemoveRedundantMeasurement.DedupSubset | src/main/java/io/quantum4j/transpile/passes/RemoveRedundantMeasurementPass.java:24-37 | every output instruction occurs in the input |
| RemoveRedundantMeasurement.RepeatDropped | src/main/java/io/quantum4j/transpile/passes/RemoveRedundantMeasurementPass.java:29-31 | measure(q, b) twice keeps one |
| RemoveRedundantMeasurement.RepeatAfterGateDropped | src/main/java/io/quantum4j/transpile/passes/RemoveRedundantMeasurementPass.java:29-31 | a repeat is dropped even with a gate in between |
| RemoveRedundantMeasurement.OtherBitKept | src/main/java/io/quantum4j/transpile/passes/RemoveRedundantMeasurementPass.java:29-33 | measuring the same qubit into a different bit is kept |
| SwapDecomposition.Apply | src/main/java/io/quantum4j/transpile/passes/SwapDecompositionPass.java:32-57 | the pass returns a circuit on the same qubits whose instructions are Decompose of the input |
| SwapDecomposition.DecomposeAppend | src/main/java/io/quantum4j/transpile/passes/SwapDecompositionPass.java:40-54 | the pass works instruction by instruction: it distributes over concatenation |
| SwapDecomposition.ReadyAppend | src/main/java/io/quantum4j/transpile/passes/SwapDecompositionPass.java:40-54 | joining two acceptable inputs gives an acceptable input |
| SwapDecomposition.DecomposeOne | src/test/java/io/quantum4j/tests/SwapDecompositionPassTest.java:23-40 | swap(a, b) becomes cx(a,b), cx(b,a), cx(a,b); every other instruction is kept |
| SwapDecomposition.DecomposeLength | src/test/java/io/quantum4j/tests/SwapDecompositionPassTest.java:43-74 | the output has two more instructions per SWAP |
| SwapDecomposition.DecomposeNoSwap | src/main/java/io/quantum4j/transpile/passes/SwapDecompositionPass.java:40-54 | no SWAP is left in the output |
| SwapDecomposition.DecomposeIdentity | src/test/java/io/quantum4j/tests/SwapDecompositionPassTest.java:77-90 | an input without SWAP is unchanged |
| SwapDecomposition.DecomposeWellFormed | src/main/java/io/quantum4j/transpile/passes/SwapDecompositionPass.java:40-54 | a well-formed input gives a well-formed output |
| SwapDecomposition.Idempotent | src/main/java/io/quantum4j/transpile/passes/SwapDecompositionPass.java:32-57 | running the pass twice is the same as running it once |
| U3Decomposition.Apply | src/main/java/com/quantum4j/transpile/passes/U3DecompositionPass.java:34-76 | the pass returns a circuit on the same qubits whose instructions are Decompose of the input |
| U3Decomposition.ReadyAppend | src/main/java/com/quantum4j/transpile/passes/U3DecompositionPass.java:42-73 | joining two acceptable inputs gives an acceptable input |
| U3Decomposition.DecomposeAppend | src/main/java/com/quantum4j/transpile/passes/U3DecompositionPass.java:42-73 | the pass distributes over concatenation |
| U3Decomposition.DecomposeOne | src/test/java/com/quantum4j/tests/U3DecompositionPassTest.java:24-43 | u3 becomes rz(φ), rx(π/2), rz(θ), rx(-π/2), rz(λ); u2 decomposes as u3(π/2, φ, λ); u1 becomes rz(λ) |
| U3Decomposition.DecomposeLength | src/main/java/com/quantum4j/transpile/passes/U3DecompositionPass.java:42-73 | the output has four more instructions per U3 or U2 |
| U3Decomposition.DecomposeNoU | src/main/java/com/quantum4j/transpile/passes/U3DecompositionPass.java:42-73 | no U1, U2 or U3 is left in the output |
| U3Decomposition.DecomposeIdentity | src/main/java/com/quantum4j/transpile/passes/U3DecompositionPass.java:70-72 | an input without U gates is unchanged |
| U3Decomposition.DecomposeWellFormed | src/main/java/com/quantum4j/transpile/passes/U3DecompositionPass.java:42-73 | a well-formed input gives a well-formed output |
| U3Decomposition.Idempotent | src/test/java/com/quantum4j/tests/U3DecompositionPassTest.java:97-115 | running the pass twice is the same as running it once |
| BasisDecomposition.Apply | src/main/java/io/quantum4j/transpile/passes/BasisGateDecompositionPass.java:20-70 | the pass returns a circuit on the same qubits whose instructions are Decompose of the input |
| BasisDecomposition.ReadyAppend | src/main/java/io/quantum4j/transpile/passes/BasisGateDecompositionPass.java:26-67 | joining two acceptable inputs gives an acceptable input |
| BasisDecomposition.DecomposeAppend | src/main/java/io/quantum4j/transpile/passes/BasisGateDecompositionPass.java:26-67 | the pass distributes over concatenation |
| BasisDecomposition.DecomposeOne | src/test/java/io/quantum4j/tests/BasisGateDecompositionPassTest.java:75-99 | u3 becomes rz(φ), ry(θ), rz(λ); u2 decomposes as u3(π/2, φ, λ); u1 becomes rz(λ) |
| BasisDecomposition.DecomposeLength | src/main/java/io/quantum4j/transpile/passes/BasisGateDecompositionPass.java:26-67 | the output has two more instructions per U3 or U2 |
| BasisDecomposition.DecomposeNoU | src/main/java/io/quantum4j/transpile/passes/BasisGateDecompositionPass.java:26-67 | no U1, U2 or U3 is left in the output |
| BasisDecomposition.DecomposeKeepsMeasurements | src/test/java/io/quantum4j/tests/BasisGateDecompositionPassTest.java:105-118 | the measurements are kept, in order |
| BasisDecomposition.ExpandMeasures | src/main/java/io/quantum4j/transpile/passes/BasisGateDecompositionPass.java:29-32 | one instruction's expansion holds a measurement only if the instruction is one |
| BasisDecomposition.DecomposeIdentity | src/test/java/io/quantum4j/tests/BasisGateDecompositionPassTest.java:124-141 | an input without U gates is unchanged |
| BasisDecomposition.Idempotent | src/main/java/io/quantum4j/transpile/passes/BasisGateDecompositionPass.java:20-70 | running the pass twice is the same as running it once |
| CXToCZ.Apply | src/main/java/io/quantum4j/transpile/passes/CXToCZDecompositionPass.java:31-74 | the pass returns a circuit on the same qubits whose instructions are Decompose of the input |
| CXToCZ.DecomposeStep | src/main/java/io/quantum4j/transpile/passes/CXToCZDecompositionPass.java:39-71 | each loop iteration appends one instruction's expansion |
| CXToCZ.ReadyPrefix | src/main/java/io/quantum4j/transpile/passes/CXToCZDecompositionPass.java:39-71 | every prefix of an acceptable input is acceptable |
| CXToCZ.IsCXExactly | src/main/java/io/quantum4j/transpile/passes/CXToCZDecompositionPass.java:50-54 | the lower-cased name test matches exactly the standard and io CNOT gates; the name "cnot" never occurs |
| CXToCZ.NameIsLower | src/main/java/io/quantum4j/transpile/passes/CXToCZDecompositionPass.java:50 | every gate name is already lower case |
| CXToCZ.CXNames | src/main/java/io/quantum4j/transpile/passes/CXToCZDecompositionPass.java:50-54 | only the two CNOT gates are named "cx" |
| CXToCZ.ReadyAppend | src/main/java/io/quantum4j/transpile/passes/CXToCZDecompositionPass.java:39-71 | joining two acceptable inputs gives an acceptable input |
| CXToCZ.DecomposeAppend | src/main/java/io/quantum4j/transpile/passes/CXToCZDecompositionPass.java:39-71 | the pass distributes over concatenation |
| CXToCZ.DecomposeOne | src/test/java/io/quantum4j/tests/CXToCZDecompositionPassTest.java:24-48 | cx(c, t) becomes h(t), cz(c, t), h(t) |
| CXToCZ.DecomposeLength | src/test/java/io/quantum4j/tests/CXToCZDecompositionPassTest.java:51-79 | the output has two more instructions per CX |
| CXToCZ.DecomposeNoCX | src/main/java/io/quantum4j/transpile/passes/CXToCZDecompositionPass.java:39-71 | no CX is left in the output |
| CXToCZ.ExpandNoCX | src/main/java/io/quantum4j/transpile/passes/CXToCZDecompositionPass.java:56-66 | one instruction's expansion holds no CX |
| CXToCZ.DecomposeKeepsMeasurements | src/test/java/io/quantum4j/tests/CXToCZDecompositionPassTest.java:82-95 | the measurements are kept, in order |
| CXToCZ.ExpandMeasures | src/main/java/io/quantum4j/transpile/passes/CXToCZDecompositionPass.java:42-45 | one instruction's expansion holds a measurement only if the instruction is one |
| CXToCZ.DecomposeIdentity | src/test/java/io/quantum4j/tests/CXToCZDecompositionPassTest.java:98-115 | an input without CX is unchanged |
| CXToCZ.ExpandOther | src/main/java/io/quantum4j/transpile/passes/CXToCZDecompositionPass.java:70 | a non-CX instruction is kept as it is |
| CXToCZ.Idempotent | src/main/java/io/quantum4j/transpile/passes/CXToCZDecompositionPass.java:31-74 | running the pass twice is the same as running it once |
| QFT.Shift | src/main/java/io/quantum4j/algorithms/QFT.java:27 | Java's 1 << d, with the shift count taken mod 32, is never zero |
| QFT.AngleIsQuotient | src/main/java/io/quantum4j/algorithms/QFT.java:27 | the angle is π divided by the shifted value |
| QFT.ShiftDoubles | src/main/java/io/quantum4j/algorithms/QFT.java:27 | away from the wrap points, one more distance doubles the shift |
| QFT.NegatedQuotient | src/main/java/io/quantum4j/algorithms/QFT.java:56 | the inverse angle -π/(1 << d) is the negated forward angle |
| QFT.AngleIsPowerOfTwo | src/main/java/io/quantum4j/algorithms/QFT.java:27 | for distances below 31 the angle is π / 2^d, and positive |
| QFT.AnglePositive | src/main/java/io/quantum4j/algorithms/QFT.java:27 | the angle is positive unless d mod 32 is 31 |
| QFT.AngleWraps | src/main/java/io/quantum4j/algorithms/QFT.java:27 | at distance 31 the shift is -2^31 and the angle negative; at 32 it is 1 and the angle π |
| QFT.CrzsSnoc | src/main/java/io/quantum4j/algorithms/QFT.java:26-29 | one more control appends one controlled-RZ block |
| QFT.BlocksSnoc | src/main/java/io/quantum4j/algorithms/QFT.java:24-30 | one more target appends its H and its controlled-RZ blocks |
| QFT.SwapsSnoc | src/main/java/io/quantum4j/algorithms/QFT.java:33-35 | one more swap index appends swap(i, n-1-i) |
| QFT.InverseCrzsSnoc | src/main/java/io/quantum4j/algorithms/QFT.java:55-58 | one more control of the inverse appends its block |
| QFT.InverseBlocksSnoc | src/main/java/io/quantum4j/algorithms/QFT.java:54-60 | one more target of the inverse appends its block |
| QFT.ApplyCRZ | src/main/java/io/quantum4j/algorithms/QFT.java:64-70 | appends u1(control, θ/2), cx(control, target), u1(target, -θ/2), cx(control, target) |
| QFT.AppendBlock | src/main/java/io/quantum4j/algorithms/QFT.java:24-30 | one outer iteration appends h(target) and its controlled rotations |
| QFT.AppendSwaps | src/main/java/io/quantum4j/algorithms/QFT.java:33-35 | the swap loop appends swap(i, n-1-i) for i below n/2 |
| QFT.AppendInverseBlock | src/main/java/io/quantum4j/algorithms/QFT.java:54-60 | one outer iteration of the inverse appends its rotations then h(target) |
| QFT.Qft | src/main/java/io/quantum4j/algorithms/QFT.java:20-37 | n ≤ 0 is IllegalArgument; otherwise a fresh n-qubit circuit holding QftInstructions(n) |
| QFT.InverseQft | src/main/java/io/quantum4j/algorithms/QFT.java:45-62 | n ≤ 0 is IllegalArgument; otherwise a fresh n-qubit circuit holding InverseQftInstructions(n) |
| QFT.OnQubitsAppend | src/main/java/io/quantum4j/algorithms/QFT.java:20-37 | joining instructions on qubits below n gives instructions on qubits below n |
| QFT.CrzOnQubits | src/main/java/io/quantum4j/algorithms/QFT.java:64-70 | a controlled-RZ block on two distinct qubits below n stays below n |
| QFT.CrzsOnQubits | src/main/java/io/quantum4j/algorithms/QFT.java:26-29 | the rotations of one target stay on qubits below n |
| QFT.BlocksOnQubits | src/main/java/io/quantum4j/algorithms/QFT.java:24-30 | the blocks stay on qubits below n |
| QFT.SwapsOnQubits | src/main/java/io/quantum4j/algorithms/QFT.java:33-35 | the swaps stay on distinct qubits below n |
| QFT.InverseCrzsOnQubits | src/main/java/io/quantum4j/algorithms/QFT.java:55-58 | the inverse rotations stay on qubits below n |
| QFT.InverseBlocksOnQubits | src/main/java/io/quantum4j/algorithms/QFT.java:54-60 | the inverse blocks stay on qubits below n |
| QFT.QftOnQubits | src/main/java/io/quantum4j/algorithms/QFT.java:20-37 | every QFT instruction acts on qubits below n, with two-qubit gates on distinct qubits |
| QFT.InverseQftOnQubits | src/main/java/io/quantum4j/algorithms/QFT.java:45-62 | every inverse-QFT instruction acts on qubits below n, with two-qubit gates on distinct qubits |
| QFT.CrzsLength | src/main/java/io/quantum4j/algorithms/QFT.java:26-29 | a target's rotations are four instructions per control |
| QFT.InverseCrzsLength | src/main/java/io/quantum4j/algorithms/QFT.java:55-58 | an inverse target's rotations are four instructions per control |
| QFT.SwapsLength | src/main/java/io/quantum4j/algorithms/QFT.java:33-35 | k swaps are k instructions |
| QFT.BlocksLength | src/main/java/io/quantum4j/algorithms/QFT.java:24-30 | k blocks hold k H gates plus four instructions per (control, target) pair |
| QFT.InverseBlocksLength | src/main/java/io/quantum4j/algorithms/QFT.java:54-60 | the inverse blocks have the same count |
| QFT.QftLength | src/main/java/io/quantum4j/algorithms/QFT.java:20-37 | qft(n) has n + 2n(n-1) + n/2 instructions |
| QFT.InverseQftLength | src/main/java/io/quantum4j/algorithms/QFT.java:45-62 | the inverse has exactly as many instructions as the QFT |
| QFT.QftOneQubit | src/test/java/io/quantum4j/tests/QFTTest.java:19-25 | qft(1) and its inverse are the single h(0) |
| QFT.QftTwoQubits | src/test/java/io/quantum4j/tests/QFTTest.java:28-42 | qft(2) is h(0), u1(1, π/4), cx(1,0), u1(0, -π/4), cx(1,0), h(1), swap(0,1) |
| QFT.InverseQftTwoQubits | src/main/java/io/quantum4j/algorithms/QFT.java:45-62 | inverseQft(2) is swap(0,1), u1(0, -π/4), cx(0,1), u1(1, π/4), cx(0,1), h(1), h(0) |
| QasmExporter.Refs | src/main/java/io/quantum4j/qasm/QasmExporter.java:37-39 | one register reference q[i] per qubit, in order |
| QasmExporter.PlainLine | src/main/java/io/quantum4j/qasm/QasmExporter.java:108-156 | a parameterless gate line needs k qubit indices; fewer is IndexOutOfBounds |
| QasmExporter.ParamLine | src/main/java/io/quantum4j/qasm/QasmExporter.java:63-103 | a parametrised gate line needs one qubit index; none is IndexOutOfBounds |
| QasmExporter.Formatted | src/main/java/io/quantum4j/qasm/QasmExporter.java:63-103 | each parameter is printed by Java's double formatting, in order |
| QasmExporter.GateLine | src/main/java/io/quantum4j/qasm/QasmExporter.java:54-160 | a gate line fails exactly for the io CCXGate (UnsupportedOperation: it is neither a standard CCX nor a one- or two-qubit gate) or for too few qubit indices (IndexOutOfBounds) |
| QasmExporter.ToQasm | src/main/java/io/quantum4j/qasm/QasmExporter.java:17-48 | the StringBuilder loop produces Export of the circuit's value |
| QasmExporter.HeaderText | src/main/java/io/quantum4j/qasm/QasmExporter.java:21-26 | the header is the OPENQASM 2.0 line, the qelib1.inc include, a blank line, qreg q[n], creg c[n] and a blank line |
| QasmExporter.BodyLinesShape | src/main/java/io/quantum4j/qasm/QasmExporter.java:28-45 | a successful body has one line per instruction, each that instruction's line |
| QasmExporter.BodyLinesError | src/main/java/io/quantum4j/qasm/QasmExporter.java:28-45 | a failing body fails with the error of one of its instructions |
| QasmExporter.BodyLinesSnoc | src/main/java/io/quantum4j/qasm/QasmExporter.java:28-45 | one more printable instruction adds its line |
| QasmExporter.BodyLinesFailure | src/main/java/io/quantum4j/qasm/QasmExporter.java:28-45 | when the instructions before k print and instruction k does not, the body fails with instruction k's error |
| QasmExporter.ExportFails | src/main/java/io/quantum4j/qasm/QasmExporter.java:17-160 | export fails exactly when some gate is an io CCXGate or has fewer qubits than its arity |
| QasmExporter.ExportSucceeds | src/main/java/io/quantum4j/qasm/QasmExporter.java:17-160 | a circuit of well-formed gates with no io CCXGate always exports |
| QasmExporter.ExportText | src/main/java/io/quantum4j/qasm/QasmExporter.java:17-48 | the text is the header followed by the instruction lines, each ending in a newline |
| QasmExporter.ExportLines | src/main/java/io/quantum4j/qasm/QasmExporter.java:17-48 | line k of the body is the line of instruction k |
| QasmExporter.CnotOrder | src/test/java/io/quantum4j/tests/QasmComplianceV20Test.java:80-89 | cx prints control then target: cx q[a], q[b]; |
| QasmExporter.CcxOrder | src/main/java/io/quantum4j/qasm/QasmExporter.java:153-157 | ccx prints its three qubits in order |
| QasmExporter.ParameterOrder | src/main/java/io/quantum4j/qasm/QasmExporter.java:63-103 | u3 prints θ, φ, λ; u2 prints φ, λ; rx prints θ, before the qubit |
| QasmExporter.IoCnotPrintsAsCx | src/main/java/io/quantum4j/qasm/QasmExporter.java:144-147 | the io CNOTGate falls through to the two-qubit default and prints exactly as the standard cx |
| QasmExporter.LowerName | src/main/java/io/quantum4j/qasm/QasmExporter.java:58 | gate names are already lower case, so toLowerCase changes nothing |
| QasmImporter.CutComment | src/main/java/io/quantum4j/qasm/QasmImporter.java:340-341 | the text before the first // is kept |
| QasmImporter.CutAll | src/main/java/io/quantum4j/qasm/QasmImporter.java:337-345 | the comment is cut from every line |
| QasmImporter.ParseIndexedRegister | src/main/java/io/quantum4j/qasm/QasmImporter.java:318-335 | every failure is a QasmParse error; an accepted index lies within Java's int range |
| QasmImporter.ExtractRegisterSize | src/main/java/io/quantum4j/qasm/QasmImporter.java:124-136 | every failure (missing or misordered brackets, a size that is not an int) is a QasmParse error |
| QasmImporter.RegisterSize | src/main/java/io/quantum4j/qasm/QasmImporter.java:113-136 | every failure of a register declaration is a QasmParse error |
| QasmImporter.ParseMeasure | src/main/java/io/quantum4j/qasm/QasmImporter.java:138-156 | every failure is a QasmParse error; an accepted statement is a measurement whose classical bit is below the creg size once a creg was declared |
| QasmImporter.ParseRegisters | src/main/java/io/quantum4j/qasm/QasmImporter.java:203-211 | one index per token, or a QasmParse error |
| QasmImporter.ParseQubitList | src/main/java/io/quantum4j/qasm/QasmImporter.java:203-211 | every error is a QasmParse error |
| QasmImporter.ParseSingleParam | src/main/java/io/quantum4j/qasm/QasmImporter.java:284-293 | a missing or empty parameter is a QasmParse error, as is an unparsable one |
| QasmImporter.ParseDoubles | src/main/java/io/quantum4j/qasm/QasmImporter.java:303-311 | one double per token, or a QasmParse error |
| QasmImporter.ParseParamList | src/main/java/io/quantum4j/qasm/QasmImporter.java:295-312 | a parameter list whose comma-separated count differs from the gate's is rejected; every failure is QasmParse; success gives exactly count values |
| QasmImporter.Fixed | src/main/java/io/quantum4j/qasm/QasmImporter.java:274-278 | the arity check succeeds exactly when the qubit count equals the gate's arity |
| QasmImporter.Dispatch | src/main/java/io/quantum4j/qasm/QasmImporter.java:213-272 | every failure is a QasmParse error; an accepted gate is a standard (never an io) gate applied to exactly the parsed qubits, whose number equals its arity |
| QasmImporter.SplitGate | src/main/java/io/quantum4j/qasm/QasmImporter.java:158-195 | every failure to split a gate statement into name, parameters and q[i] arguments is a QasmParse error |
| QasmImporter.ParenParts | src/main/java/io/quantum4j/qasm/QasmImporter.java:171-181 | every failure of the parametrised form name(params) q[i] is a QasmParse error |
| QasmImporter.ParseGate | src/main/java/io/quantum4j/qasm/QasmImporter.java:158-201 | every failure is a QasmParse error; an accepted gate statement gives a gate whose qubit count equals its arity |
| QasmImporter.Statement | src/main/java/io/quantum4j/qasm/QasmImporter.java:57-96 | every failure of a statement (including one before qreg) is a QasmParse error; the pending line buffer is left alone |
| QasmImporter.Step | src/main/java/io/quantum4j/qasm/QasmImporter.java:40-97 | every failure while buffering a line or handling the completed statement is a QasmParse error |
| QasmImporter.Run | src/main/java/io/quantum4j/qasm/QasmImporter.java:40-97 | every failure over a sequence of lines is a QasmParse error |
| QasmImporter.Import | src/main/java/io/quantum4j/qasm/QasmImporter.java:28-107 | every failure of fromQasm, including leftover text without a semicolon, is a QasmParse error |
| QasmImporter.Execute | src/main/java/io/quantum4j/qasm/QasmImporter.java:57-96 | the in-place handling of one statement agrees with Statement and only appends to an existing circuit or creates a fresh one |
| QasmImporter.FromQasm | src/main/java/io/quantum4j/qasm/QasmImporter.java:28-107 | the imperative reader fails with Import's error or returns a fresh circuit (or none) equal to Import's result |
| QasmImporter.ReadLine | src/main/java/io/quantum4j/qasm/QasmImporter.java:40-96 | one input line advances the reader exactly as Step does: a blank line changes nothing, an unterminated line is buffered, and a completed statement is executed or its failure reported; a circuit it returns is the old one or a fresh one |
| QasmImporter.StepBlank | src/main/java/io/quantum4j/qasm/QasmImporter.java:41-42 | a line that is blank after trimming leaves the reader unchanged |
| QasmImporter.StepBuffered | src/main/java/io/quantum4j/qasm/QasmImporter.java:44-48 | a non-blank line without a final ';' is appended, trimmed and followed by a space, to the buffer |
| QasmImporter.StepComplete | src/main/java/io/quantum4j/qasm/QasmImporter.java:44-55 | a line ending in ';' completes the buffered statement: it is executed with its ';' dropped and the buffer emptied |
| QasmImporter.RunSnoc | src/main/java/io/quantum4j/qasm/QasmImporter.java:40-97 | reading one more line is one more Step |
| QasmImporter.RunFails | src/main/java/io/quantum4j/qasm/QasmImporter.java:40-97 | a failure on a prefix of the lines fails the whole import |
| QasmRoundTrip.ParseRef | src/main/java/io/quantum4j/qasm/QasmImporter.java:318-335 | parsing the printed reference reg[i] against register reg gives back i for any Java int |
| QasmRoundTrip.QubitListRoundTrip | src/main/java/io/quantum4j/qasm/QasmImporter.java:203-211 | the printed list q[a], q[b], … parses back to the same indices |
| QasmRoundTrip.RegistersRoundTrip | src/main/java/io/quantum4j/qasm/QasmImporter.java:203-211 | the comma pieces of the printed list parse back to the same indices |
| QasmRoundTrip.CommaSplit | src/main/java/io/quantum4j/qasm/QasmImporter.java:204 | splitting the printed list on commas gives the printed references, indented after the first |
| QasmRoundTrip.ParamListRoundTrip | src/main/java/io/quantum4j/qasm/QasmImporter.java:295-312 | printed parameters that the double parser reads back parse back to the same values |
| QasmRoundTrip.SingleParamRoundTrip | src/main/java/io/quantum4j/qasm/QasmImporter.java:284-293 | a printed single parameter parses back to the same value |
| QasmRoundTrip.Canon | src/main/java/io/quantum4j/qasm/QasmImporter.java:256 | the gate the importer builds has the same name and arity as the printed one |
| QasmRoundTrip.DispatchPlain | src/main/java/io/quantum4j/qasm/QasmImporter.java:213-272 | a parameterless gate's own name with the right number of qubits dispatches to its canonical gate (the io CNOT to the standard CNOT), whatever the parameter text |
| QasmRoundTrip.DispatchParametric | src/main/java/io/quantum4j/qasm/QasmImporter.java:228-251 | a parametrised gate's name with its printed parameters dispatches back to the same gate |
| QasmRoundTrip.PlainGateRoundTrip | src/main/java/io/quantum4j/qasm/QasmImporter.java:158-201 | the printed parameterless gate statement parses back to the gate on the same qubits |
| QasmRoundTrip.ParamGateRoundTrip | src/main/java/io/quantum4j/qasm/QasmImporter.java:158-201 | the printed parametrised gate statement parses back to the same gate on the same qubit |
| QasmRoundTrip.GateLineText | src/main/java/io/quantum4j/qasm/QasmExporter.java:54-157 | the exporter's gate line is the gate text followed by a semicolon |
| QasmRoundTrip.GateStatement | src/main/java/io/quantum4j/qasm/QasmImporter.java:57-96 | after a qreg, a printed gate statement appends the (canonical) gate |
| QasmRoundTrip.GateTextParses | src/main/java/io/quantum4j/qasm/QasmImporter.java:158-201 | every printable gate's text parses back to its canonical gate |
| QasmRoundTrip.MeasureParse | src/main/java/io/quantum4j/qasm/QasmImporter.java:138-156 | the printed measure q[a] -> c[b] parses back to measure(a, b) when b is below the creg size |
| QasmRoundTrip.MeasureStatement | src/main/java/io/quantum4j/qasm/QasmImporter.java:88-91 | after a qreg, the printed measurement appends measure(a, b) |
| QasmRoundTrip.DeclSize | src/main/java/io/quantum4j/qasm/QasmImporter.java:113-136 | the printed register declaration is accepted and yields its size |
| QasmRoundTrip.DeclPattern | src/main/java/io/quantum4j/qasm/QasmImporter.java:120 | the printed declaration matches keyword name[digits] |
| QasmRoundTrip.DeclExtract | src/main/java/io/quantum4j/qasm/QasmImporter.java:124-136 | the size between the brackets of the printed declaration is read back |
| QasmRoundTrip.PreambleStatements | src/main/java/io/quantum4j/qasm/QasmImporter.java:60-61 | the OPENQASM and include statements change nothing |
| QasmRoundTrip.QregStatement | src/main/java/io/quantum4j/qasm/QasmImporter.java:66-71 | the printed qreg statement opens an empty circuit on n qubits |
| QasmRoundTrip.CregStatement | src/main/java/io/quantum4j/qasm/QasmImporter.java:76-80 | the printed creg statement sets the bit count to n |
| QasmRoundTrip.InstructionStep | src/main/java/io/quantum4j/qasm/QasmImporter.java:40-97 | a printable instruction's line is accepted and appends its canonical instruction |
| QasmRoundTrip.BodyRun | src/main/java/io/quantum4j/qasm/QasmImporter.java:40-97 | the printed body lines, read after the header, append the canonical instructions in order |
| QasmRoundTrip.HeaderRun | src/main/java/io/quantum4j/qasm/QasmImporter.java:40-97 | the six printed header lines leave an empty circuit on n qubits, a creg of size n and nothing buffered |
| QasmRoundTrip.RunExtends | src/main/java/io/quantum4j/qasm/QasmImporter.java:40-97 | reading one more accepted line extends the run |
| QasmTextRoundTrip.CleanLines | src/main/java/io/quantum4j/qasm/QasmImporter.java:32 | the importer's line view of newline-terminated lines free of comments and line breaks, the first non-empty, is those lines without trailing empty ones |
| QasmTextRoundTrip.LinesOfText | src/main/java/io/quantum4j/qasm/QasmImporter.java:32 | splitting the exported text on newlines gives its lines back, trailing empty ones dropped as Java's split does |
| QasmTextRoundTrip.RunDropTrailing | src/main/java/io/quantum4j/qasm/QasmImporter.java:40-42 | trailing blank lines do not change the import |
| QasmTextRoundTrip.RunAppend | src/main/java/io/quantum4j/qasm/QasmImporter.java:40-97 | reading a + b is reading a and then b |
| QasmTextRoundTrip.ExportSourceLines | src/main/java/io/quantum4j/qasm/QasmExporter.java:17-48 | the importer's view of an exported text is the header lines followed by the body lines |
| QasmTextRoundTrip.ImportExport | src/test/java/io/quantum4j/tests/QasmRoundTripRobustnessTest.java:45-56 | fromQasm(toQasm(c)) is c itself, with io CNOTGates read back as CNOTs, for every printable circuit |
| QasmTextRoundTrip.ImportOf | src/main/java/io/quantum4j/qasm/QasmImporter.java:28-107 | a run ending with an empty buffer imports to the circuit it built |
| QasmTextRoundTrip.CanonBody | src/main/java/io/quantum4j/qasm/QasmExporter.java:28-45 | canonicalising the gates does not change the printed body |
| QasmTextRoundTrip.ExportImportExport | src/test/java/io/quantum4j/tests/QasmComplianceV20Test.java:172-177 | toQasm(fromQasm(toQasm(c))) equals toQasm(c) |
| QasmImportErrors.RegisterNameStart | src/main/java/io/quantum4j/qasm/QasmImporter.java:120-121 | a register name starting with neither a letter nor an underscore is refused |
| QasmImportErrors.QregDeclRejected | src/main/java/io/quantum4j/qasm/QasmImporter.java:66-68 | a qreg statement that does not match the declaration pattern is an error |
| QasmImportErrors.DigitNameRejected | src/test/java/io/quantum4j/tests/QasmComplianceV20Test.java:100-103 | qreg 1q[2] is rejected |
| QasmImportErrors.NegativeSizeRejected | src/test/java/io/quantum4j/tests/QasmComplianceV20Test.java:106-109 | qreg q[-1] is rejected |
| QasmImportErrors.SignedIndex | src/main/java/io/quantum4j/qasm/QasmImporter.java:120 | a size beginning with a minus sign does not match [digits] |
| QasmImportErrors.SignedName | src/main/java/io/quantum4j/qasm/QasmImporter.java:120 | name[-…] does not match the declaration pattern |
| QasmImportErrors.DeclRejects | src/main/java/io/quantum4j/qasm/QasmImporter.java:120-121 | a declaration whose tail is not name[digits] is refused |
| QasmImportErrors.StatementBeforeQreg | src/main/java/io/quantum4j/qasm/QasmImporter.java:82-83 | any statement other than header, qreg or creg before the qreg is an error |
| QasmImportErrors.UnknownGateRejected | src/test/java/io/quantum4j/tests/QasmComplianceV20Test.java:126-133 | a gate name outside the eighteen known ones is an error |
| QasmImportErrors.EmptyParametersRejected | src/main/java/io/quantum4j/qasm/QasmImporter.java:284-301 | a parametrised gate with empty parentheses is an error |
| QasmImportErrors.GateArity | src/main/java/io/quantum4j/qasm/QasmImporter.java:274-278 | an accepted gate statement appends exactly one gate, whose qubit count equals its arity |
| QasmImportErrors.MeasureBeyondCreg | src/test/java/io/quantum4j/tests/QasmComplianceV20Test.java:147-150 | an accepted measurement appends one measurement whose classical bit is below the declared creg size |
| Strings.LowerChar | src/main/java/io/quantum4j/qasm/QasmImporter.java:200 | capital ASCII letters map to lower case, everything else is kept |
| Strings.ToLower | src/main/java/io/quantum4j/qasm/QasmImporter.java:200 | each character is lower-cased, the length kept |
| Strings.ToLowerNoCapitals | src/main/java/io/quantum4j/qasm/QasmImporter.java:200 | a string without capitals is unchanged |
| Strings.ToLowerIdempotent | src/main/java/io/quantum4j/qasm/QasmImporter.java:200 | lower-casing twice is lower-casing once |
| Strings.TrimStart | src/main/java/io/quantum4j/qasm/QasmImporter.java:41 | the leading characters ≤ ' ' are removed, and only those |
| Strings.TrimEnd | src/main/java/io/quantum4j/qasm/QasmImporter.java:41 | the trailing characters ≤ ' ' are removed, and only those |
| Strings.Trim | src/main/java/io/quantum4j/qasm/QasmImporter.java:41 | the result is empty exactly when every character is ≤ ' ', and otherwise starts and ends with a character above ' ' |
| Strings.TrimUntouched | src/main/java/io/quantum4j/qasm/QasmImporter.java:41 | a string already without padding is unchanged |
| Strings.TrimPadded | src/main/java/io/quantum4j/qasm/QasmImporter.java:41 | padding on either side does not change the trimmed result |
| Strings.TrimIdempotent | src/main/java/io/quantum4j/qasm/QasmImporter.java:41 | trimming twice is trimming once |
| Strings.IndexOf | src/main/java/io/quantum4j/qasm/QasmImporter.java:125-126 | the first index holding c, or -1 when there is none |
| Strings.IndexOfAt | src/main/java/io/quantum4j/qasm/QasmImporter.java:125-126 | the first occurrence is the index found |
| Strings.FindFrom | src/main/java/io/quantum4j/qasm/QasmImporter.java:142 | the first occurrence of p at or after k, or -1 |
| Strings.IndexOfSub | src/main/java/io/quantum4j/qasm/QasmImporter.java:142 | the first occurrence of p, or -1 |
| Strings.SubAfter | src/main/java/io/quantum4j/qasm/QasmImporter.java:142 | p is found right after a prefix that does not contain p's first character |
| Strings.Pieces | src/main/java/io/quantum4j/qasm/QasmImporter.java:142 | joining the pieces with the separator gives the string back |
| Strings.DropTrailingEmpty | src/main/java/io/quantum4j/qasm/QasmImporter.java:32 | removes exactly the trailing empty strings |
| Strings.Split | src/main/java/io/quantum4j/qasm/QasmImporter.java:142 | a string without the separator is one piece; no piece is longer than the string |
| Strings.PiecesOfJoin | src/main/java/io/quantum4j/qasm/QasmImporter.java:204 | splitting a join of pieces free of the separator's first character gives the pieces back |
| Strings.SplitOfJoin | src/main/java/io/quantum4j/qasm/QasmImporter.java:204 | Java's split undoes the join of such pieces when the last one is non-empty |
| Strings.DropCr | src/main/java/io/quantum4j/qasm/QasmImporter.java:339 | a final carriage return is removed, and nothing else changes |
| Strings.LineSplit | src/main/java/io/quantum4j/qasm/QasmImporter.java:339 | splitting on \r?\n: a string without a newline is one line |
| Strings.TerminatedAppend | src/main/java/io/quantum4j/qasm/QasmExporter.java:17-48 | newline-terminating a concatenation of line lists concatenates the texts |
| Strings.TerminatedIsJoin | src/main/java/io/quantum4j/qasm/QasmExporter.java:17-48 | newline-terminated lines are their join with a final empty line |
| Strings.LinePiecesOfJoin | src/main/java/io/quantum4j/qasm/QasmImporter.java:339 | line splitting undoes joining lines free of line breaks |
| Strings.LineSplitOfTerminated | src/main/java/io/quantum4j/qasm/QasmImporter.java:339 | splitting newline-terminated lines free of line breaks gives them back, trailing empty lines dropped |
| Strings.SplitOfTerminated | src/main/java/io/quantum4j/qasm/QasmImporter.java:32 | splitting newline-terminated lines on \n gives them back when the last is non-empty |
| Strings.Digit | src/main/java/io/quantum4j/qasm/QasmExporter.java:25 | the character for digit d is a digit of value d |
| Strings.NatToString | src/main/java/io/quantum4j/qasm/QasmExporter.java:25 | the decimal string of n is non-empty digits with value n and no leading zero |
| Strings.IntToString | src/main/java/io/quantum4j/qasm/QasmExporter.java:25 | Java's int printing: digits, after a leading minus for negatives |
| Strings.ParseInt | src/main/java/io/quantum4j/qasm/QasmImporter.java:331 | Integer.parseInt restricted to ASCII: an accepted text is an optional sign followed by ASCII digits, its value lies within int range, and an unsigned numeral is read at its digits' value |
| Strings.ParseIntExactly | src/main/java/io/quantum4j/qasm/QasmImporter.java:331 | Integer.parseInt restricted to ASCII accepts exactly the signed ASCII numerals whose value lies within int range, and returns that value |
| Strings.ParseIntOfString | src/main/java/io/quantum4j/qasm/QasmImporter.java:331 | parsing the printed form of any Java int gives it back |
| Strings.ParseIntRejectsNonNumerals | src/main/java/io/quantum4j/qasm/QasmImporter.java:331 | a non-numeral is refused |
| Strings.SkipRun | src/main/java/io/quantum4j/qasm/QasmImporter.java:120 | skipping a run of matching characters stops at the first non-matching one |

## Left out

- Floating point. Amplitudes, angles and probabilities are exact reals, and `cos`, `sin` and
  `1/sqrt` are uninterpreted functions. Rounding, NaN and the `1e-12` tolerances are therefore
  not modelled; comparisons against a tolerance are exact comparisons.
- Java's decimal formatting and parsing of doubles are a formatter/parser pair. The QASM round
  trip holds for parameters that this pair reads back unchanged, which is not proved for real
  doubles.
- `java.util.Random`: each measurement receives its draw in [0, 1) as a parameter, and each
  backend run receives a draw function.
- The importer's regular expressions are re-expressed as hand-written recognisers over strings.
  Only the patterns the importer uses are modelled: register declarations, `q[i]` lists and
  the `\r?\n` line split.
- Hardware backends (the IonQ and HTTP backends), `BackendFactory`, `QuantumExecutionContext`
  and `QuantumCircuit.run` in the `com` package (lines 169-175) are not part of this model. They
  send circuits over the network or choose a backend by name.
- Visualisation (`drawAscii`, `toSvg`) is not part of this model.
- The `io` package's separate `CZGate`, `SwapGate`, `ISwapGate` and `CHGate` classes carry the
  same matrices as the standard gates. They are modelled by the standard gates. Their class
  identity matters only to `instanceof` tests that no modelled code performs on them. The `io`
  package's `RXGate`, `RYGate` and `RZGate` classes are never instantiated by the modelled code
  and are left out.
- Null arguments are left out. This covers the passes' null checks, the null circuit given to
  `StateVectorBackend.run` or `toQasm`, and `fromQasm(null)`, all of which throw in Java. Dafny
  values cannot be null.
- Concurrency. The backend and the builders are single-threaded here.
- `getInstructions` returns an unmodifiable view. The model returns the sequence by value, so
  aliasing through that view, or through `Instruction.copy`, cannot arise.
- The backend's `Result` object is modelled as the counts map together with the last shot's state.
- A qubit array shorter than a gate's arity makes Java throw `ArrayIndexOutOfBoundsException`
  inside a pass or a kernel only when an index past its end is actually read. Each pass's
  precondition is exactly "this pass does not throw": SWAP, U3, basis and CX-to-CZ
  decomposition read their indices unconditionally, and `CXCancellation.Fails` and
  `GateCommutation.Fails` follow the reads of `CXCancellationPass` and `commutes`, so for
  example a lone one-qubit CX or a gate without qubits passes through. The exporter (`QasmExporter.PlainLine`, `ParamLine`) and the
  backend (`Backend.GateStep`) report it as `IndexOutOfBounds`; the builders accept any array,
  as Java does.
- The exporter's default branch, which throws `IllegalStateException` (`QasmExporter.java` lines
  42-43), cannot be reached: an instruction is either a gate or a measurement.
- `GateInversion` copies S, T and ISWAP unchanged instead of inverting them, as the source does.
- QFT: rotation angles use `1 << d`, which wraps for distances of 31 qubits or more.
  `QFT.AngleWraps` states this; the model keeps the wrapped value.
- ApplyTwo (`GateKernels.ApplyTwo`): reports `IndexOutOfBounds` for a qubit index that is negative or at or
  beyond the register size. Java computes `1 << q`, which uses `q mod 32`. An index of 32 or more,
  or a negative one, whose residue lies within the register does not fail in Java: it acts on
  qubit `q mod 32`. Two different indices with the same residue pass Java's `q0 == q1` test
  and build one mask twice. None of this is modelled.
- ApplyThree (`GateKernels.ApplyThree`): the same bound on qubit indices as `ApplyTwo`, for the same reason.
- GateStep (`Backend.GateStep`), and through it `Step`, `Execute`, `Outcomes`, `ApplyGate`,
  `ExecuteInstruction`, `ExecuteAt`, `ExecuteAll`, `CopyAndRunShot`, `RunShot`, `RunShots` and
  `Run`: inherit the kernels' bound on qubit indices, so they do not model the `q mod 32` masks
  either.
- Create (`StateVectors.Create`): for 31 or more qubits Java's `1 << n` wraps. `n = 31` gives a negative
  length and `NegativeArraySizeException`, and `n = 32` gives a single amplitude. The model
  builds all 2^n amplitudes for every n > 0.
- Init (`StateVectors.StateVector.Init`): the same as `Create` for 31 or more qubits.
- ParseInt (`Strings.ParseInt`, `Strings.ParseIntExactly`, `Strings.ParseIntRejectsNonNumerals`):
  accepts ASCII digits only. Java's `Integer.parseInt` also accepts digits from other Unicode
  scripts, such as Arabic-Indic digits, which the model rejects: a numeral written in them is a
  non-numeral here.
- ParseIndexedRegister (`QasmImporter.ParseIndexedRegister`): reads its index with `ParseInt`,
  so it also rejects non-ASCII digits that Java accepts. The recognisers for `q[i]` lists and register declarations
  (`\d` in Java's regular expressions) are ASCII-only in both.
- Run (`Transpiler.PassManager.Run`): a pass that would throw in Java makes the run return `None`,
  and only such a pass does: `Accepts` is each pass's condition for running without a throw, for
  example two equal one-qubit CX under CX cancellation. The exception's type and message are not
  kept.
- RunPasses (`Transpiler.RunPasses`): the same as `PassManager.Run`: a failing pass gives `None`, without the
  exception's type.
- Transpile (`DefaultTranspiler.Transpile`): runs its four passes through `RunPasses`, so a failure there is
  also `None`, without the exception's type.
- NewTwoQubitGate (`GateKernels.NewTwoQubitGate`): refuses a ragged matrix whose first row has
  4 entries but a later row does not. Java's constructor accepts it (see Findings), and its `apply`
  would then index past the short row. Every gate the library itself builds is square.
- NewThreeQubitGate (`GateKernels.NewThreeQubitGate`): the same, for 8 × 8 matrices.
- Apply (`RemoveRedundantMeasurement.Apply`): requires every measured qubit and classical bit to lie
  within the register. Java's table of seen pairs is `numQubits × numQubits` and throws
  `ArrayIndexOutOfBoundsException` otherwise.

## Findings

| source | as written | input that shows it | evidently intended | confidence | as-written member | corrected member |
|---|---|---|---|---|---|---|
| src/main/java/io/quantum4j/core/gates/CNOTGate.java:8-22 | The matrix flips the first qubit argument, which the kernel treats as the low bit, when the second one is set. So `cx(control, target)` from the `io` builder flips the control. | `x(0).cx(0, 1)` on two qubits gives `10` instead of `11`. `CCXGate.java:15-44` has the same swap: `x(0).x(1).ccx(0, 1, 2)` leaves qubit 2 at 0, while the CCX test expects `111`. | The target, the last argument, flips when every control is 1, as the standard `CNOT` and `CCX` classes do. The model's backend simulates the `io` literals as written (`Gates.Matrix` for `IoCNOT` and `IoCCX`); the standard gates carry the intended behaviour. | not executed | GateSemantics.IoCnotAsWrittenFlipsFirst, GateTraces.IoCnotTraceAsWritten, GateSemantics.IoCcxAsWrittenFlipsFirst, GateTraces.IoCcxTraceAsWritten | GateSemantics.CnotFlipsTarget, GateTraces.CnotTrace, GateSemantics.CcxFlipsTarget, GateTraces.CcxTrace |
| src/main/java/io/quantum4j/core/gates/TwoQubitGate.java:35-40 | The constructor checks the number of rows and the length of the first row only. `ThreeQubitGate.java:30-35` does the same. | A 4-row matrix whose first row has 4 entries and whose second row has 3 is accepted, and `apply` then reads past the end of row 2. | Every row has as many entries as the dimension. | not executed | GateKernels.ShapeChecksAdmitRaggedRows | GateKernels.NewTwoQubitGate, GateKernels.NewThreeQubitGate |
