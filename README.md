# Vaccination compliance circuit, modelled in Dafny

The repository proves, in zero knowledge, that a traveller's vaccination
record is compliant. A prover builds a Groth16 proof; a verifier checks it
against the public part of the record. The compliance policy itself is the
gnark circuit `VaccineCircuit` in `circuit/circuit.go`. This project models
that circuit and proves what it does and does not enforce.

The circuit's record has seven field elements. Four are public: `Age`,
`VaccineType`, `LotNumber` and `VaccinatedHash`. Three are private: `Dob`,
`MedicalRecordNum` and `VaccinatedSecret`. `Define` adds these constraints:

- `Age <= 100`, an order check on the canonical representative;
- the vaccine-type validity flag, the Or of three equality tests built from
  `IsZero(Cmp(VaccineType, k))` for `k` = malaria (0), hepatitis B (1) and
  influenza (2). gnark's `Or` asserts that both of its operands are boolean,
  so those boolean checks are constraints too. The flag's value is never
  asserted, because the line that would bound `VaccineType` is commented out;
- `VaccinatedHash == MiMC(VaccinatedSecret)`, the hasher having absorbed
  exactly the one secret value.

`Define` always returns `nil`, so it never fails on its own.

Layout:

- `field.dfy` (module `Field`): the BN254 scalar field. Its modulus is the
  real constant. A field element `Felt` is its canonical representative in
  `[0, P)`. The field element -1 is `P - 1`.
- `frontend.dfy` (module `Frontend`): the gnark API calls the circuit uses
  (`Cmp`, `IsZero`, `Or`, `AssertIsLessOrEqual`, `AssertIsEqual`). They are
  evaluated on a concrete witness. Each assertion becomes a `Constraint`
  value, and `AllHold` says that every one of them holds. `Or` returns a
  `Gate`: its output together with the assertions it adds.
- `circuit.dfy` (module `Circuit`): the enum constants (`Malaria`,
  `HepatitisB`, `Influenza`, `Vaccinated`, `NotVaccinated`), the record
  `VaccineCircuit`, the validity flag `VaccineTypeIsValid`, `Define` as the
  list of constraints it adds, `Satisfied`, and the lemmas about them.
- `assignment.dfy` (module `Assignment`): the visibility tag of each field
  in declaration order. It gives the public and secret assignments and the
  full witness vector, which is the public values followed by the secret
  ones.

MiMC is a library hash. It is a parameter `mimc: seq<Felt> -> Felt`, the
digest of the sequence of values written to the hasher, and nothing is
assumed about it. `DistinctSecretsCollide` needs no hypothesis: two
satisfying records that publish one hash with different secrets exhibit a
MiMC collision between single-value inputs. Only `CommitmentDeterminesSecret`
adds a hypothesis: that MiMC is injective on single-value inputs. (No
function from all sequences into the field can be injective, so the
hypothesis is stated for single-value inputs only.)

This revision of the circuit has no disease-specific, route-risk or
expiration rule, and no country or expiration fields. The vaccine-type
domain is computed but not enforced.

## Definitions

These definitions model source lines but carry no contract of their own;
the lemma named beside each states what they mean.

| definition | source | specified by |
|---|---|---|
| `Circuit.Malaria`, `Circuit.HepatitisB`, `Circuit.Influenza` | circuit/circuit.go:8-12 | `Circuit.VaccineTypeIsValid` |
| `Circuit.Vaccinated`, `Circuit.NotVaccinated` | circuit/circuit.go:14-17 | constants only; the circuit never reads them |
| `Circuit.VaccineCircuit` | circuit/circuit.go:19-28 | `Assignment.PublicAssignmentFields`, `Assignment.SecretAssignmentFields` |
| `Circuit.Commitment` | circuit/circuit.go:49-51 | `Circuit.CommitmentBinding` |
| `Circuit.Define` | circuit/circuit.go:31-56 | `Circuit.ExactConjunction` |
| `Circuit.Satisfied` | circuit/circuit.go:31-56 | `Circuit.ExactConjunction` |
| `Assignment.Tags`, `Assignment.Values` | circuit/circuit.go:21-27 | `Assignment.PublicAssignmentFields`, `Assignment.SecretAssignmentFields` |
| `Assignment.PublicAssignment` | circuit/circuit.go:21-27 | `Assignment.PublicAssignmentFields`, `Assignment.PrivateFieldsStayPrivate` |
| `Assignment.SecretAssignment` | circuit/circuit.go:21-27 | `Assignment.SecretAssignmentFields` |
| `Assignment.FullAssignment` | circuit/circuit.go:21-27 | `Assignment.FullAssignmentOrder`, `Assignment.FullAssignmentIsPermutation` |

## Model

| member | source | states |
|---|---|---|
| Frontend.Cmp | circuit/circuit.go:38-44 | the three-way compare is 0 exactly on equal inputs, 1 exactly when the first is larger, and -1 (P - 1) exactly when it is smaller |
| Frontend.CmpRange | circuit/circuit.go:38-44 | `Cmp` always yields one of -1, 0 and 1 |
| Frontend.IsZero | circuit/circuit.go:38-44 | the zero test is boolean and is 1 exactly on the zero element |
| Frontend.EqualityIdiom | circuit/circuit.go:38-44 | `IsZero(Cmp(a, b))` is 1 when a == b and 0 otherwise |
| Frontend.Or | circuit/circuit.go:37-45 | Or's boolean assertions hold exactly when both operands are 0 or 1; on boolean operands the result is boolean and is 1 exactly when at least one operand is 1 |
| Frontend.AssertIsLessOrEqual | circuit/circuit.go:32 | the order assertion holds exactly when the canonical value is at most the bound |
| Frontend.AssertIsEqual | circuit/circuit.go:53 | the equality assertion holds exactly when both values are equal |
| Circuit.VaccineTypeIsValid | circuit/circuit.go:37-45 | the validity flag is 0 or 1, and it is 1 exactly when the vaccine type is malaria (0), hepatitis B (1) or influenza (2); the Or gadgets' own boolean assertions always hold |
| Circuit.ExactConjunction | circuit/circuit.go:31-56 | the record satisfies the circuit exactly when the age is at most 100 and the hash is the MiMC digest of the single secret value, with no other condition |
| Circuit.InclusiveAgeBound | circuit/circuit.go:32 | when the hash is right, age 100 satisfies, age 101 does not, and satisfaction is exactly age <= 100 |
| Circuit.CommitmentBinding | circuit/circuit.go:49-53 | a satisfying record's public hash is the MiMC digest of exactly `[VaccinatedSecret]`, and its age is within the bound |
| Circuit.DistinctSecretsCollide | circuit/circuit.go:49-53 | two satisfying records that publish the same hash have equal MiMC digests of their single secrets, so different secrets are a MiMC collision |
| Circuit.CommitmentDeterminesSecret | circuit/circuit.go:49-53 | if MiMC is injective on single-value inputs, two satisfying records that publish the same hash have the same secret |
| Circuit.VaccineTypeNotEnforced | circuit/circuit.go:35-45 | replacing the vaccine type never changes whether the record satisfies the circuit |
| Circuit.UndeclaredVaccineTypeAccepted | circuit/circuit.go:35-45 | a record with vaccine type 3, age 30 and a correct hash has validity flag 0 and still satisfies the circuit, for every hash function |
| Circuit.UnusedFields | circuit/circuit.go:21-56 | changing `Dob`, `MedicalRecordNum` or `LotNumber` never changes whether the record satisfies the circuit |
| Assignment.SelectPartitions | circuit/circuit.go:21-27 | splitting tagged values by visibility puts every value in exactly one part (the two parts together are a permutation of the values) |
| Assignment.PublicAssignmentFields | circuit/circuit.go:21-27 | the public assignment is exactly Age, VaccineType, LotNumber, VaccinatedHash, in declaration order |
| Assignment.SecretAssignmentFields | circuit/circuit.go:21-27 | the secret assignment is exactly Dob, MedicalRecordNum, VaccinatedSecret, in declaration order |
| Assignment.FullAssignmentIsPermutation | circuit/circuit.go:21-27 | the full witness vector holds every field value of the record exactly once |
| Assignment.FullAssignmentOrder | circuit/circuit.go:21-27 | the full witness vector is the four public fields in declaration order, then the three private fields in declaration order |
| Assignment.PrivateFieldsStayPrivate | circuit/circuit.go:21-27 | changing `Dob`, `MedicalRecordNum` or `VaccinatedSecret` leaves the public assignment unchanged |

## Left out

- The internal constraints of gnark's `Cmp`, `IsZero` and bit decomposition, whose extra variables come from solver hints, are not modelled. Each gadget is modelled by the value it defines on a canonical witness. So the model describes the honest prover's witness, not soundness against a malicious choice of hint values.
- MiMC's internals and the BN254 curve and pairing arithmetic are library code. MiMC is an uninterpreted parameter.
- `api.Println` debug output (circuit/circuit.go:47, 52) has no effect on the constraints and is left out.
- Reducing an out-of-range Go integer into the field when the witness is built (gnark `NewWitness`) is not modelled. Every record field is already a canonical field element.
- Frontend.Or: the model states nothing about the output when an operand is not boolean. That case always fails Or's own assertions.
- The constraint-system compilation, the Groth16 trusted setup, and proving-key and verifying-key transfer (setup/setup.go) are foreign library calls and process I/O, and are not part of this model.
- The NATS publish/subscribe loops, the rate-limiting sleep, Groth16 proving and verification, and console output (prover.go, verifier.go) are transport and cryptographic plumbing, and are not part of this model.
- The JSON proof envelope (msg/msg.go, setup/msg.go) wraps library serialisation. Any round trip would rest on library behaviour that is not part of this model.
- The record generator `circuit.Generate`, called by the prover, is not part of this model: its source is not available.
