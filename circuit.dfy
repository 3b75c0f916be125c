/** The vaccination compliance circuit: the witness record, the enum
    constants, the constraints that `Define` adds, and what it means for a
    witness to satisfy them. */
module Circuit {
  import opened Field
  import opened Frontend

  // Vaccine types, numbered from zero in declaration order.
  const Malaria: Felt := 0
  const HepatitisB: Felt := 1
  const Influenza: Felt := 2

  // Vaccination sentinels, numbered from one.
  const Vaccinated: Felt := 1
  const NotVaccinated: Felt := 2

  /** The largest admissible age (inclusive). */
  const MaxAge: Felt := 100

  /** The circuit's witness, fields in declaration order. Age, vaccineType,
      lotNumber and vaccinatedHash are public; dob, medicalRecordNum and
      vaccinatedSecret are private. */
  datatype VaccineCircuit = VaccineCircuit(
    age: Felt,
    vaccineType: Felt,
    lotNumber: Felt,
    dob: Felt,
    medicalRecordNum: Felt,
    vaccinatedSecret: Felt,
    vaccinatedHash: Felt)

  /** The in-circuit MiMC hash, left uninterpreted: the digest of the
      sequence of field elements written to the hasher. */
  type MiMC = seq<Felt> -> Felt

  /** The digest after one Write of `secret` into a fresh hasher and Sum. */
  function Commitment(mimc: MiMC, secret: Felt): Felt {
    mimc([secret])
  }

  /** The vaccine-type validity flag: the Or of three equality tests, with
      the boolean assertions the two Or gadgets add. */
  function VaccineTypeIsValid(vaccineType: Felt): (g: Gate)
    ensures IsBool(g.out)
    ensures g.out == 1 <==> vaccineType in {Malaria, HepatitisB, Influenza}
    ensures AllHold(g.asserted)
  {
    var first := Or(IsZero(Cmp(vaccineType, Malaria)), IsZero(Cmp(vaccineType, HepatitisB)));
    var second := Or(first.out, IsZero(Cmp(vaccineType, Influenza)));
    AllHoldAppend(first.asserted, second.asserted);
    Gate(second.out, first.asserted + second.asserted)
  }

  /** The constraints `Define` adds for witness `c`, in order. The validity
      flag's own value is dropped: its assertion is commented out in the
      source, so only the Or gadgets' boolean checks remain. */
  function Define(c: VaccineCircuit, mimc: MiMC): seq<Constraint> {
    [AssertIsLessOrEqual(c.age, MaxAge)]
      + VaccineTypeIsValid(c.vaccineType).asserted
      + [AssertIsEqual(c.vaccinatedHash, Commitment(mimc, c.vaccinatedSecret))]
  }

  /** Whether the witness satisfies every constraint of the circuit. */
  predicate Satisfied(c: VaccineCircuit, mimc: MiMC) {
    AllHold(Define(c, mimc))
  }

  /** Satisfaction is exactly the age bound and the hash commitment. */
  lemma ExactConjunction(c: VaccineCircuit, mimc: MiMC)
    ensures Satisfied(c, mimc) <==>
              c.age <= MaxAge && c.vaccinatedHash == mimc([c.vaccinatedSecret])
  {
    var ageCheck := [AssertIsLessOrEqual(c.age, MaxAge)];
    var flag := VaccineTypeIsValid(c.vaccineType).asserted;
    var hashCheck := [AssertIsEqual(c.vaccinatedHash, Commitment(mimc, c.vaccinatedSecret))];
    AllHoldAppend(ageCheck + flag, hashCheck);
    AllHoldAppend(ageCheck, flag);
    assert AllHold(ageCheck) <==> Holds(ageCheck[0]);
    assert AllHold(hashCheck) <==> Holds(hashCheck[0]);
  }

  /** The age bound is inclusive: 100 passes and 101 fails. */
  lemma InclusiveAgeBound(c: VaccineCircuit, mimc: MiMC)
    requires c.vaccinatedHash == mimc([c.vaccinatedSecret])
    ensures Satisfied(c.(age := 100), mimc)
    ensures !Satisfied(c.(age := 101), mimc)
    ensures Satisfied(c, mimc) <==> c.age <= 100
  {
    ExactConjunction(c.(age := 100), mimc);
    ExactConjunction(c.(age := 101), mimc);
    ExactConjunction(c, mimc);
  }

  /** A satisfying witness commits to its secret: the public hash is the
      MiMC digest of exactly the one secret value. */
  lemma CommitmentBinding(c: VaccineCircuit, mimc: MiMC)
    requires Satisfied(c, mimc)
    ensures c.vaccinatedHash == mimc([c.vaccinatedSecret])
    ensures c.age <= MaxAge
  {
    ExactConjunction(c, mimc);
  }

  /** Two satisfying witnesses that publish the same hash but hold
      different secrets exhibit a MiMC collision on single-value inputs. */
  lemma DistinctSecretsCollide(c1: VaccineCircuit, c2: VaccineCircuit, mimc: MiMC)
    requires Satisfied(c1, mimc) && Satisfied(c2, mimc)
    requires c1.vaccinatedHash == c2.vaccinatedHash
    ensures mimc([c1.vaccinatedSecret]) == mimc([c2.vaccinatedSecret])
    ensures c1.vaccinatedSecret != c2.vaccinatedSecret ==> [c1.vaccinatedSecret] != [c2.vaccinatedSecret]
  {
    CommitmentBinding(c1, mimc);
    CommitmentBinding(c2, mimc);
    if c1.vaccinatedSecret != c2.vaccinatedSecret {
      assert [c1.vaccinatedSecret][0] != [c2.vaccinatedSecret][0];
    }
  }

  /** If MiMC is injective on single-value inputs, a satisfying witness's
      public hash determines its secret. */
  lemma CommitmentDeterminesSecret(c1: VaccineCircuit, c2: VaccineCircuit, mimc: MiMC)
    requires forall x: Felt, y: Felt :: mimc([x]) == mimc([y]) ==> x == y
    requires Satisfied(c1, mimc) && Satisfied(c2, mimc)
    requires c1.vaccinatedHash == c2.vaccinatedHash
    ensures c1.vaccinatedSecret == c2.vaccinatedSecret
  {
    DistinctSecretsCollide(c1, c2, mimc);
  }

  /** The vaccine type is not enforced: replacing it never changes whether
      the circuit is satisfied. */
  lemma VaccineTypeNotEnforced(c: VaccineCircuit, mimc: MiMC, vaccineType: Felt)
    ensures Satisfied(c, mimc) <==> Satisfied(c.(vaccineType := vaccineType), mimc)
  {
    ExactConjunction(c, mimc);
    ExactConjunction(c.(vaccineType := vaccineType), mimc);
  }

  /** A witness with the undeclared vaccine type 3 has validity flag 0 and
      still satisfies the circuit, whatever the hash function. */
  lemma UndeclaredVaccineTypeAccepted(mimc: MiMC)
    ensures var c := VaccineCircuit(30, 3, 7, 0, 42, Vaccinated, mimc([Vaccinated]));
            Satisfied(c, mimc) && VaccineTypeIsValid(c.vaccineType).out == 0
  {
    var c := VaccineCircuit(30, 3, 7, 0, 42, Vaccinated, mimc([Vaccinated]));
    ExactConjunction(c, mimc);
  }

  /** The date of birth, the medical record number and the lot number take
      no part in any constraint. */
  lemma UnusedFields(c: VaccineCircuit, mimc: MiMC, dob: Felt, medicalRecordNum: Felt, lotNumber: Felt)
    ensures Satisfied(c, mimc) <==>
              Satisfied(c.(dob := dob, medicalRecordNum := medicalRecordNum, lotNumber := lotNumber), mimc)
  {
    ExactConjunction(c, mimc);
    ExactConjunction(c.(dob := dob, medicalRecordNum := medicalRecordNum, lotNumber := lotNumber), mimc);
  }
}
