/** The split of a witness into its public and secret assignments, driven
    by the visibility tag of each field of the circuit record. Within each
    part the fields keep their declaration order, and the full witness
    vector is the public part followed by the secret part. */
module Assignment {
  import opened Field
  import opened Circuit

  datatype Visibility = Public | Secret

  /** The visibility tags of the record's fields, in declaration order. */
  const Tags: seq<Visibility> := [Public, Public, Public, Secret, Secret, Secret, Public]

  /** The record's field values, in declaration order. */
  function Values(c: VaccineCircuit): (vs: seq<Felt>)
    ensures |vs| == |Tags|
  {
    [c.age, c.vaccineType, c.lotNumber, c.dob, c.medicalRecordNum, c.vaccinatedSecret, c.vaccinatedHash]
  }

  /** The value at position `k` if its tag is `vis`, else nothing. */
  function Pick<T>(vs: seq<T>, tags: seq<Visibility>, vis: Visibility, k: nat): seq<T>
    requires |vs| == |tags| && k < |vs|
  {
    if tags[k] == vis then [vs[k]] else []
  }

  /** The values from position `k` on whose tag is `vis`, in their original order. */
  function SelectFrom<T>(vs: seq<T>, tags: seq<Visibility>, vis: Visibility, k: nat): seq<T>
    requires |vs| == |tags| && k <= |vs|
    decreases |vs| - k
  {
    if k == |vs| then [] else Pick(vs, tags, vis, k) + SelectFrom(vs, tags, vis, k + 1)
  }

  /** The values whose tag is `vis`, in their original order. */
  function Select<T>(vs: seq<T>, tags: seq<Visibility>, vis: Visibility): seq<T>
    requires |vs| == |tags|
  {
    SelectFrom(vs, tags, vis, 0)
  }

  /** One position contributes its value to exactly one of the two parts. */
  lemma PickPartitions<T>(vs: seq<T>, tags: seq<Visibility>, k: nat)
    requires |vs| == |tags| && k < |vs|
    ensures multiset(Pick(vs, tags, Public, k)) + multiset(Pick(vs, tags, Secret, k)) == multiset{vs[k]}
  {
  }

  /** From position `k` on, every value lands in exactly one of the two parts. */
  lemma {:induction false} SelectFromPartitions<T>(vs: seq<T>, tags: seq<Visibility>, k: nat)
    requires |vs| == |tags| && k <= |vs|
    ensures multiset(SelectFrom(vs, tags, Public, k)) + multiset(SelectFrom(vs, tags, Secret, k))
              == multiset(vs[k..])
    decreases |vs| - k
  {
    if k < |vs| {
      SelectFromPartitions(vs, tags, k + 1);
      PickPartitions(vs, tags, k);
      assert vs[k..] == [vs[k]] + vs[k + 1..];
    }
  }

  /** Every value lands in exactly one of the two parts. */
  lemma SelectPartitions<T>(vs: seq<T>, tags: seq<Visibility>)
    requires |vs| == |tags|
    ensures multiset(Select(vs, tags, Public)) + multiset(Select(vs, tags, Secret)) == multiset(vs)
  {
    SelectFromPartitions(vs, tags, 0);
    assert vs[0..] == vs;
  }

  function PublicAssignment(c: VaccineCircuit): seq<Felt> {
    Select(Values(c), Tags, Public)
  }

  function SecretAssignment(c: VaccineCircuit): seq<Felt> {
    Select(Values(c), Tags, Secret)
  }

  /** The full witness vector: public values first, then secret ones. */
  function FullAssignment(c: VaccineCircuit): seq<Felt> {
    PublicAssignment(c) + SecretAssignment(c)
  }

  /** `Select` on a record's values, one field after another. */
  lemma UnfoldTags(c: VaccineCircuit, vis: Visibility)
    ensures Select(Values(c), Tags, vis) ==
              Pick(Values(c), Tags, vis, 0) + Pick(Values(c), Tags, vis, 1) + Pick(Values(c), Tags, vis, 2)
              + Pick(Values(c), Tags, vis, 3) + Pick(Values(c), Tags, vis, 4) + Pick(Values(c), Tags, vis, 5)
              + Pick(Values(c), Tags, vis, 6)
  {
    var vs := Values(c);
    assert SelectFrom(vs, Tags, vis, 6) == Pick(vs, Tags, vis, 6);
    assert SelectFrom(vs, Tags, vis, 5) == Pick(vs, Tags, vis, 5) + SelectFrom(vs, Tags, vis, 6);
    assert SelectFrom(vs, Tags, vis, 4) == Pick(vs, Tags, vis, 4) + SelectFrom(vs, Tags, vis, 5);
    assert SelectFrom(vs, Tags, vis, 3) == Pick(vs, Tags, vis, 3) + SelectFrom(vs, Tags, vis, 4);
    assert SelectFrom(vs, Tags, vis, 2) == Pick(vs, Tags, vis, 2) + SelectFrom(vs, Tags, vis, 3);
    assert SelectFrom(vs, Tags, vis, 1) == Pick(vs, Tags, vis, 1) + SelectFrom(vs, Tags, vis, 2);
  }

  /** The public assignment is age, vaccine type, lot number and hash, in
      declaration order. */
  lemma PublicAssignmentFields(c: VaccineCircuit)
    ensures PublicAssignment(c) == [c.age, c.vaccineType, c.lotNumber, c.vaccinatedHash]
  {
    UnfoldTags(c, Public);
  }

  /** The secret assignment is date of birth, medical record number and
      secret, in declaration order. */
  lemma SecretAssignmentFields(c: VaccineCircuit)
    ensures SecretAssignment(c) == [c.dob, c.medicalRecordNum, c.vaccinatedSecret]
  {
    UnfoldTags(c, Secret);
  }

  /** The full witness vector holds every field value exactly once. */
  lemma FullAssignmentIsPermutation(c: VaccineCircuit)
    ensures multiset(FullAssignment(c)) == multiset(Values(c))
  {
    SelectPartitions(Values(c), Tags);
  }

  /** The full witness vector lists the public fields, then the secret ones. */
  lemma FullAssignmentOrder(c: VaccineCircuit)
    ensures FullAssignment(c) ==
              [c.age, c.vaccineType, c.lotNumber, c.vaccinatedHash,
               c.dob, c.medicalRecordNum, c.vaccinatedSecret]
  {
    PublicAssignmentFields(c);
    SecretAssignmentFields(c);
  }

  /** The private fields never reach the public assignment: changing them
      leaves it unchanged. */
  lemma PrivateFieldsStayPrivate(c: VaccineCircuit, dob: Felt, medicalRecordNum: Felt, vaccinatedSecret: Felt)
    ensures PublicAssignment(c) ==
              PublicAssignment(c.(dob := dob, medicalRecordNum := medicalRecordNum, vaccinatedSecret := vaccinatedSecret))
  {
    PublicAssignmentFields(c);
    PublicAssignmentFields(c.(dob := dob, medicalRecordNum := medicalRecordNum, vaccinatedSecret := vaccinatedSecret));
  }
}
