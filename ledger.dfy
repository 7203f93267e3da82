// The private-data store the chaincode works on, its entities and the
// responses its handlers return.

module Ledger {

  datatype Option<+T> = None | Some(value: T)

  type Bytes = seq<bv8>

  /** A ledger key: a plain identifier, or a composite key built by the
      shim's CreateCompositeKey from an index name and its attributes.
      Distinct constructors and fields make the encoding injective. */
  datatype Key =
    | Plain(id: string)
    | Composite(index: string, attributes: seq<string>)

  datatype PatientInformation = PatientInformation(
    objectType: string,
    id: string,
    insuranceCard: string,
    currentMedicationInformation: string,
    relatedMedicalRecords: string,
    makeNoteOfAppointmentDate: string)

  datatype MedicalRecord = MedicalRecord(
    objectType: string,
    id: string,
    personalIdentificationInformation: string,
    medicalHistory: string,
    familyMedicalHistory: string,
    medicationHistory: string,
    treatmentHistory: string,
    medicalDirectives: string)

  datatype DrugInformation = DrugInformation(
    objectType: string,
    id: string,
    patientName: string,
    drugName: string,
    expirationDate: string,
    quantity: string,
    prescribedBy: string)

  datatype HospitalFees = HospitalFees(
    objectType: string,
    id: string,
    patientName: string,
    account: string,
    dateOfService: string,
    patientService: string,
    primaryInsuranceBilled: string,
    secondaryInsuranceBilled: string,
    pharmacy: string,
    room: string,
    amountDue: string)

  /** The source's `Query` struct: one access to a patient's data. */
  datatype AccessEvent = AccessEvent(
    objectType: string,
    userId: string,
    patientId: string,
    location: string,
    time: string,
    purpose: string)

  /** What a key holds. Entities are stored as values (their JSON encoding
      is not modelled); `Raw` covers bytes this core does not interpret,
      such as user identity records and the one-byte index marker. */
  datatype Value =
    | Patient(patient: PatientInformation)
    | Medical(record: MedicalRecord)
    | Drug(drug: DrugInformation)
    | Fees(fees: HospitalFees)
    | Event(event: AccessEvent)
    | Raw(bytes: Bytes)

  /** The value written at every secondary-index key. */
  const IndexMarker: Value := Raw([0x00])

  const PatientCollection := "PatientInformationCollection"
  const MedicalCollection := "MedicalRecordCollection"
  const DrugCollection := "DrugInformationCollection"
  const FeesCollection := "HospitalFeesCollection"
  const QueryCollection := "queryCollection"
  const ModifyCollection := "modifyCollection"

  /** Stands for the text of an error the store itself reports. */
  const StoreFault := "private data store failure"

  type Entries = map<(string, Key), Value>

  /** One call on the store, in the order a handler makes it. */
  datatype Call =
    | Get(collection: string, key: Key)
    | Put(collection: string, key: Key, value: Value)

  /** What GetPrivateData reports: an error, nil, or the stored bytes. */
  datatype Read = Fault | Absent | Found(value: Value)

  /** The peer response: shim.Success(payload), shim.Error(message), or a
      Go runtime panic (an index out of range). */
  datatype Response = Success(payload: Option<Value>) | Error(message: string) | Panic

  /** A handler's whole effect: its response and the store calls it made. */
  datatype Outcome = Outcome(response: Response, calls: seq<Call>)

  /** Where the store fails: every call on one of `collections`, and the
      writes of the keys in `puts`, which the peer refuses one by one while
      taking the other writes to the same collection. */
  datatype Faults = Faults(collections: set<string>, puts: set<(string, Key)>)
  {
    /** A write is refused on a failing collection, at a failing key, and
        always at the empty id, which the shim rejects before it reaches
        the peer. */
    predicate Refuses(collection: string, key: Key)
    {
      collection in collections || (collection, key) in puts || key == Plain("")
    }
  }

  /** The store's answer to a read. */
  function Lookup(s: Entries, down: Faults, collection: string, key: Key): (r: Read)
    ensures r.Fault? <==> collection in down.collections
    ensures r.Absent? <==> collection !in down.collections && (collection, key) !in s
    ensures r.Found? ==> r.value == s[(collection, key)]
  {
    if collection in down.collections then Fault
    else if (collection, key) in s then Found(s[(collection, key)])
    else Absent
  }

  function Apply(s: Entries, down: Faults, c: Call): Entries
  {
    match c
    case Get(_, _) => s
    case Put(collection, key, value) =>
      if down.Refuses(collection, key) then s else s[(collection, key) := value]
  }

  /** The entries after a sequence of calls. */
  function Run(s: Entries, down: Faults, calls: seq<Call>): Entries
    decreases |calls|
  {
    if calls == [] then s
    else Apply(Run(s, down, calls[..|calls| - 1]), down, calls[|calls| - 1])
  }

  /** Run on the short literal call lists the handlers make. */
  lemma RunSteps(s: Entries, down: Faults, a: Call, b: Call, c: Call)
    ensures Run(s, down, [a]) == Apply(s, down, a)
    ensures Run(s, down, [a, b]) == Apply(Apply(s, down, a), down, b)
    ensures Run(s, down, [a, b, c]) == Apply(Apply(Apply(s, down, a), down, b), down, c)
  {
    assert [a, b, c][..2] == [a, b];
    assert [a, b][..1] == [a];
    assert [a][..0] == [];
  }

  predicate Writes(c: Call, collection: string)
  {
    c.Put? && c.collection == collection
  }

  /** Running two call sequences one after the other is running their
      concatenation. */
  lemma {:induction false} RunConcat(s: Entries, down: Faults, a: seq<Call>, b: seq<Call>)
    ensures Run(s, down, a + b) == Run(Run(s, down, a), down, b)
    decreases |b|
  {
    if b == [] {
      assert a + b == a;
    } else {
      var b' := b[..|b| - 1];
      assert (a + b)[..|a + b| - 1] == a + b';
      RunConcat(s, down, a, b');
    }
  }

  /** A call trace extended twice is the trace extended once by both
      parts. */
  lemma AppendAssociates(a: seq<Call>, b: seq<Call>, c: seq<Call>)
    ensures (a + b) + c == a + (b + c)
  {
  }

  /** Calls that write nothing to a collection leave its keys as they were. */
  lemma {:induction false} RunKeepsUnwritten(s: Entries, down: Faults, calls: seq<Call>, collection: string, key: Key)
    requires forall i :: 0 <= i < |calls| ==> !Writes(calls[i], collection)
    ensures (collection, key) in Run(s, down, calls) <==> (collection, key) in s
    ensures (collection, key) in s ==> Run(s, down, calls)[(collection, key)] == s[(collection, key)]
    decreases |calls|
  {
    if calls != [] {
      RunKeepsUnwritten(s, down, calls[..|calls| - 1], collection, key);
    }
  }

  /** The peer's private-data store as one handler invocation sees it. */
  class Stub {
    var entries: Entries
    /** Where this peer's store fails. */
    const down: Faults
    /** Every call made so far, oldest first. */
    ghost var trace: seq<Call>

    constructor (entries: Entries, down: Faults)
      ensures this.entries == entries && this.down == down && trace == []
    {
      this.entries := entries;
      this.down := down;
      trace := [];
    }

    method GetPrivateData(collection: string, key: Key) returns (r: Read)
      modifies this`trace
      ensures r == Lookup(entries, down, collection, key)
      ensures trace == old(trace) + [Get(collection, key)]
    {
      if collection in down.collections {
        r := Fault;
      } else if (collection, key) in entries {
        r := Found(entries[(collection, key)]);
      } else {
        r := Absent;
      }
      trace := trace + [Get(collection, key)];
    }

    /** Overwrites the key unless the store refuses it; reports whether it
        refused. */
    method PutPrivateData(collection: string, key: Key, value: Value) returns (failed: bool)
      modifies this`entries, this`trace
      ensures failed == down.Refuses(collection, key)
      ensures failed ==> entries == old(entries)
      ensures !failed ==> entries == old(entries)[(collection, key) := value]
      ensures trace == old(trace) + [Put(collection, key, value)]
    {
      failed := down.Refuses(collection, key);
      if !failed {
        entries := entries[(collection, key) := value];
      }
      trace := trace + [Put(collection, key, value)];
    }
  }

  /** The stub is now in the state `o` describes, reached from `before` /
      `traced`, and `r` is the response `o` gives. */
  ghost predicate Performs(stub: Stub, before: Entries, traced: seq<Call>, o: Outcome, r: Response)
    reads stub
  {
    && r == o.response
    && stub.trace == traced + o.calls
    && stub.entries == Run(before, stub.down, o.calls)
  }
}
