// The request handlers both deployment variants share, each as a
// specification function giving its Outcome and a method that performs it
// on the store.

module Handlers {
  import opened Ledger
  import opened Arguments

  // ---------------------------------------------------------------------
  // Entities and their secondary-index keys
  // ---------------------------------------------------------------------

  function PatientFrom(args: seq<string>): PatientInformation
    requires |args| >= 5
  {
    PatientInformation("PatientInformation", args[0], args[1], args[2], args[3], args[4])
  }

  function MedicalRecordFrom(args: seq<string>): MedicalRecord
    requires |args| >= 7
  {
    MedicalRecord("MedicalRecord", args[0], args[1], args[2], args[3], args[4], args[5], args[6])
  }

  function DrugFrom(args: seq<string>): DrugInformation
    requires |args| >= 6
  {
    DrugInformation("DrugInformation", args[0], args[1], args[2], args[3], args[4], args[5])
  }

  function PatientIndexKey(p: PatientInformation): Key
  {
    Composite("id~insurance_card",
      [p.id, p.insuranceCard, p.currentMedicationInformation, p.relatedMedicalRecords, p.makeNoteOfAppointmentDate])
  }

  function MedicalIndexKey(m: MedicalRecord): Key
  {
    Composite("id",
      [m.id, m.personalIdentificationInformation, m.medicalHistory, m.familyMedicalHistory,
       m.medicationHistory, m.treatmentHistory, m.medicalDirectives])
  }

  /** As the source builds it: the expiration date appears twice and the
      prescriber not at all. */
  function DrugIndexKey(d: DrugInformation): Key
  {
    Composite("id~patient_name",
      [d.id, d.patientName, d.drugName, d.expirationDate, d.quantity, d.expirationDate])
  }

  function AccessIndexKey(e: AccessEvent): Key
  {
    Composite("userid~patientid", [e.userId, e.patientId, e.location, e.purpose])
  }

  // ---------------------------------------------------------------------
  // Authorisation check and audit write, shared by query and modify
  // ---------------------------------------------------------------------

  datatype Purpose = QueryAccess | ModifyAccess
  {
    function Name(): string
    {
      if QueryAccess? then "query" else "modify"
    }

    /** The collection that logs accesses of this purpose. */
    function Log(): string
    {
      if QueryAccess? then QueryCollection else ModifyCollection
    }
  }

  function Access(userid: string, patientid: string, location: string, purpose: Purpose, now: string): AccessEvent
  {
    AccessEvent("Query", userid, patientid, location, now, purpose.Name())
  }

  /** A guarded handler's first steps: either it stops with a response, or
      it passes on to its data step. */
  datatype Gate = Pass(calls: seq<Call>) | Stop(response: Response, calls: seq<Call>)

  function AuditOutcome(s: Entries, down: Faults, userid: string, patientid: string, location: string,
                        collection: string, purpose: Purpose, now: string): Gate
  {
    var check := Get(collection, Plain(userid));
    match Lookup(s, down, collection, Plain(userid))
    case Fault => Stop(Error("cannot get user identity"), [check])
    case Absent => Stop(Error("user does not exist"), [check])
    case Found(_) =>
      var event := Access(userid, patientid, location, purpose, now);
      var log := Put(purpose.Log(), Plain(userid), Event(event));
      if down.Refuses(purpose.Log(), Plain(userid)) then Stop(Error(StoreFault), [check, log])
      else Pass([check, log, Put(purpose.Log(), AccessIndexKey(event), IndexMarker)])
  }

  /** Looks the user up in the caller-named collection, then logs the access
      under the user id and under its index key. The result of the index
      write is not checked. */
  method AuthorizeAndAudit(stub: Stub, userid: string, patientid: string, location: string,
                           collection: string, purpose: Purpose, now: string) returns (stop: Option<Response>)
    modifies stub
    ensures var g := AuditOutcome(old(stub.entries), stub.down, userid, patientid, location, collection, purpose, now);
      && stop == (if g.Stop? then Some(g.response) else None)
      && stub.trace == old(stub.trace) + g.calls
      && stub.entries == Run(old(stub.entries), stub.down, g.calls)
  {
    ghost var s := stub.entries;
    var identity := stub.GetPrivateData(collection, Plain(userid));
    if identity.Fault? {
      return Some(Error("cannot get user identity"));
    } else if identity.Absent? {
      return Some(Error("user does not exist"));
    }
    var event := Access(userid, patientid, location, purpose, now);
    var failed := stub.PutPrivateData(purpose.Log(), Plain(userid), Event(event));
    RunSteps(s, stub.down, Get(collection, Plain(userid)), Put(purpose.Log(), Plain(userid), Event(event)),
             Put(purpose.Log(), AccessIndexKey(event), IndexMarker));
    if failed {
      return Some(Error(StoreFault));
    }
    var _ := stub.PutPrivateData(purpose.Log(), AccessIndexKey(event), IndexMarker);
    return None;
  }

  // ---------------------------------------------------------------------
  // Create handlers
  // ---------------------------------------------------------------------

  /** Put the entity at its id, then the marker at its index key; a failed
      entity write ends the call with `failure`, a failed marker write is
      ignored. */
  function StoreOutcome(down: Faults, collection: string, id: string, entity: Value, index: Key,
                        failure: string): Outcome
  {
    var put := Put(collection, Plain(id), entity);
    if down.Refuses(collection, Plain(id)) then Outcome(Error(failure), [put])
    else Outcome(Success(None), [put, Put(collection, index, IndexMarker)])
  }

  method Store(stub: Stub, collection: string, id: string, entity: Value, index: Key, failure: string)
    returns (r: Response)
    modifies stub
    ensures Performs(stub, old(stub.entries), old(stub.trace), StoreOutcome(stub.down, collection, id, entity, index, failure), r)
  {
    RunSteps(stub.entries, stub.down, Put(collection, Plain(id), entity), Put(collection, index, IndexMarker),
             Put(collection, index, IndexMarker));
    var failed := stub.PutPrivateData(collection, Plain(id), entity);
    if failed {
      return Error(failure);
    }
    var _ := stub.PutPrivateData(collection, index, IndexMarker);
    return Success(None);
  }

  function CreatePatientInformationOutcome(down: Faults, args: seq<string>): Outcome
  {
    match Validation(args, 5, "there must be 5 argument", Declare)
    case Some(message) => Outcome(Error(message), [])
    case None =>
      var p := PatientFrom(args);
      StoreOutcome(down, PatientCollection, p.id, Patient(p), PatientIndexKey(p), StoreFault)
  }

  method CreatePatientInformation(stub: Stub, args: seq<string>) returns (r: Response)
    modifies stub
    ensures Performs(stub, old(stub.entries), old(stub.trace), CreatePatientInformationOutcome(stub.down, args), r)
  {
    var invalid := CheckArguments(args, 5, "there must be 5 argument", Declare);
    if invalid.Some? {
      return Error(invalid.value);
    }
    var patient := PatientFrom(args);
    r := Store(stub, PatientCollection, patient.id, Patient(patient), PatientIndexKey(patient), StoreFault);
  }

  function CreateMedicalRecordOutcome(down: Faults, args: seq<string>): Outcome
  {
    match Validation(args, 7, "there must be 7 argument", Declare)
    case Some(message) => Outcome(Error(message), [])
    case None =>
      var m := MedicalRecordFrom(args);
      StoreOutcome(down, MedicalCollection, m.id, Medical(m), MedicalIndexKey(m), StoreFault)
  }

  method CreateMedicalRecord(stub: Stub, args: seq<string>) returns (r: Response)
    modifies stub
    ensures Performs(stub, old(stub.entries), old(stub.trace), CreateMedicalRecordOutcome(stub.down, args), r)
  {
    var invalid := CheckArguments(args, 7, "there must be 7 argument", Declare);
    if invalid.Some? {
      return Error(invalid.value);
    }
    var record := MedicalRecordFrom(args);
    r := Store(stub, MedicalCollection, record.id, Medical(record), MedicalIndexKey(record), StoreFault);
  }

  /** The two variants differ only in the count they demand: both build the
      drug from the first six arguments. */
  function CreateDrugInformationOutcome(down: Faults, args: seq<string>, count: nat, arityMessage: string): Outcome
    requires count >= 6
  {
    match Validation(args, count, arityMessage, Declare)
    case Some(message) => Outcome(Error(message), [])
    case None =>
      var d := DrugFrom(args);
      StoreOutcome(down, DrugCollection, d.id, Drug(d), DrugIndexKey(d), StoreFault)
  }

  method CreateDrugInformation(stub: Stub, args: seq<string>, count: nat, arityMessage: string) returns (r: Response)
    requires count >= 6
    modifies stub
    ensures Performs(stub, old(stub.entries), old(stub.trace), CreateDrugInformationOutcome(stub.down, args, count, arityMessage), r)
  {
    var invalid := CheckArguments(args, count, arityMessage, Declare);
    if invalid.Some? {
      return Error(invalid.value);
    }
    var drug := DrugFrom(args);
    r := Store(stub, DrugCollection, drug.id, Drug(drug), DrugIndexKey(drug), StoreFault);
  }

  /** The count check admits exactly three arguments, and the handler then
      reads args[3] through args[9]: the first of those reads panics. */
  function CreateHospitalFeesOutcome(args: seq<string>): Outcome
  {
    if |args| != 3 then Outcome(Error("expecting 3 argument"), [])
    else Outcome(Panic, [])
  }

  method CreateHospitalFees(stub: Stub, args: seq<string>) returns (r: Response)
    ensures r == CreateHospitalFeesOutcome(args).response
    ensures r != Success(None)
  {
    if |args| != 3 {
      return Error("expecting 3 argument");
    }
    // args[3] is out of range here
    return Panic;
  }

  // ---------------------------------------------------------------------
  // Guarded handlers: query and modify
  // ---------------------------------------------------------------------

  function FailedToGetState(id: string): string
  {
    "{\"Error\":\"Failed to get state for " + id + ": " + StoreFault + "\"}"
  }

  function QueryOutcome(s: Entries, down: Faults, args: seq<string>, now: string): Outcome
  {
    if |args| != 4 then Outcome(Error("expecting 4 argument"), [])
    else
      var gate := AuditOutcome(s, down, args[0], args[1], args[2], args[3], QueryAccess, now);
      if gate.Stop? then Outcome(gate.response, gate.calls)
      else
        var calls := gate.calls + [Get(PatientCollection, Plain(args[1]))];
        match Lookup(Run(s, down, gate.calls), down, PatientCollection, Plain(args[1]))
        case Fault => Outcome(Error(FailedToGetState(args[1])), calls)
        case Absent => Outcome(Error("user id does not exist"), calls)
        case Found(v) => Outcome(Success(Some(v)), calls)
  }

  method Query(stub: Stub, args: seq<string>, now: string) returns (r: Response)
    modifies stub
    ensures Performs(stub, old(stub.entries), old(stub.trace), QueryOutcome(old(stub.entries), stub.down, args, now), r)
  {
    if |args| != 4 {
      return Error("expecting 4 argument");
    }
    var userid, patientid, location, collection := args[0], args[1], args[2], args[3];
    ghost var s, t := stub.entries, stub.trace;
    var stop := AuthorizeAndAudit(stub, userid, patientid, location, collection, QueryAccess, now);
    if stop.Some? {
      return stop.value;
    }
    ghost var gate := AuditOutcome(s, stub.down, userid, patientid, location, collection, QueryAccess, now);
    var data := stub.GetPrivateData(PatientCollection, Plain(patientid));
    RunConcat(s, stub.down, gate.calls, [Get(PatientCollection, Plain(patientid))]);
    if data.Fault? {
      return Error(FailedToGetState(patientid));
    } else if data.Absent? {
      return Error("user id does not exist");
    }
    return Success(Some(data.value));
  }

  /** The modify handlers of both variants: the count check, the reads of
      the first `width` arguments, the guard and audit write, then the read
      of the target record in `target`. The source then tests the read's
      error a second time instead of its data, so every call that gets
      this far fails and the record is never rewritten. */
  function ModifyOutcome(s: Entries, down: Faults, args: seq<string>, now: string,
                         count: nat, arityMessage: string, width: nat, target: string): Outcome
    requires width >= 4
  {
    if |args| != count then Outcome(Error(arityMessage), [])
    else if |args| < width then Outcome(Panic, [])
    else
      var gate := AuditOutcome(s, down, args[0], args[1], args[2], args[3], ModifyAccess, now);
      if gate.Stop? then Outcome(gate.response, gate.calls)
      else
        var calls := gate.calls + [Get(target, Plain(args[1]))];
        if Lookup(Run(s, down, gate.calls), down, target, Plain(args[1])).Fault? then
          Outcome(Error(FailedToGetState(args[1])), calls)
        else
          Outcome(Error("patient's data does not exist"), calls)
  }

  method Modify(stub: Stub, args: seq<string>, now: string,
                count: nat, arityMessage: string, width: nat, target: string) returns (r: Response)
    requires width >= 4
    modifies stub
    ensures Performs(stub, old(stub.entries), old(stub.trace),
                     ModifyOutcome(old(stub.entries), stub.down, args, now, count, arityMessage, width, target), r)
  {
    if |args| != count {
      return Error(arityMessage);
    }
    if |args| < width {
      // the read of args[|args|] panics
      return Panic;
    }
    var userid, patientid, location, collection := args[0], args[1], args[2], args[3];
    ghost var s := stub.entries;
    var stop := AuthorizeAndAudit(stub, userid, patientid, location, collection, ModifyAccess, now);
    if stop.Some? {
      return stop.value;
    }
    ghost var gate := AuditOutcome(s, stub.down, userid, patientid, location, collection, ModifyAccess, now);
    var data := stub.GetPrivateData(target, Plain(patientid));
    RunConcat(s, stub.down, gate.calls, [Get(target, Plain(patientid))]);
    if data.Fault? {
      return Error(FailedToGetState(patientid));
    }
    // `else if err == nil` in the source: always taken here
    return Error("patient's data does not exist");
  }

  // ---------------------------------------------------------------------
  // History readers
  // ---------------------------------------------------------------------

  function HistoryOutcome(s: Entries, down: Faults, args: seq<string>, log: string,
                          faultMessage: string, absentMessage: string): Outcome
  {
    match Validation(args, 1, "expecting 1 argument", Delare)
    case Some(message) => Outcome(Error(message), [])
    case None =>
      var calls := [Get(log, Plain(args[0]))];
      match Lookup(s, down, log, Plain(args[0]))
      case Fault => Outcome(Error(faultMessage), calls)
      case Absent => Outcome(Error(absentMessage), calls)
      case Found(v) => Outcome(Success(Some(v)), calls)
  }

  method History(stub: Stub, args: seq<string>, log: string, faultMessage: string, absentMessage: string)
    returns (r: Response)
    modifies stub
    ensures Performs(stub, old(stub.entries), old(stub.trace),
                     HistoryOutcome(old(stub.entries), stub.down, args, log, faultMessage, absentMessage), r)
  {
    var invalid := CheckArguments(args, 1, "expecting 1 argument", Delare);
    if invalid.Some? {
      return Error(invalid.value);
    }
    var userid := args[0];
    var data := stub.GetPrivateData(log, Plain(userid));
    if data.Fault? {
      return Error(faultMessage);
    } else if data.Absent? {
      return Error(absentMessage);
    }
    return Success(Some(data.value));
  }

  function HistoryQueryOutcome(s: Entries, down: Faults, args: seq<string>): Outcome
  {
    HistoryOutcome(s, down, args, QueryCollection, "cannot get data of query", "query data history does not exist")
  }

  method HistoryQuery(stub: Stub, args: seq<string>) returns (r: Response)
    modifies stub
    ensures Performs(stub, old(stub.entries), old(stub.trace), HistoryQueryOutcome(old(stub.entries), stub.down, args), r)
  {
    r := History(stub, args, QueryCollection, "cannot get data of query", "query data history does not exist");
  }

  function HistoryModifyOutcome(s: Entries, down: Faults, args: seq<string>): Outcome
  {
    HistoryOutcome(s, down, args, ModifyCollection, "cannot get modify data", "err2")
  }

  method HistoryModify(stub: Stub, args: seq<string>) returns (r: Response)
    modifies stub
    ensures Performs(stub, old(stub.entries), old(stub.trace), HistoryModifyOutcome(old(stub.entries), stub.down, args), r)
  {
    r := History(stub, args, ModifyCollection, "cannot get modify data", "err2");
  }
}
