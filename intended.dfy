// The handlers whose code cannot do what it was evidently written to do,
// as they were meant to work, with the properties the written versions
// lack: a modify that rewrites the record it read, a drug index key that
// tells drugs apart, and a hospital-fees create that stores its record.

module Intended {
  import opened Ledger
  import opened Arguments
  import Handlers
  import Properties
  import HistoryAccess

  // ---------------------------------------------------------------------
  // Modify: rewrite the record that was read
  // ---------------------------------------------------------------------

  /** The fields a modify handler replaces: everything but the object type
      and the id. Values that are not records give none. */
  function Editable(v: Value): seq<string>
  {
    match v
    case Patient(p) => [p.insuranceCard, p.currentMedicationInformation, p.relatedMedicalRecords, p.makeNoteOfAppointmentDate]
    case Medical(m) => [m.personalIdentificationInformation, m.medicalHistory, m.familyMedicalHistory,
                        m.medicationHistory, m.treatmentHistory, m.medicalDirectives]
    case Drug(d) => [d.patientName, d.drugName, d.expirationDate, d.quantity, d.prescribedBy]
    case _ => []
  }

  /** The object type and id a record keeps across a modify. */
  function Identity(v: Value): (string, string)
  {
    match v
    case Patient(p) => (p.objectType, p.id)
    case Medical(m) => (m.objectType, m.id)
    case Drug(d) => (d.objectType, d.id)
    case _ => ("", "")
  }

  /** The record a modify handler works on. */
  datatype Target = PatientData | MedicalData | DrugData
  {
    function Collection(): string
    {
      match this
      case PatientData => PatientCollection
      case MedicalData => MedicalCollection
      case DrugData => DrugCollection
    }

    /** Four guard arguments, then one per editable field. */
    function Width(): nat
    {
      match this
      case PatientData => 8
      case MedicalData => 10
      case DrugData => 9
    }

    function ArityMessage(): string
    {
      match this
      case PatientData => "expecting 8 argument"
      case MedicalData => "expecting 10 argument"
      case DrugData => "expecting 9 argument"
    }

    /** The handler's answer when the store refuses the rewritten record. */
    function StoreFailure(): string
    {
      match this
      case PatientData => "cannot patient's data"
      case MedicalData => "cannot save new medical record's data"
      case DrugData => "cannot store new drug's data"
    }

    predicate Holds(v: Value)
    {
      match this
      case PatientData => v.Patient?
      case MedicalData => v.Medical?
      case DrugData => v.Drug?
    }

    /** The stored record decoded, its editable fields overwritten with
        args[4..]; a value of another kind decodes as an empty record. */
    function Update(v: Value, args: seq<string>): (r: Value)
      requires |args| == Width()
      ensures Holds(r) && Editable(r) == args[4..]
      ensures Holds(v) ==> Identity(r) == Identity(v)
      ensures !Holds(v) ==> Identity(r) == ("", "")
    {
      match this
      case PatientData =>
        var p := if v.Patient? then v.patient else PatientInformation("", "", "", "", "", "");
        Patient(p.(insuranceCard := args[4], currentMedicationInformation := args[5],
                   relatedMedicalRecords := args[6], makeNoteOfAppointmentDate := args[7]))
      case MedicalData =>
        var m := if v.Medical? then v.record else MedicalRecord("", "", "", "", "", "", "", "");
        Medical(m.(personalIdentificationInformation := args[4], medicalHistory := args[5],
                   familyMedicalHistory := args[6], medicationHistory := args[7],
                   treatmentHistory := args[8], medicalDirectives := args[9]))
      case DrugData =>
        var d := if v.Drug? then v.drug else DrugInformation("", "", "", "", "", "", "");
        Drug(d.(patientName := args[4], drugName := args[5], expirationDate := args[6],
                quantity := args[7], prescribedBy := args[8]))
    }
  }

  /** The step after the guard: read the record and, if it is there,
      rewrite it at its key; a refused rewrite fails with the handler's own
      message. */
  function RewriteOutcome(s: Entries, down: Faults, args: seq<string>, t: Target): Outcome
    requires |args| == t.Width()
  {
    var read := Get(t.Collection(), Plain(args[1]));
    match Lookup(s, down, t.Collection(), Plain(args[1]))
    case Fault => Outcome(Error(Handlers.FailedToGetState(args[1])), [read])
    case Absent => Outcome(Error("patient's data does not exist"), [read])
    case Found(v) =>
      var put := Put(t.Collection(), Plain(args[1]), t.Update(v, args));
      if down.Refuses(t.Collection(), Plain(args[1])) then Outcome(Error(t.StoreFailure()), [read, put])
      else Outcome(Success(None), [read, put])
  }

  method Rewrite(stub: Stub, args: seq<string>, t: Target) returns (r: Response)
    requires |args| == t.Width()
    modifies stub
    ensures Performs(stub, old(stub.entries), old(stub.trace), RewriteOutcome(old(stub.entries), stub.down, args, t), r)
  {
    var patientid := args[1];
    var read := Get(t.Collection(), Plain(patientid));
    var data := stub.GetPrivateData(t.Collection(), Plain(patientid));
    if data.Fault? {
      RunSteps(stub.entries, stub.down, read, read, read);
      return Error(Handlers.FailedToGetState(patientid));
    } else if data.Absent? {
      RunSteps(stub.entries, stub.down, read, read, read);
      return Error("patient's data does not exist");
    }
    var updated := t.Update(data.value, args);
    var put := Put(t.Collection(), Plain(patientid), updated);
    RunSteps(stub.entries, stub.down, read, put, put);
    var failed := stub.PutPrivateData(t.Collection(), Plain(patientid), updated);
    if failed {
      return Error(t.StoreFailure());
    }
    return Success(None);
  }

  /** A modify past its count check: the guard and audit of the written
      handlers, then the rewrite step. */
  function GuardedOutcome(s: Entries, down: Faults, args: seq<string>, now: string, t: Target): Outcome
    requires |args| == t.Width()
  {
    var gate := Handlers.AuditOutcome(s, down, args[0], args[1], args[2], args[3], Handlers.ModifyAccess, now);
    if gate.Stop? then Outcome(gate.response, gate.calls)
    else
      var step := RewriteOutcome(Run(s, down, gate.calls), down, args, t);
      Outcome(step.response, gate.calls + step.calls)
  }

  method Guarded(stub: Stub, args: seq<string>, now: string, t: Target) returns (r: Response)
    requires |args| == t.Width()
    modifies stub
    ensures Performs(stub, old(stub.entries), old(stub.trace), GuardedOutcome(old(stub.entries), stub.down, args, now, t), r)
  {
    var userid, patientid, location, collection := args[0], args[1], args[2], args[3];
    ghost var s := stub.entries;
    var stop := Handlers.AuthorizeAndAudit(stub, userid, patientid, location, collection, Handlers.ModifyAccess, now);
    if stop.Some? {
      return stop.value;
    }
    ghost var gate := Handlers.AuditOutcome(s, stub.down, userid, patientid, location, collection, Handlers.ModifyAccess, now);
    r := Rewrite(stub, args, t);
    RunConcat(s, stub.down, gate.calls, RewriteOutcome(Run(s, stub.down, gate.calls), stub.down, args, t).calls);
    AppendAssociates(old(stub.trace), gate.calls, RewriteOutcome(Run(s, stub.down, gate.calls), stub.down, args, t).calls);
  }

  /** The count matches the arguments read; the rest is `GuardedOutcome`. */
  function ModifyOutcome(s: Entries, down: Faults, args: seq<string>, now: string, t: Target): Outcome
  {
    if |args| != t.Width() then Outcome(Error(t.ArityMessage()), [])
    else GuardedOutcome(s, down, args, now, t)
  }

  method Modify(stub: Stub, args: seq<string>, now: string, t: Target) returns (r: Response)
    modifies stub
    ensures Performs(stub, old(stub.entries), old(stub.trace), ModifyOutcome(old(stub.entries), stub.down, args, now, t), r)
  {
    if |args| != t.Width() {
      return Error(t.ArityMessage());
    }
    r := Guarded(stub, args, now, t);
  }

  /** Past the guard, a modify makes the audit's calls and then the rewrite
      step's, and answers as the step does. */
  lemma ModifyAfterGate(s: Entries, down: Faults, args: seq<string>, now: string, t: Target)
    requires |args| == t.Width()
    requires Handlers.AuditOutcome(s, down, args[0], args[1], args[2], args[3], Handlers.ModifyAccess, now).Pass?
    ensures var g := Handlers.AuditOutcome(s, down, args[0], args[1], args[2], args[3], Handlers.ModifyAccess, now);
      var step := RewriteOutcome(Run(s, down, g.calls), down, args, t);
      var o := ModifyOutcome(s, down, args, now, t);
      && o == Outcome(step.response, g.calls + step.calls)
      && Run(s, down, o.calls) == Run(Run(s, down, g.calls), down, step.calls)
  {
    var g := Handlers.AuditOutcome(s, down, args[0], args[1], args[2], args[3], Handlers.ModifyAccess, now);
    RunConcat(s, down, g.calls, RewriteOutcome(Run(s, down, g.calls), down, args, t).calls);
  }

  /** With the record there and the rewrite taken, the step succeeds and
      changes exactly the record's key. */
  lemma RewriteEffect(s: Entries, down: Faults, args: seq<string>, t: Target)
    requires |args| == t.Width() && (t.Collection(), Plain(args[1])) in s
    requires !down.Refuses(t.Collection(), Plain(args[1]))
    ensures var o := RewriteOutcome(s, down, args, t);
      && o.response == Success(None)
      && Run(s, down, o.calls)
         == s[(t.Collection(), Plain(args[1])) := t.Update(s[(t.Collection(), Plain(args[1]))], args)]
  {
    var read := Get(t.Collection(), Plain(args[1]));
    var put := Put(t.Collection(), Plain(args[1]), t.Update(s[(t.Collection(), Plain(args[1]))], args));
    RunSteps(s, down, read, put, put);
  }

  /** A registered user's modify of an existing record succeeds when the
      store takes the rewrite: the record now holds the new fields under its
      old id and object type, the access is logged, every other key of the
      collection reads as before, and so does every key of any collection
      but the target and modifyCollection. */
  lemma ModifyRewrites(s: Entries, down: Faults, args: seq<string>, now: string, t: Target, other: string, key: Key)
    requires |args| == t.Width() && Lookup(s, down, args[3], Plain(args[0])).Found?
    requires !down.Refuses(ModifyCollection, Plain(args[0])) && !down.Refuses(t.Collection(), Plain(args[1]))
    requires (t.Collection(), Plain(args[1])) in s
    ensures var o := ModifyOutcome(s, down, args, now, t);
      var after := Run(s, down, o.calls);
      var old_ := s[(t.Collection(), Plain(args[1]))];
      && o.response == Success(None)
      && (t.Collection(), Plain(args[1])) in after
      && t.Holds(after[(t.Collection(), Plain(args[1]))])
      && Editable(after[(t.Collection(), Plain(args[1]))]) == args[4..]
      && (t.Holds(old_) ==> Identity(after[(t.Collection(), Plain(args[1]))]) == Identity(old_))
      && (key != Plain(args[1]) ==> Lookup(after, down, t.Collection(), key) == Lookup(s, down, t.Collection(), key))
      && (other != t.Collection() && other != ModifyCollection ==> Lookup(after, down, other, key) == Lookup(s, down, other, key))
      && (ModifyCollection, Plain(args[0])) in after
      && after[(ModifyCollection, Plain(args[0]))] == Event(AccessEvent("Query", args[0], args[1], args[2], now, "modify"))
  {
    var c, id, audit := t.Collection(), Plain(args[1]), Handlers.ModifyAccess;
    var g := Handlers.AuditOutcome(s, down, args[0], args[1], args[2], args[3], audit, now);
    Properties.AuditOutcomeEffect(s, down, args[0], args[1], args[2], args[3], audit, now);
    Properties.AuditKeepsOtherCollections(s, down, args[0], args[1], args[2], args[3], audit, now, c, id);
    Properties.AuditKeepsOtherCollections(s, down, args[0], args[1], args[2], args[3], audit, now, c, key);
    if other != ModifyCollection {
      Properties.AuditKeepsOtherCollections(s, down, args[0], args[1], args[2], args[3], audit, now, other, key);
    }
    var mid := Run(s, down, g.calls);
    RewriteEffect(mid, down, args, t);
    ModifyAfterGate(s, down, args, now, t);
    assert Run(s, down, ModifyOutcome(s, down, args, now, t).calls) == mid[(c, id) := t.Update(s[(c, id)], args)];
  }

  /** A record that is not there is reported missing, and nothing but the
      audit entries is written. */
  lemma ModifyReportsMissing(s: Entries, down: Faults, args: seq<string>, now: string, t: Target)
    requires |args| == t.Width() && Lookup(s, down, args[3], Plain(args[0])).Found?
    requires !down.Refuses(ModifyCollection, Plain(args[0])) && t.Collection() !in down.collections
    requires (t.Collection(), Plain(args[1])) !in s
    ensures var o := ModifyOutcome(s, down, args, now, t);
      && o.response == Error("patient's data does not exist")
      && (forall i :: 0 <= i < |o.calls| ==> !Writes(o.calls[i], t.Collection()))
  {
    Properties.AuditOutcomeEffect(s, down, args[0], args[1], args[2], args[3], Handlers.ModifyAccess, now);
  }

  /** A rewrite the store refuses fails with the handler's own message, and
      the record reads as before. */
  lemma ModifyReportsRefusedWrite(s: Entries, down: Faults, args: seq<string>, now: string, t: Target)
    requires |args| == t.Width() && Lookup(s, down, args[3], Plain(args[0])).Found?
    requires !down.Refuses(ModifyCollection, Plain(args[0]))
    requires Lookup(s, down, t.Collection(), Plain(args[1])).Found? && down.Refuses(t.Collection(), Plain(args[1]))
    ensures var o := ModifyOutcome(s, down, args, now, t);
      && o.response == Error(t.StoreFailure())
      && Lookup(Run(s, down, o.calls), down, t.Collection(), Plain(args[1])) == Lookup(s, down, t.Collection(), Plain(args[1]))
  {
    var g := Handlers.AuditOutcome(s, down, args[0], args[1], args[2], args[3], Handlers.ModifyAccess, now);
    Properties.AuditOutcomeEffect(s, down, args[0], args[1], args[2], args[3], Handlers.ModifyAccess, now);
    var mid := Run(s, down, g.calls);
    assert mid[(t.Collection(), Plain(args[1]))] == s[(t.Collection(), Plain(args[1]))];
    var read := Get(t.Collection(), Plain(args[1]));
    var put := Put(t.Collection(), Plain(args[1]), t.Update(s[(t.Collection(), Plain(args[1]))], args));
    RunSteps(mid, down, read, put, put);
    ModifyAfterGate(s, down, args, now, t);
  }

  /** modifyDrugData reading DrugCollection: a drug created by
      createDrugInformation is found by its id and rewritten. */
  lemma CreatedDrugIsModified(s: Entries, down: Faults, create: seq<string>, change: seq<string>, now: string)
    requires |create| == 6 && forall j :: 0 <= j < 6 ==> create[j] != ""
    requires |change| == 9 && change[1] == create[0]
    requires !down.Refuses(DrugCollection, Plain(create[0])) && !down.Refuses(ModifyCollection, Plain(change[0]))
    requires var stored := Run(s, down, HistoryAccess.CreateDrugInformationOutcome(down, create).calls);
      Lookup(stored, down, change[3], Plain(change[0])).Found?
    ensures var stored := Run(s, down, HistoryAccess.CreateDrugInformationOutcome(down, create).calls);
      var o := ModifyOutcome(stored, down, change, now, DrugData);
      var after := Run(stored, down, o.calls);
      && o.response == Success(None)
      && (DrugCollection, Plain(create[0])) in after
      && after[(DrugCollection, Plain(create[0]))]
         == Drug(DrugInformation("DrugInformation", create[0], change[4], change[5], change[6], change[7], change[8]))
  {
    HistoryAccess.CreateDrugInformationStores(s, down, create);
    var stored := Run(s, down, HistoryAccess.CreateDrugInformationOutcome(down, create).calls);
    assert (DrugCollection, Plain(create[0])) in stored;
    ModifyRewrites(stored, down, change, now, DrugData, DrugCollection, Plain(create[0]));
  }

  // ---------------------------------------------------------------------
  // Drug index key: every field once
  // ---------------------------------------------------------------------

  /** The drug key as written maps two drugs that differ only in their
      prescriber to the same index key. */
  lemma AsWrittenDrugIndexKeyCollides(d: DrugInformation, prescriber: string)
    requires prescriber != d.prescribedBy
    ensures d != d.(prescribedBy := prescriber)
    ensures Handlers.DrugIndexKey(d) == Handlers.DrugIndexKey(d.(prescribedBy := prescriber))
  {
  }

  function DrugIndexKey(d: DrugInformation): Key
  {
    Composite("id~patient_name", [d.id, d.patientName, d.drugName, d.expirationDate, d.quantity, d.prescribedBy])
  }

  /** The intended key determines every field of the drug it indexes. */
  lemma DrugIndexKeyInjective(a: DrugInformation, b: DrugInformation)
    requires a.objectType == b.objectType
    ensures DrugIndexKey(a) == DrugIndexKey(b) <==> a == b
  {
    var x, y := DrugIndexKey(a).attributes, DrugIndexKey(b).attributes;
    assert x == y ==> x[5] == y[5];
  }

  /** A drug built from six arguments determines them. */
  lemma DrugFromInjective(a: seq<string>, b: seq<string>)
    requires |a| == 6 && |b| == 6
    ensures Handlers.DrugFrom(a) == Handlers.DrugFrom(b) <==> a == b
  {
    assert Handlers.DrugFrom(a) == Handlers.DrugFrom(b) ==> forall j :: 0 <= j < 6 ==> a[j] == b[j];
  }

  function CreateDrugInformationOutcome(down: Faults, args: seq<string>): Outcome
  {
    match Validation(args, 6, "expecting 6 argument", Declare)
    case Some(message) => Outcome(Error(message), [])
    case None =>
      var d := Handlers.DrugFrom(args);
      Handlers.StoreOutcome(down, DrugCollection, d.id, Drug(d), DrugIndexKey(d), StoreFault)
  }

  method CreateDrugInformation(stub: Stub, args: seq<string>) returns (r: Response)
    modifies stub
    ensures Performs(stub, old(stub.entries), old(stub.trace), CreateDrugInformationOutcome(stub.down, args), r)
  {
    var invalid := CheckArguments(args, 6, "expecting 6 argument", Declare);
    if invalid.Some? {
      return Error(invalid.value);
    }
    var drug := Handlers.DrugFrom(args);
    r := Handlers.Store(stub, DrugCollection, drug.id, Drug(drug), DrugIndexKey(drug), StoreFault);
  }

  /** Two valid creates of different drugs put their index markers at
      different keys. */
  lemma DistinctDrugsDistinctMarkers(down: Faults, a: seq<string>, b: seq<string>)
    requires |a| == 6 && (forall j :: 0 <= j < 6 ==> a[j] != "")
    requires |b| == 6 && (forall j :: 0 <= j < 6 ==> b[j] != "")
    requires !down.Refuses(DrugCollection, Plain(a[0])) && !down.Refuses(DrugCollection, Plain(b[0])) && a != b
    ensures |CreateDrugInformationOutcome(down, a).calls| == 2 && |CreateDrugInformationOutcome(down, b).calls| == 2
    ensures CreateDrugInformationOutcome(down, a).calls[1].key != CreateDrugInformationOutcome(down, b).calls[1].key
  {
    DrugIndexKeyInjective(Handlers.DrugFrom(a), Handlers.DrugFrom(b));
    DrugFromInjective(a, b);
  }

  // ---------------------------------------------------------------------
  // Hospital fees: ten arguments, stored
  // ---------------------------------------------------------------------

  function FeesFrom(args: seq<string>): HospitalFees
    requires |args| >= 10
  {
    HospitalFees("HospitalFees", args[0], args[1], args[2], args[3], args[4], args[5], args[6], args[7], args[8], args[9])
  }

  function FeesIndexKey(f: HospitalFees): Key
  {
    Composite("id~patient_name",
      [f.id, f.patientName, f.account, f.dateOfService, f.patientService, f.primaryInsuranceBilled,
       f.secondaryInsuranceBilled, f.pharmacy, f.room, f.amountDue])
  }

  function CreateHospitalFeesOutcome(down: Faults, args: seq<string>): Outcome
  {
    if |args| != 10 then Outcome(Error("expecting 10 argument"), [])
    else
      var f := FeesFrom(args);
      Handlers.StoreOutcome(down, FeesCollection, f.id, Fees(f), FeesIndexKey(f), "cannot put private data of pharmacy")
  }

  method CreateHospitalFees(stub: Stub, args: seq<string>) returns (r: Response)
    modifies stub
    ensures Performs(stub, old(stub.entries), old(stub.trace), CreateHospitalFeesOutcome(stub.down, args), r)
  {
    if |args| != 10 {
      return Error("expecting 10 argument");
    }
    var fees := FeesFrom(args);
    r := Handlers.Store(stub, FeesCollection, fees.id, Fees(fees), FeesIndexKey(fees), "cannot put private data of pharmacy");
  }

  /** Ten arguments store the fees record at args[0], in argument order,
      with its marker; a refused store, which an empty id always is,
      reports the handler's own message and writes nothing. */
  lemma CreateHospitalFeesStores(s: Entries, down: Faults, args: seq<string>)
    requires |args| == 10
    ensures var o := CreateHospitalFeesOutcome(down, args);
      var after := Run(s, down, o.calls);
      && (!down.Refuses(FeesCollection, Plain(args[0])) ==>
            && o.response == Success(None)
            && Lookup(after, down, FeesCollection, Plain(args[0])).Found?
            && var v := Lookup(after, down, FeesCollection, Plain(args[0])).value;
               v.Fees? && v.fees.objectType == "HospitalFees"
               && [v.fees.id, v.fees.patientName, v.fees.account, v.fees.dateOfService, v.fees.patientService,
                   v.fees.primaryInsuranceBilled, v.fees.secondaryInsuranceBilled, v.fees.pharmacy, v.fees.room,
                   v.fees.amountDue] == args)
      && (down.Refuses(FeesCollection, Plain(args[0])) ==> o.response == Error("cannot put private data of pharmacy") && after == s)
      && (args[0] == "" ==> o.response == Error("cannot put private data of pharmacy"))
  {
    var f := FeesFrom(args);
    Properties.StoreOutcomeEffect(s, down, FeesCollection, f.id, Fees(f), FeesIndexKey(f), "cannot put private data of pharmacy");
  }
}
