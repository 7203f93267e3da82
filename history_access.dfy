// The deployment variant in history_access/: separate modify entry points
// for drug, medical and patient data, and a six-argument drug create.

module HistoryAccess {
  import opened Ledger
  import opened Arguments
  import Handlers
  import Properties

  /** The collection modifyDrugData reads: not the one createDrugInformation
      writes, which is DrugCollection. */
  const MisnamedDrugCollection := "drugInformationCollection"

  function CreateDrugInformationOutcome(down: Faults, args: seq<string>): Outcome
  {
    Handlers.CreateDrugInformationOutcome(down, args, 6, "expecting 6 argument")
  }

  method CreateDrugInformation(stub: Stub, args: seq<string>) returns (r: Response)
    modifies stub
    ensures Performs(stub, old(stub.entries), old(stub.trace), CreateDrugInformationOutcome(stub.down, args), r)
  {
    r := Handlers.CreateDrugInformation(stub, args, 6, "expecting 6 argument");
  }

  /** Nine arguments: user, patient, location, the user's collection and
      five new drug fields, which are never used. */
  function ModifyDrugDataOutcome(s: Entries, down: Faults, args: seq<string>, now: string): Outcome
  {
    Handlers.ModifyOutcome(s, down, args, now, 9, "expecting 9 argument", 9, MisnamedDrugCollection)
  }

  method ModifyDrugData(stub: Stub, args: seq<string>, now: string) returns (r: Response)
    modifies stub
    ensures Performs(stub, old(stub.entries), old(stub.trace), ModifyDrugDataOutcome(old(stub.entries), stub.down, args, now), r)
  {
    r := Handlers.Modify(stub, args, now, 9, "expecting 9 argument", 9, MisnamedDrugCollection);
  }

  /** The count check admits eight arguments, but ten are read. */
  function ModifyMedicalDataOutcome(s: Entries, down: Faults, args: seq<string>, now: string): Outcome
  {
    Handlers.ModifyOutcome(s, down, args, now, 8, "expecting 4 argument", 10, MedicalCollection)
  }

  method ModifyMedicalData(stub: Stub, args: seq<string>, now: string) returns (r: Response)
    modifies stub
    ensures Performs(stub, old(stub.entries), old(stub.trace), ModifyMedicalDataOutcome(old(stub.entries), stub.down, args, now), r)
  {
    r := Handlers.Modify(stub, args, now, 8, "expecting 4 argument", 10, MedicalCollection);
  }

  function ModifyPatientInformationOutcome(s: Entries, down: Faults, args: seq<string>, now: string): Outcome
  {
    Handlers.ModifyOutcome(s, down, args, now, 8, "expecting 8 argument", 8, PatientCollection)
  }

  method ModifyPatientInformation(stub: Stub, args: seq<string>, now: string) returns (r: Response)
    modifies stub
    ensures Performs(stub, old(stub.entries), old(stub.trace), ModifyPatientInformationOutcome(old(stub.entries), stub.down, args, now), r)
  {
    r := Handlers.Modify(stub, args, now, 8, "expecting 8 argument", 8, PatientCollection);
  }

  function InvokeOutcome(s: Entries, down: Faults, name: string, args: seq<string>, now: string): Outcome
  {
    match name
    case "createDrugInformation" => CreateDrugInformationOutcome(down, args)
    case "createHospitalFees" => Handlers.CreateHospitalFeesOutcome(args)
    case "createMedicalRecord" => Handlers.CreateMedicalRecordOutcome(down, args)
    case "createPatientInformation" => Handlers.CreatePatientInformationOutcome(down, args)
    case "historyModify" => Handlers.HistoryModifyOutcome(s, down, args)
    case "historyQuery" => Handlers.HistoryQueryOutcome(s, down, args)
    case "modifyDrugData" => ModifyDrugDataOutcome(s, down, args, now)
    case "modifyMedicalData" => ModifyMedicalDataOutcome(s, down, args, now)
    case "modifyPatientInformation" => ModifyPatientInformationOutcome(s, down, args, now)
    case "query" => Handlers.QueryOutcome(s, down, args, now)
    case _ => Outcome(Error("Received unknown function invocation"), [])
  }

  /** The chaincode's entry point: the function name picks the handler. */
  method Invoke(stub: Stub, name: string, args: seq<string>, now: string) returns (r: Response)
    modifies stub
    ensures Performs(stub, old(stub.entries), old(stub.trace), InvokeOutcome(old(stub.entries), stub.down, name, args, now), r)
  {
    match name
    case "createDrugInformation" => r := CreateDrugInformation(stub, args);
    case "createHospitalFees" => r := Handlers.CreateHospitalFees(stub, args);
    case "createMedicalRecord" => r := Handlers.CreateMedicalRecord(stub, args);
    case "createPatientInformation" => r := Handlers.CreatePatientInformation(stub, args);
    case "historyModify" => r := Handlers.HistoryModify(stub, args);
    case "historyQuery" => r := Handlers.HistoryQuery(stub, args);
    case "modifyDrugData" => r := ModifyDrugData(stub, args, now);
    case "modifyMedicalData" => r := ModifyMedicalData(stub, args, now);
    case "modifyPatientInformation" => r := ModifyPatientInformation(stub, args, now);
    case "query" => r := Handlers.Query(stub, args, now);
    case _ => r := Error("Received unknown function invocation");
  }

  // ---------------------------------------------------------------------
  // Properties of this variant
  // ---------------------------------------------------------------------

  predicate Handled(name: string)
  {
    name in {"createDrugInformation", "createHospitalFees", "createMedicalRecord", "createPatientInformation",
                  "historyModify", "historyQuery", "modifyDrugData", "modifyMedicalData",
                  "modifyPatientInformation", "query"}
  }

  /** A name outside the table is refused without touching the store. */
  lemma InvokeRejectsUnknown(s: Entries, down: Faults, name: string, args: seq<string>, now: string)
    requires !Handled(name)
    ensures InvokeOutcome(s, down, name, args, now) == Outcome(Error("Received unknown function invocation"), [])
  {
  }

  /** Six arguments, the first empty one reported by position, and nothing
      written on refusal. */
  lemma CreateDrugInformationValidates(down: Faults, args: seq<string>, i: nat)
    ensures |args| != 6 ==>
      CreateDrugInformationOutcome(down, args) == Outcome(Error("expecting 6 argument"), [])
    ensures |args| == 6 && i < 6 && args[i] == "" && (forall j :: 0 <= j < i ==> args[j] != "") ==>
      CreateDrugInformationOutcome(down, args) == Outcome(Error(EmptyArgument(i, Declare)), [])
  {
    if |args| == 6 && i < 6 && args[i] == "" && (forall j :: 0 <= j < i ==> args[j] != "") {
      ValidationReportsFirstEmpty(args, 6, "expecting 6 argument", Declare, i);
    }
  }

  /** A valid call puts the drug at args[0] in DrugCollection, then, if the
      store takes it, the marker at a key that lists the expiration date
      twice and leaves out the prescriber. */
  lemma CreateDrugInformationStores(s: Entries, down: Faults, args: seq<string>)
    requires |args| == 6 && forall j :: 0 <= j < 6 ==> args[j] != ""
    requires !down.Refuses(DrugCollection, Plain(args[0]))
    ensures var o := CreateDrugInformationOutcome(down, args);
      var d := DrugInformation("DrugInformation", args[0], args[1], args[2], args[3], args[4], args[5]);
      var index := Composite("id~patient_name", [args[0], args[1], args[2], args[3], args[4], args[3]]);
      var stored := s[(DrugCollection, Plain(args[0])) := Drug(d)];
      && o.response == Success(None)
      && o.calls == [Put(DrugCollection, Plain(args[0]), Drug(d)), Put(DrugCollection, index, IndexMarker)]
      && Run(s, down, o.calls)
         == (if down.Refuses(DrugCollection, index) then stored else stored[(DrugCollection, index) := IndexMarker])
  {
    var d := Handlers.DrugFrom(args);
    Properties.StoreOutcomeEffect(s, down, DrugCollection, d.id, Drug(d), Handlers.DrugIndexKey(d), StoreFault);
  }

  /** No handler of this variant ever writes the collection modifyDrugData
      reads, so that read never finds a drug this chaincode created. */
  lemma NothingWritesMisnamedDrugCollection(s: Entries, down: Faults, name: string, args: seq<string>, now: string)
    ensures var o := InvokeOutcome(s, down, name, args, now);
      forall i :: 0 <= i < |o.calls| ==> !Writes(o.calls[i], MisnamedDrugCollection)
  {
    var m := MisnamedDrugCollection;
    match name
    case "query" => Properties.QueryWritesOnlyItsLog(s, down, args, now, m);
    case "modifyDrugData" => Properties.ModifyWritesOnlyItsLog(s, down, args, now, 9, "expecting 9 argument", 9, m, m);
    case "modifyMedicalData" => Properties.ModifyWritesOnlyItsLog(s, down, args, now, 8, "expecting 4 argument", 10, MedicalCollection, m);
    case "modifyPatientInformation" => Properties.ModifyWritesOnlyItsLog(s, down, args, now, 8, "expecting 8 argument", 8, PatientCollection, m);
    case "createDrugInformation" =>
      if Validation(args, 6, "expecting 6 argument", Declare).None? {
        var d := Handlers.DrugFrom(args);
        Properties.StoreWritesOnlyItsCollection(down, DrugCollection, d.id, Drug(d), Handlers.DrugIndexKey(d), StoreFault, m);
      }
    case "createMedicalRecord" =>
      if Validation(args, 7, "there must be 7 argument", Declare).None? {
        var r := Handlers.MedicalRecordFrom(args);
        Properties.StoreWritesOnlyItsCollection(down, MedicalCollection, r.id, Medical(r), Handlers.MedicalIndexKey(r), StoreFault, m);
      }
    case "createPatientInformation" =>
      if Validation(args, 5, "there must be 5 argument", Declare).None? {
        var p := Handlers.PatientFrom(args);
        Properties.StoreWritesOnlyItsCollection(down, PatientCollection, p.id, Patient(p), Handlers.PatientIndexKey(p), StoreFault, m);
      }
    case _ =>
  }

  /** modifyDrugData never writes a drug record: it fails on every input,
      and every key of both drug collections reads as before. */
  lemma ModifyDrugDataNeverRewrites(s: Entries, down: Faults, args: seq<string>, now: string, key: Key)
    ensures var o := ModifyDrugDataOutcome(s, down, args, now);
      && !o.response.Success?
      && Lookup(Run(s, down, o.calls), down, DrugCollection, key) == Lookup(s, down, DrugCollection, key)
      && Lookup(Run(s, down, o.calls), down, MisnamedDrugCollection, key) == Lookup(s, down, MisnamedDrugCollection, key)
  {
    Properties.ModifyNeverRewrites(s, down, args, now, 9, "expecting 9 argument", 9, MisnamedDrugCollection, key);
    Properties.ModifyWritesOnlyItsLog(s, down, args, now, 9, "expecting 9 argument", 9, MisnamedDrugCollection, DrugCollection);
    RunKeepsUnwritten(s, down, ModifyDrugDataOutcome(s, down, args, now).calls, DrugCollection, key);
  }

  /** modifyMedicalData never reaches the store: eight arguments pass the
      count check and then the read of args[8] panics. */
  lemma ModifyMedicalDataNeverRuns(s: Entries, down: Faults, args: seq<string>, now: string)
    ensures ModifyMedicalDataOutcome(s, down, args, now).calls == []
    ensures ModifyMedicalDataOutcome(s, down, args, now).response
      == if |args| != 8 then Error("expecting 4 argument") else Panic
  {
  }

  /** modifyPatientInformation with a registered user logs the "modify"
      event and marker, then fails with "patient's data does not exist";
      the patient records read as before. */
  lemma ModifyPatientInformationLogsThenFails(s: Entries, down: Faults, args: seq<string>, now: string, key: Key)
    requires |args| == 8 && Lookup(s, down, args[3], Plain(args[0])).Found?
    requires !down.Refuses(ModifyCollection, Plain(args[0])) && PatientCollection !in down.collections
    ensures var o := ModifyPatientInformationOutcome(s, down, args, now);
      && o.response == Error("patient's data does not exist")
      && Lookup(Run(s, down, o.calls), down, PatientCollection, key) == Lookup(s, down, PatientCollection, key)
      && (ModifyCollection, Plain(args[0])) in Run(s, down, o.calls)
      && Run(s, down, o.calls)[(ModifyCollection, Plain(args[0]))]
         == Event(AccessEvent("Query", args[0], args[1], args[2], now, "modify"))
  {
    Properties.ModifyLogsThenFails(s, down, args, now, 8, "expecting 8 argument", 8, PatientCollection);
    Properties.ModifyNeverRewrites(s, down, args, now, 8, "expecting 8 argument", 8, PatientCollection, key);
  }
}
