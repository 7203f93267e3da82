// The deployment variant at the repository root: one modifyData entry point
// for patient information, and a seven-argument drug create.

module Chaincode {
  import opened Ledger
  import opened Arguments
  import Handlers
  import Properties

  /** Seven arguments are demanded and checked, but only six are stored. */
  function CreateDrugInformationOutcome(down: Faults, args: seq<string>): Outcome
  {
    Handlers.CreateDrugInformationOutcome(down, args, 7, "expecting 7 argument")
  }

  method CreateDrugInformation(stub: Stub, args: seq<string>) returns (r: Response)
    modifies stub
    ensures Performs(stub, old(stub.entries), old(stub.trace), CreateDrugInformationOutcome(stub.down, args), r)
  {
    r := Handlers.CreateDrugInformation(stub, args, 7, "expecting 7 argument");
  }

  /** Eight arguments: user, patient, location, the user's collection and
      four new patient fields, which are never used. */
  function ModifyDataOutcome(s: Entries, down: Faults, args: seq<string>, now: string): Outcome
  {
    Handlers.ModifyOutcome(s, down, args, now, 8, "expecting 4 argument", 8, PatientCollection)
  }

  method ModifyData(stub: Stub, args: seq<string>, now: string) returns (r: Response)
    modifies stub
    ensures Performs(stub, old(stub.entries), old(stub.trace), ModifyDataOutcome(old(stub.entries), stub.down, args, now), r)
  {
    r := Handlers.Modify(stub, args, now, 8, "expecting 4 argument", 8, PatientCollection);
  }

  function InvokeOutcome(s: Entries, down: Faults, name: string, args: seq<string>, now: string): Outcome
  {
    match name
    case "createMedicalRecord" => Handlers.CreateMedicalRecordOutcome(down, args)
    case "createDrugInformation" => CreateDrugInformationOutcome(down, args)
    case "createPatientInformation" => Handlers.CreatePatientInformationOutcome(down, args)
    case "createHospitalFees" => Handlers.CreateHospitalFeesOutcome(args)
    case "historyModify" => Handlers.HistoryModifyOutcome(s, down, args)
    case "historyQuery" => Handlers.HistoryQueryOutcome(s, down, args)
    case "modifyData" => ModifyDataOutcome(s, down, args, now)
    case "query" => Handlers.QueryOutcome(s, down, args, now)
    case _ => Outcome(Error("Received unknown function invocation"), [])
  }

  /** The chaincode's entry point: the function name picks the handler. */
  method Invoke(stub: Stub, name: string, args: seq<string>, now: string) returns (r: Response)
    modifies stub
    ensures Performs(stub, old(stub.entries), old(stub.trace), InvokeOutcome(old(stub.entries), stub.down, name, args, now), r)
  {
    match name
    case "createMedicalRecord" => r := Handlers.CreateMedicalRecord(stub, args);
    case "createDrugInformation" => r := CreateDrugInformation(stub, args);
    case "createPatientInformation" => r := Handlers.CreatePatientInformation(stub, args);
    case "createHospitalFees" => r := Handlers.CreateHospitalFees(stub, args);
    case "historyModify" => r := Handlers.HistoryModify(stub, args);
    case "historyQuery" => r := Handlers.HistoryQuery(stub, args);
    case "modifyData" => r := ModifyData(stub, args, now);
    case "query" => r := Handlers.Query(stub, args, now);
    case _ => r := Error("Received unknown function invocation");
  }

  // ---------------------------------------------------------------------
  // Properties of this variant
  // ---------------------------------------------------------------------

  predicate Handled(name: string)
  {
    name in {"createMedicalRecord", "createDrugInformation", "createPatientInformation", "createHospitalFees",
             "historyModify", "historyQuery", "modifyData", "query"}
  }

  /** A name outside the table is refused without touching the store. */
  lemma InvokeRejectsUnknown(s: Entries, down: Faults, name: string, args: seq<string>, now: string)
    requires !Handled(name)
    ensures InvokeOutcome(s, down, name, args, now) == Outcome(Error("Received unknown function invocation"), [])
  {
  }

  /** Seven arguments, the first empty one reported by position, and
      nothing written on refusal. */
  lemma CreateDrugInformationValidates(down: Faults, args: seq<string>, i: nat)
    ensures |args| != 7 ==>
      CreateDrugInformationOutcome(down, args) == Outcome(Error("expecting 7 argument"), [])
    ensures |args| == 7 && i < 7 && args[i] == "" && (forall j :: 0 <= j < i ==> args[j] != "") ==>
      CreateDrugInformationOutcome(down, args) == Outcome(Error(EmptyArgument(i, Declare)), [])
  {
    if |args| == 7 && i < 7 && args[i] == "" && (forall j :: 0 <= j < i ==> args[j] != "") {
      ValidationReportsFirstEmpty(args, 7, "expecting 7 argument", Declare, i);
    }
  }

  /** The seventh argument must be non-empty, and an empty one is reported
      as argument 7, but its value has no effect on what is stored. */
  lemma CreateDrugInformationIgnoresSeventh(down: Faults, a: seq<string>, b: seq<string>)
    requires |a| == 7 && |b| == 7 && a[..6] == b[..6]
    requires forall j :: 0 <= j < 6 ==> a[j] != ""
    ensures a[6] == "" ==> CreateDrugInformationOutcome(down, a) == Outcome(Error(EmptyArgument(6, Declare)), [])
    ensures a[6] != "" && b[6] != "" ==> CreateDrugInformationOutcome(down, a) == CreateDrugInformationOutcome(down, b)
  {
    if a[6] == "" {
      ValidationReportsFirstEmpty(a, 7, "expecting 7 argument", Declare, 6);
    }
    assert forall j :: 0 <= j < 6 ==> a[j] == a[..6][j] == b[..6][j] == b[j];
  }

  /** A valid call puts the drug built from the first six arguments in
      DrugCollection, then, if the store takes it, the marker at a key that
      lists the expiration date twice and leaves out the prescriber. */
  lemma CreateDrugInformationStores(s: Entries, down: Faults, args: seq<string>)
    requires |args| == 7 && forall j :: 0 <= j < 7 ==> args[j] != ""
    requires !down.Refuses(DrugCollection, Plain(args[0]))
    ensures var o := CreateDrugInformationOutcome(down, args);
      var d := DrugInformation("DrugInformation", args[0], args[1], args[2], args[3], args[4], args[5]);
      var index := Composite("id~patient_name", [args[0], args[1], args[2], args[3], args[4], args[3]]);
      var stored := s[(DrugCollection, Plain(args[0])) := Drug(d)];
      && o.response == Success(None)
      && o.calls == [Put(DrugCollection, Plain(args[0]), Drug(d)), Put(DrugCollection, index, IndexMarker)]
      && Run(s, down, o.calls)
         == (if down.Refuses(DrugCollection, index) then stored else stored[(DrugCollection, index) := IndexMarker])
  {
    var d := Handlers.DrugFrom(args);
    Properties.StoreOutcomeEffect(s, down, DrugCollection, d.id, Drug(d), Handlers.DrugIndexKey(d), StoreFault);
  }

  /** modifyData never rewrites a patient: it fails on every input, and
      every patient key reads as before. A registered user's call still
      logs a "modify" event, and fails with "patient's data does not exist"
      when the patient read does not fail. */
  lemma ModifyDataNeverRewrites(s: Entries, down: Faults, args: seq<string>, now: string, key: Key)
    ensures var o := ModifyDataOutcome(s, down, args, now);
      && !o.response.Success?
      && Lookup(Run(s, down, o.calls), down, PatientCollection, key) == Lookup(s, down, PatientCollection, key)
    ensures |args| == 8 && Lookup(s, down, args[3], Plain(args[0])).Found?
            && !down.Refuses(ModifyCollection, Plain(args[0])) && PatientCollection !in down.collections ==>
      var o := ModifyDataOutcome(s, down, args, now);
      && o.response == Error("patient's data does not exist")
      && (ModifyCollection, Plain(args[0])) in Run(s, down, o.calls)
      && Run(s, down, o.calls)[(ModifyCollection, Plain(args[0]))]
         == Event(AccessEvent("Query", args[0], args[1], args[2], now, "modify"))
  {
    Properties.ModifyNeverRewrites(s, down, args, now, 8, "expecting 4 argument", 8, PatientCollection, key);
    if |args| == 8 && Lookup(s, down, args[3], Plain(args[0])).Found? && !down.Refuses(ModifyCollection, Plain(args[0])) && PatientCollection !in down.collections {
      Properties.ModifyLogsThenFails(s, down, args, now, 8, "expecting 4 argument", 8, PatientCollection);
    }
  }
}
