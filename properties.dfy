// What the shared handlers promise: which checks come first, which keys
// change and in what order, what the audit trail records, and how one
// handler's writes are seen by the next.

module Properties {
  import opened Ledger
  import opened Arguments
  import opened Handlers

  // ---------------------------------------------------------------------
  // Building blocks
  // ---------------------------------------------------------------------

  /** The entity write and the marker write, in that order. A refused
      entity write changes nothing and fails the call; once the entity is
      written the call succeeds, and the marker is there only if the store
      took it. Doing it twice is doing it once. */
  lemma StoreOutcomeEffect(s: Entries, down: Faults, collection: string, id: string, entity: Value, index: Key,
                           failure: string)
    requires index != Plain(id)
    ensures var o := StoreOutcome(down, collection, id, entity, index, failure);
      && (down.Refuses(collection, Plain(id)) ==>
            && o == Outcome(Error(failure), [Put(collection, Plain(id), entity)])
            && Run(s, down, o.calls) == s)
      && (!down.Refuses(collection, Plain(id)) ==>
            && o == Outcome(Success(None), [Put(collection, Plain(id), entity), Put(collection, index, IndexMarker)])
            && Run(s, down, o.calls)
               == (var stored := s[(collection, Plain(id)) := entity];
                   if down.Refuses(collection, index) then stored else stored[(collection, index) := IndexMarker])
            && Lookup(Run(s, down, o.calls), down, collection, Plain(id)) == Found(entity))
      && Run(Run(s, down, o.calls), down, o.calls) == Run(s, down, o.calls)
  {
    var put, mark := Put(collection, Plain(id), entity), Put(collection, index, IndexMarker);
    RunSteps(s, down, put, mark, mark);
    RunSteps(Run(s, down, [put, mark]), down, put, mark, mark);
    RunSteps(Run(s, down, [put]), down, put, mark, mark);
  }

  /** As written, a create whose marker write the store refuses still
      answers success: the entity is stored and the index key keeps whatever
      it held before, so a marker that was absent stays absent. */
  lemma StoreMarkerLost(s: Entries, down: Faults, collection: string, id: string, entity: Value, index: Key,
                        failure: string)
    requires index != Plain(id)
    requires !down.Refuses(collection, Plain(id)) && down.Refuses(collection, index)
    ensures var o := StoreOutcome(down, collection, id, entity, index, failure);
      && o.response == Success(None)
      && Lookup(Run(s, down, o.calls), down, collection, Plain(id)) == Found(entity)
      && Lookup(Run(s, down, o.calls), down, collection, index) == Lookup(s, down, collection, index)
  {
    StoreOutcomeEffect(s, down, collection, id, entity, index, failure);
  }

  /** A create writes to no collection but the one it stores in. */
  lemma StoreWritesOnlyItsCollection(down: Faults, collection: string, id: string, entity: Value, index: Key,
                                     failure: string, other: string)
    requires other != collection
    ensures var o := StoreOutcome(down, collection, id, entity, index, failure);
      forall i :: 0 <= i < |o.calls| ==> !Writes(o.calls[i], other)
  {
  }

  /** The guard of every query and modify: the identity read comes first;
      an absent or unreadable identity stops the call before any write; a
      known user gets the event at their id and then the index marker. */
  lemma AuditOutcomeEffect(s: Entries, down: Faults, userid: string, patientid: string, location: string,
                           collection: string, purpose: Purpose, now: string)
    ensures var g := AuditOutcome(s, down, userid, patientid, location, collection, purpose, now);
      var check := Get(collection, Plain(userid));
      var e := AccessEvent("Query", userid, patientid, location, now, purpose.Name());
      var logKey := Composite("userid~patientid", [userid, patientid, location, purpose.Name()]);
      && (collection in down.collections ==> g == Stop(Error("cannot get user identity"), [check]))
      && (collection !in down.collections && (collection, Plain(userid)) !in s ==>
            g == Stop(Error("user does not exist"), [check]))
      && (Lookup(s, down, collection, Plain(userid)).Found? && down.Refuses(purpose.Log(), Plain(userid)) ==>
            g == Stop(Error(StoreFault), [check, Put(purpose.Log(), Plain(userid), Event(e))]))
      && (Lookup(s, down, collection, Plain(userid)).Found? && !down.Refuses(purpose.Log(), Plain(userid)) ==>
            && g == Pass([check, Put(purpose.Log(), Plain(userid), Event(e)), Put(purpose.Log(), logKey, IndexMarker)])
            && Run(s, down, g.calls)
               == (var logged := s[(purpose.Log(), Plain(userid)) := Event(e)];
                   if down.Refuses(purpose.Log(), logKey) then logged else logged[(purpose.Log(), logKey) := IndexMarker]))
      && (g.Stop? ==> Run(s, down, g.calls) == s)
  {
    var e := Access(userid, patientid, location, purpose, now);
    RunSteps(s, down, Get(collection, Plain(userid)), Put(purpose.Log(), Plain(userid), Event(e)),
             Put(purpose.Log(), AccessIndexKey(e), IndexMarker));
  }

  /** As written, a guard whose index-marker write the store refuses still
      lets the call through: the event is logged at the user id and the
      index key keeps whatever it held before. */
  lemma AuditMarkerLost(s: Entries, down: Faults, userid: string, patientid: string, location: string,
                        collection: string, purpose: Purpose, now: string)
    requires Lookup(s, down, collection, Plain(userid)).Found?
    requires !down.Refuses(purpose.Log(), Plain(userid))
    requires down.Refuses(purpose.Log(), AccessIndexKey(Access(userid, patientid, location, purpose, now)))
    ensures var g := AuditOutcome(s, down, userid, patientid, location, collection, purpose, now);
      var logKey := AccessIndexKey(Access(userid, patientid, location, purpose, now));
      && g.Pass?
      && Lookup(Run(s, down, g.calls), down, purpose.Log(), Plain(userid))
         == Found(Event(Access(userid, patientid, location, purpose, now)))
      && Lookup(Run(s, down, g.calls), down, purpose.Log(), logKey) == Lookup(s, down, purpose.Log(), logKey)
  {
    AuditOutcomeEffect(s, down, userid, patientid, location, collection, purpose, now);
  }

  /** The audit writes touch only the log collection of their purpose. */
  lemma AuditKeepsOtherCollections(s: Entries, down: Faults, userid: string, patientid: string, location: string,
                                   collection: string, purpose: Purpose, now: string, other: string, key: Key)
    requires other != purpose.Log()
    ensures var g := AuditOutcome(s, down, userid, patientid, location, collection, purpose, now);
      Lookup(Run(s, down, g.calls), down, other, key) == Lookup(s, down, other, key)
  {
    AuditOutcomeEffect(s, down, userid, patientid, location, collection, purpose, now);
  }

  // ---------------------------------------------------------------------
  // Create handlers
  // ---------------------------------------------------------------------

  /** A wrong count fails with the count message, and an empty argument
      with its 1-based position, the first one only; neither writes. */
  lemma CreatePatientInformationValidates(down: Faults, args: seq<string>, i: nat)
    ensures |args| != 5 ==>
      CreatePatientInformationOutcome(down, args) == Outcome(Error("there must be 5 argument"), [])
    ensures |args| == 5 && i < 5 && args[i] == "" && (forall j :: 0 <= j < i ==> args[j] != "") ==>
      CreatePatientInformationOutcome(down, args) == Outcome(Error(EmptyArgument(i, Declare)), [])
  {
    if |args| == 5 && i < 5 && args[i] == "" && (forall j :: 0 <= j < i ==> args[j] != "") {
      ValidationReportsFirstEmpty(args, 5, "there must be 5 argument", Declare, i);
    }
  }

  /** A valid call puts the patient, tagged "PatientInformation" with the
      arguments as its fields in order, at args[0], and then the marker at
      the composite key over all five arguments: at most those two keys
      change, and reading args[0] back yields the fields supplied. */
  lemma CreatePatientInformationStores(s: Entries, down: Faults, args: seq<string>)
    requires |args| == 5 && forall j :: 0 <= j < 5 ==> args[j] != ""
    requires !down.Refuses(PatientCollection, Plain(args[0]))
    ensures var o := CreatePatientInformationOutcome(down, args);
      var p := PatientInformation("PatientInformation", args[0], args[1], args[2], args[3], args[4]);
      var index := Composite("id~insurance_card", args);
      var stored := s[(PatientCollection, Plain(args[0])) := Patient(p)];
      && o.response == Success(None)
      && o.calls == [Put(PatientCollection, Plain(args[0]), Patient(p)), Put(PatientCollection, index, IndexMarker)]
      && Run(s, down, o.calls)
         == (if down.Refuses(PatientCollection, index) then stored else stored[(PatientCollection, index) := IndexMarker])
      && Lookup(Run(s, down, o.calls), down, PatientCollection, Plain(args[0])) == Found(Patient(p))
  {
    var p := PatientFrom(args);
    assert PatientIndexKey(p).attributes == args;
    StoreOutcomeEffect(s, down, PatientCollection, p.id, Patient(p), PatientIndexKey(p), StoreFault);
  }

  /** Creating the same patient twice leaves the store as creating it once. */
  lemma CreatePatientInformationIdempotent(s: Entries, down: Faults, args: seq<string>)
    ensures var calls := CreatePatientInformationOutcome(down, args).calls;
      Run(Run(s, down, calls), down, calls) == Run(s, down, calls)
  {
    if Validation(args, 5, "there must be 5 argument", Declare).None? {
      var p := PatientFrom(args);
      StoreOutcomeEffect(s, down, PatientCollection, p.id, Patient(p), PatientIndexKey(p), StoreFault);
    }
  }

  lemma CreateMedicalRecordValidates(down: Faults, args: seq<string>, i: nat)
    ensures |args| != 7 ==>
      CreateMedicalRecordOutcome(down, args) == Outcome(Error("there must be 7 argument"), [])
    ensures |args| == 7 && i < 7 && args[i] == "" && (forall j :: 0 <= j < i ==> args[j] != "") ==>
      CreateMedicalRecordOutcome(down, args) == Outcome(Error(EmptyArgument(i, Declare)), [])
  {
    if |args| == 7 && i < 7 && args[i] == "" && (forall j :: 0 <= j < i ==> args[j] != "") {
      ValidationReportsFirstEmpty(args, 7, "there must be 7 argument", Declare, i);
    }
  }

  /** A valid call puts the record tagged "MedicalRecord" at args[0], then
      the marker at the composite key "id" over all seven arguments. */
  lemma CreateMedicalRecordStores(s: Entries, down: Faults, args: seq<string>)
    requires |args| == 7 && forall j :: 0 <= j < 7 ==> args[j] != ""
    requires !down.Refuses(MedicalCollection, Plain(args[0]))
    ensures var o := CreateMedicalRecordOutcome(down, args);
      var m := MedicalRecord("MedicalRecord", args[0], args[1], args[2], args[3], args[4], args[5], args[6]);
      var index := Composite("id", args);
      var stored := s[(MedicalCollection, Plain(args[0])) := Medical(m)];
      && o.response == Success(None)
      && o.calls == [Put(MedicalCollection, Plain(args[0]), Medical(m)), Put(MedicalCollection, index, IndexMarker)]
      && Run(s, down, o.calls)
         == (if down.Refuses(MedicalCollection, index) then stored else stored[(MedicalCollection, index) := IndexMarker])
  {
    var m := MedicalRecordFrom(args);
    assert MedicalIndexKey(m).attributes == args;
    StoreOutcomeEffect(s, down, MedicalCollection, m.id, Medical(m), MedicalIndexKey(m), StoreFault);
  }

  /** The fees handler stores nothing, ever: a count other than three is
      refused, and three arguments panic at the read of args[3]. */
  lemma CreateHospitalFeesNeverStores(args: seq<string>)
    ensures CreateHospitalFeesOutcome(args).calls == []
    ensures !CreateHospitalFeesOutcome(args).response.Success?
    ensures CreateHospitalFeesOutcome(args).response == Panic <==> |args| == 3
  {
  }

  // ---------------------------------------------------------------------
  // query
  // ---------------------------------------------------------------------

  /** A user missing from the caller-named collection is refused after the
      one identity read: nothing is logged, nothing else is read. */
  lemma QueryRefusesUnknownUser(s: Entries, down: Faults, args: seq<string>, now: string)
    requires |args| == 4 && Lookup(s, down, args[3], Plain(args[0])).Absent?
    ensures QueryOutcome(s, down, args, now) == Outcome(Error("user does not exist"), [Get(args[3], Plain(args[0]))])
    ensures Run(s, down, QueryOutcome(s, down, args, now).calls) == s
  {
    AuditOutcomeEffect(s, down, args[0], args[1], args[2], args[3], QueryAccess, now);
    RunSteps(s, down, Get(args[3], Plain(args[0])), Get(args[3], Plain(args[0])), Get(args[3], Plain(args[0])));
  }

  /** A registered user's query first overwrites the event at their id in
      queryCollection, then puts the index marker (kept only if the store
      takes it), and only then reads the patient: the stored value comes
      back unchanged, and a missing patient fails with the audit writes left
      in place. */
  lemma QueryLogsThenReads(s: Entries, down: Faults, args: seq<string>, now: string)
    requires |args| == 4 && Lookup(s, down, args[3], Plain(args[0])).Found?
    requires !down.Refuses(QueryCollection, Plain(args[0]))
    ensures var o := QueryOutcome(s, down, args, now);
      var e := AccessEvent("Query", args[0], args[1], args[2], now, "query");
      var logKey := Composite("userid~patientid", [args[0], args[1], args[2], "query"]);
      var logged := s[(QueryCollection, Plain(args[0])) := Event(e)];
      && o.calls == [Get(args[3], Plain(args[0])), Put(QueryCollection, Plain(args[0]), Event(e)),
                     Put(QueryCollection, logKey, IndexMarker), Get(PatientCollection, Plain(args[1]))]
      && Run(s, down, o.calls)
         == (if down.Refuses(QueryCollection, logKey) then logged else logged[(QueryCollection, logKey) := IndexMarker])
      && (PatientCollection in down.collections ==> o.response == Error(FailedToGetState(args[1])))
      && (PatientCollection !in down.collections && (PatientCollection, Plain(args[1])) in s ==>
            o.response == Success(Some(s[(PatientCollection, Plain(args[1]))])))
      && (PatientCollection !in down.collections && (PatientCollection, Plain(args[1])) !in s ==>
            o.response == Error("user id does not exist"))
  {
    var g := AuditOutcome(s, down, args[0], args[1], args[2], args[3], QueryAccess, now);
    AuditOutcomeEffect(s, down, args[0], args[1], args[2], args[3], QueryAccess, now);
    AuditKeepsOtherCollections(s, down, args[0], args[1], args[2], args[3], QueryAccess, now,
                               PatientCollection, Plain(args[1]));
    var read := Get(PatientCollection, Plain(args[1]));
    RunConcat(s, down, g.calls, [read]);
    RunSteps(Run(s, down, g.calls), down, read, read, read);
  }

  /** Apart from queryCollection, a query writes to no collection at all:
      in particular it never changes the patient it reads. */
  lemma QueryWritesOnlyItsLog(s: Entries, down: Faults, args: seq<string>, now: string, other: string)
    requires other != QueryCollection
    ensures var o := QueryOutcome(s, down, args, now);
      forall i :: 0 <= i < |o.calls| ==> !Writes(o.calls[i], other)
  {
    if |args| == 4 {
      AuditOutcomeEffect(s, down, args[0], args[1], args[2], args[3], QueryAccess, now);
    }
  }

  /** After a registered user's query, historyQuery for that user returns
      exactly the event this query logged, with purpose "query". */
  lemma QueryIsRecordedForHistory(s: Entries, down: Faults, args: seq<string>, now: string)
    requires |args| == 4 && args[0] != ""
    requires Lookup(s, down, args[3], Plain(args[0])).Found? && !down.Refuses(QueryCollection, Plain(args[0]))
    ensures var after := Run(s, down, QueryOutcome(s, down, args, now).calls);
      HistoryQueryOutcome(after, down, [args[0]])
        == Outcome(Success(Some(Event(AccessEvent("Query", args[0], args[1], args[2], now, "query")))),
                   [Get(QueryCollection, Plain(args[0]))])
  {
    QueryLogsThenReads(s, down, args, now);
  }

  /** The example of a patient created and then queried by a registered
      user: the query returns the record the create stored. */
  lemma CreatedPatientIsQueried(s: Entries, down: Faults, create: seq<string>, query: seq<string>, now: string)
    requires |create| == 5 && forall j :: 0 <= j < 5 ==> create[j] != ""
    requires |query| == 4 && query[1] == create[0]
    requires !down.Refuses(PatientCollection, Plain(create[0])) && !down.Refuses(QueryCollection, Plain(query[0]))
    requires Lookup(Run(s, down, CreatePatientInformationOutcome(down, create).calls), down, query[3], Plain(query[0])).Found?
    ensures var stored := Run(s, down, CreatePatientInformationOutcome(down, create).calls);
      QueryOutcome(stored, down, query, now).response
        == Success(Some(Patient(PatientInformation("PatientInformation", create[0], create[1], create[2], create[3], create[4]))))
  {
    CreatePatientInformationStores(s, down, create);
    var stored := Run(s, down, CreatePatientInformationOutcome(down, create).calls);
    QueryLogsThenReads(stored, down, query, now);
  }

  // ---------------------------------------------------------------------
  // modify
  // ---------------------------------------------------------------------

  /** No modify call ever succeeds or writes to the collection it means to
      update; every key there reads as before. */
  lemma ModifyNeverRewrites(s: Entries, down: Faults, args: seq<string>, now: string,
                            count: nat, arityMessage: string, width: nat, target: string, key: Key)
    requires width >= 4 && target != ModifyCollection
    ensures var o := ModifyOutcome(s, down, args, now, count, arityMessage, width, target);
      && !o.response.Success?
      && (forall i :: 0 <= i < |o.calls| ==> !Writes(o.calls[i], target))
      && Lookup(Run(s, down, o.calls), down, target, key) == Lookup(s, down, target, key)
  {
    var o := ModifyOutcome(s, down, args, now, count, arityMessage, width, target);
    if |args| == count && |args| >= width {
      var g := AuditOutcome(s, down, args[0], args[1], args[2], args[3], ModifyAccess, now);
      AuditOutcomeEffect(s, down, args[0], args[1], args[2], args[3], ModifyAccess, now);
    }
    RunKeepsUnwritten(s, down, o.calls, target, key);
  }

  /** Apart from the log of its purpose, a modify call writes to no
      collection at all. */
  lemma ModifyWritesOnlyItsLog(s: Entries, down: Faults, args: seq<string>, now: string,
                               count: nat, arityMessage: string, width: nat, target: string, other: string)
    requires width >= 4 && other != ModifyCollection
    ensures var o := ModifyOutcome(s, down, args, now, count, arityMessage, width, target);
      forall i :: 0 <= i < |o.calls| ==> !Writes(o.calls[i], other)
  {
    if |args| == count && |args| >= width {
      AuditOutcomeEffect(s, down, args[0], args[1], args[2], args[3], ModifyAccess, now);
    }
  }

  /** A user missing from the caller-named collection is refused before
      anything is written. */
  lemma ModifyRefusesUnknownUser(s: Entries, down: Faults, args: seq<string>, now: string,
                                 count: nat, arityMessage: string, width: nat, target: string)
    requires width >= 4 && |args| == count && count >= width
    requires Lookup(s, down, args[3], Plain(args[0])).Absent?
    ensures ModifyOutcome(s, down, args, now, count, arityMessage, width, target)
      == Outcome(Error("user does not exist"), [Get(args[3], Plain(args[0]))])
    ensures Run(s, down, ModifyOutcome(s, down, args, now, count, arityMessage, width, target).calls) == s
  {
    AuditOutcomeEffect(s, down, args[0], args[1], args[2], args[3], ModifyAccess, now);
  }

  /** A registered user's modify logs a "modify" event and its marker (kept
      only if the store takes it) in modifyCollection, reads the target, and
      then fails: with the read's error when the target collection fails,
      and with "patient's data does not exist" otherwise. */
  lemma ModifyLogsThenFails(s: Entries, down: Faults, args: seq<string>, now: string,
                            count: nat, arityMessage: string, width: nat, target: string)
    requires width >= 4 && |args| == count && count >= width
    requires Lookup(s, down, args[3], Plain(args[0])).Found?
    requires !down.Refuses(ModifyCollection, Plain(args[0]))
    ensures var o := ModifyOutcome(s, down, args, now, count, arityMessage, width, target);
      var e := AccessEvent("Query", args[0], args[1], args[2], now, "modify");
      var logKey := Composite("userid~patientid", [args[0], args[1], args[2], "modify"]);
      var logged := s[(ModifyCollection, Plain(args[0])) := Event(e)];
      && o.response
         == (if target in down.collections then Error(FailedToGetState(args[1])) else Error("patient's data does not exist"))
      && o.calls == [Get(args[3], Plain(args[0])), Put(ModifyCollection, Plain(args[0]), Event(e)),
                     Put(ModifyCollection, logKey, IndexMarker), Get(target, Plain(args[1]))]
      && Run(s, down, o.calls)
         == (if down.Refuses(ModifyCollection, logKey) then logged else logged[(ModifyCollection, logKey) := IndexMarker])
  {
    var g := AuditOutcome(s, down, args[0], args[1], args[2], args[3], ModifyAccess, now);
    AuditOutcomeEffect(s, down, args[0], args[1], args[2], args[3], ModifyAccess, now);
    var read := Get(target, Plain(args[1]));
    RunConcat(s, down, g.calls, [read]);
    RunSteps(Run(s, down, g.calls), down, read, read, read);
  }

  /** After a registered user's modify, historyModify for that user returns
      exactly the "modify" event it logged, although the modify failed.
      This rests on the model keeping the writes of a call that answers
      with an error. On a peer an error response is never committed, and
      every modify as written fails (`ModifyNeverRewrites`), so there no
      modify event reaches modifyCollection and historyModify answers
      "err2". */
  lemma ModifyIsRecordedForHistory(s: Entries, down: Faults, args: seq<string>, now: string,
                                   count: nat, arityMessage: string, width: nat, target: string)
    requires width >= 4 && |args| == count && count >= width && args[0] != ""
    requires Lookup(s, down, args[3], Plain(args[0])).Found?
    requires !down.Refuses(ModifyCollection, Plain(args[0]))
    ensures var after := Run(s, down, ModifyOutcome(s, down, args, now, count, arityMessage, width, target).calls);
      HistoryModifyOutcome(after, down, [args[0]])
        == Outcome(Success(Some(Event(AccessEvent("Query", args[0], args[1], args[2], now, "modify")))),
                   [Get(ModifyCollection, Plain(args[0]))])
  {
    ModifyLogsThenFails(s, down, args, now, count, arityMessage, width, target);
  }

  // ---------------------------------------------------------------------
  // History readers
  // ---------------------------------------------------------------------

  /** historyQuery reads one key and writes nothing: it returns exactly the
      value stored at the user id in queryCollection, the latest event. */
  lemma HistoryQueryReadsLatest(s: Entries, down: Faults, args: seq<string>)
    ensures Run(s, down, HistoryQueryOutcome(s, down, args).calls) == s
    ensures |args| == 1 && args[0] != "" && QueryCollection !in down.collections ==>
      var o := HistoryQueryOutcome(s, down, args);
      && o.calls == [Get(QueryCollection, Plain(args[0]))]
      && ((QueryCollection, Plain(args[0])) in s ==> o.response == Success(Some(s[(QueryCollection, Plain(args[0]))])))
      && ((QueryCollection, Plain(args[0])) !in s ==> o.response == Error("query data history does not exist"))
    ensures |args| == 1 && args[0] != "" && QueryCollection in down.collections ==>
      HistoryQueryOutcome(s, down, args) == Outcome(Error("cannot get data of query"), [Get(QueryCollection, Plain(args[0]))])
    ensures |args| != 1 ==> HistoryQueryOutcome(s, down, args) == Outcome(Error("expecting 1 argument"), [])
    ensures |args| == 1 && args[0] == "" ==> HistoryQueryOutcome(s, down, args) == Outcome(Error(EmptyArgument(0, Delare)), [])
  {
    var k := Get(QueryCollection, Plain(if |args| > 0 then args[0] else ""));
    RunSteps(s, down, k, k, k);
  }

  lemma HistoryModifyReadsLatest(s: Entries, down: Faults, args: seq<string>)
    ensures Run(s, down, HistoryModifyOutcome(s, down, args).calls) == s
    ensures |args| == 1 && args[0] != "" && ModifyCollection !in down.collections ==>
      var o := HistoryModifyOutcome(s, down, args);
      && o.calls == [Get(ModifyCollection, Plain(args[0]))]
      && ((ModifyCollection, Plain(args[0])) in s ==> o.response == Success(Some(s[(ModifyCollection, Plain(args[0]))])))
      && ((ModifyCollection, Plain(args[0])) !in s ==> o.response == Error("err2"))
    ensures |args| == 1 && args[0] != "" && ModifyCollection in down.collections ==>
      HistoryModifyOutcome(s, down, args) == Outcome(Error("cannot get modify data"), [Get(ModifyCollection, Plain(args[0]))])
    ensures |args| != 1 ==> HistoryModifyOutcome(s, down, args) == Outcome(Error("expecting 1 argument"), [])
    ensures |args| == 1 && args[0] == "" ==> HistoryModifyOutcome(s, down, args) == Outcome(Error(EmptyArgument(0, Delare)), [])
  {
    var k := Get(ModifyCollection, Plain(if |args| > 0 then args[0] else ""));
    RunSteps(s, down, k, k, k);
  }

  /** History keeps one event per user: after two queries by the same user,
      historyQuery shows only the second. */
  lemma HistoryShowsOnlyLatestQuery(s: Entries, down: Faults, first: seq<string>, second: seq<string>, now1: string, now2: string)
    requires |first| == 4 && |second| == 4 && first[0] == second[0] && first[0] != ""
    requires !down.Refuses(QueryCollection, Plain(first[0]))
    requires Lookup(s, down, first[3], Plain(first[0])).Found?
    requires Lookup(Run(s, down, QueryOutcome(s, down, first, now1).calls), down, second[3], Plain(second[0])).Found?
    ensures var s1 := Run(s, down, QueryOutcome(s, down, first, now1).calls);
      var s2 := Run(s1, down, QueryOutcome(s1, down, second, now2).calls);
      HistoryQueryOutcome(s2, down, [first[0]]).response
        == Success(Some(Event(AccessEvent("Query", second[0], second[1], second[2], now2, "query"))))
  {
    var s1 := Run(s, down, QueryOutcome(s, down, first, now1).calls);
    QueryIsRecordedForHistory(s1, down, second, now2);
  }
}
