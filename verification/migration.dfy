/** The one-time migration of data-source secrets into the secrets store:
    every data source not yet marked as migrated has its legacy secrets
    decrypted, serialised and written under (organisation, data-source name,
    "datasource"), and is then marked; with the compatibility-disabling flag
    on, the legacy secure payload of every data source that still has one is
    deleted. The first failure aborts the whole run.

    The collaborators (the data-source service, the secrets store, JSON
    serialisation and the feature flag) are given as a `Services` value: each
    call's outcome is a function of its arguments, and the run reports the
    calls it made, in order, as a trace. */
module SecretMigration {
  import opened Common
  import SecretsKV

  /** The type under which data-source secrets are stored. */
  const DataSourceSecretType: string := "datasource"

  /** The settings field that marks a data source as migrated. */
  const MigrationMarker: string := "secretMigrationComplete"

  /** A value in a data source's JSON settings. */
  datatype Json = JBool(b: bool) | JNumber(n: int) | JString(s: string) | JNull | JComposite

  /** A data-source record as listed by the data-source service. */
  datatype DataSource = DataSource(
    id: int64,
    uid: string,
    orgId: int64,
    name: string,
    jsonData: map<string, Json>,
    secureJsonData: map<string, seq<bv8>>)

  /** A data source counts as migrated only when the marker is present and is
      the boolean true; a missing or non-boolean marker reads as false. */
  predicate HasMigration(ds: DataSource) {
    MigrationMarker in ds.jsonData && ds.jsonData[MigrationMarker] == JBool(true)
  }

  /** The settings with the marker set. */
  function MarkMigrated(jsonData: map<string, Json>): (r: map<string, Json>)
    ensures r.Keys == jsonData.Keys + {MigrationMarker}
    ensures r[MigrationMarker] == JBool(true)
    ensures forall k :: k in jsonData && k != MigrationMarker ==> r[k] == jsonData[k]
  {
    jsonData[MigrationMarker := JBool(true)]
  }

  datatype UpdateDataSourceCommand = UpdateDataSourceCommand(id: int64, orgId: int64, uid: string, jsonData: map<string, Json>)

  datatype DeleteDataSourceSecretsCommand = DeleteDataSourceSecretsCommand(uid: string, orgId: int64, id: int64)

  /** A call the migration makes to a collaborator. */
  datatype Call =
    | DecryptLegacySecrets(ds: DataSource)
    | SecretsStore(call: SecretsKV.Call)
    | UpdateDataSource(update: UpdateDataSourceCommand)
    | DeleteDataSourceSecrets(delete: DeleteDataSourceSecretsCommand)

  /** The collaborators: how each call turns out, and whether the
      compatibility-disabling feature flag is on. */
  datatype Services = Services(
    decryptLegacySecrets: DataSource -> Result<map<string, string>, Error>,
    marshal: map<string, string> -> Result<string, Error>,
    secretsSet: (SecretsKV.Key, string) -> Option<Error>,
    updateDataSource: UpdateDataSourceCommand -> Option<Error>,
    deleteDataSourceSecrets: DeleteDataSourceSecretsCommand -> Option<Error>,
    disableSecretsCompatibility: bool)

  /** The error a run (or part of it) ends with, and the calls it made. */
  datatype Outcome = Outcome(err: Option<Error>, calls: seq<Call>)

  /** Where a data source's secrets are stored: under its name, not its id
      or uid. */
  function SecretKey(ds: DataSource): SecretsKV.Key {
    SecretsKV.Key(ds.orgId, ds.name, DataSourceSecretType)
  }

  function UpdateCommandFor(ds: DataSource): UpdateDataSourceCommand {
    UpdateDataSourceCommand(ds.id, ds.orgId, ds.uid, MarkMigrated(ds.jsonData))
  }

  function DeleteCommandFor(ds: DataSource): DeleteDataSourceSecretsCommand {
    DeleteDataSourceSecretsCommand(ds.uid, ds.orgId, ds.id)
  }

  /** Whether the legacy payload of `ds` is to be deleted. */
  predicate NeedsCleanup(svc: Services, ds: DataSource) {
    svc.disableSecretsCompatibility && |ds.secureJsonData| > 0
  }

  /** `o` with `prefix` made before it. */
  function After(prefix: seq<Call>, o: Outcome): Outcome {
    Outcome(o.err, prefix + o.calls)
  }

  // ---------------------------------------------------------------------
  // Specification of one run
  // ---------------------------------------------------------------------

  /** Moving the secrets of one unmarked data source: decrypt, serialise,
      store, then persist the marker; the first failing step ends it. */
  function MoveSecrets(svc: Services, ds: DataSource): Outcome {
    var decrypted := svc.decryptLegacySecrets(ds);
    if decrypted.Failure? then Outcome(Some(decrypted.error), [DecryptLegacySecrets(ds)])
    else
      var json := svc.marshal(decrypted.value);
      if json.Failure? then Outcome(Some(json.error), [DecryptLegacySecrets(ds)])
      else
        var stored := [DecryptLegacySecrets(ds), SecretsStore(SecretsKV.SetCall(SecretKey(ds), json.value))];
        var setErr := svc.secretsSet(SecretKey(ds), json.value);
        if setErr.Some? then Outcome(setErr, stored)
        else Outcome(svc.updateDataSource(UpdateCommandFor(ds)), stored + [UpdateDataSource(UpdateCommandFor(ds))])
  }

  /** Deleting the legacy payload when the flag asks for it. */
  function Cleanup(svc: Services, ds: DataSource): Outcome {
    if NeedsCleanup(svc, ds) then
      Outcome(svc.deleteDataSourceSecrets(DeleteCommandFor(ds)), [DeleteDataSourceSecrets(DeleteCommandFor(ds))])
    else Outcome(None, [])
  }

  /** Everything the run does for one data source. */
  function MigrateRecord(svc: Services, ds: DataSource): Outcome {
    var moved := if HasMigration(ds) then Outcome(None, []) else MoveSecrets(svc, ds);
    if moved.err.Some? then moved else After(moved.calls, Cleanup(svc, ds))
  }

  /** The records in order, stopping at the first failure. */
  function MigrateAll(svc: Services, records: seq<DataSource>): Outcome
    decreases |records|
  {
    if records == [] then Outcome(None, [])
    else
      var first := MigrateRecord(svc, records[0]);
      if first.err.Some? then first else After(first.calls, MigrateAll(svc, records[1..]))
  }

  /** A whole run, given what listing the data sources returned. */
  function Migrate(svc: Services, listed: Result<seq<DataSource>, Error>): Outcome {
    if listed.Failure? then Outcome(Some(listed.error), []) else MigrateAll(svc, listed.value)
  }

  /** Reference definition without the abort: the calls of every record,
      one record after the other. */
  function CallsOfEach(svc: Services, records: seq<DataSource>): seq<Call>
    decreases |records|
  {
    if records == [] then [] else MigrateRecord(svc, records[0]).calls + CallsOfEach(svc, records[1..])
  }

  /** A data source as stored after a run that made `calls`: updated with the
      marker set when the run sent its marker update, otherwise as listed. */
  function StoredRecord(ds: DataSource, calls: seq<Call>): DataSource {
    if UpdateDataSource(UpdateCommandFor(ds)) in calls then ds.(jsonData := UpdateCommandFor(ds).jsonData) else ds
  }

  /** The data sources as stored after a run that made `calls`. */
  function Stored(records: seq<DataSource>, calls: seq<Call>): seq<DataSource> {
    seq(|records|, i requires 0 <= i < |records| => StoredRecord(records[i], calls))
  }

  // ---------------------------------------------------------------------
  // The run
  // ---------------------------------------------------------------------

  /** The body of the loop for one data source: its error, if any, and the
      calls made for it. */
  method MigrateDataSource(svc: Services, ds: DataSource) returns (err: Option<Error>, calls: seq<Call>)
    ensures Outcome(err, calls) == MigrateRecord(svc, ds)
  {
    calls := [];
    var hasMigration := HasMigration(ds);
    if !hasMigration {
      var secureJsonData := svc.decryptLegacySecrets(ds);
      calls := calls + [DecryptLegacySecrets(ds)];
      if secureJsonData.Failure? {
        return Some(secureJsonData.error), calls;
      }
      var jsonData := svc.marshal(secureJsonData.value);
      if jsonData.Failure? {
        return Some(jsonData.error), calls;
      }
      var key := SecretsKV.Key(ds.orgId, ds.name, DataSourceSecretType);
      var setErr := svc.secretsSet(key, jsonData.value);
      calls := calls + [SecretsStore(SecretsKV.SetCall(key, jsonData.value))];
      if setErr.Some? {
        return setErr, calls;
      }
      var marked := ds.(jsonData := MarkMigrated(ds.jsonData));
      var cmd := UpdateDataSourceCommand(marked.id, marked.orgId, marked.uid, marked.jsonData);
      var updateErr := svc.updateDataSource(cmd);
      calls := calls + [UpdateDataSource(cmd)];
      if updateErr.Some? {
        return updateErr, calls;
      }
    }
    if svc.disableSecretsCompatibility && |ds.secureJsonData| > 0 {
      var cmd := DeleteDataSourceSecretsCommand(ds.uid, ds.orgId, ds.id);
      var deleteErr := svc.deleteDataSourceSecrets(cmd);
      calls := calls + [DeleteDataSourceSecrets(cmd)];
      if deleteErr.Some? {
        return deleteErr, calls;
      }
    }
    err := None;
  }

  /** The migration run, inside its transaction: the transaction's result is
      the error the closure returns. Data sources are visited in the order
      the listing returned them. */
  method Run(svc: Services, listed: Result<seq<DataSource>, Error>) returns (err: Option<Error>, calls: seq<Call>)
    ensures Outcome(err, calls) == Migrate(svc, listed)
    ensures listed.Failure? ==> err == Some(listed.error) && calls == []
  {
    if listed.Failure? {
      return Some(listed.error), [];
    }
    var records := listed.value;
    ghost var all := MigrateAll(svc, records);
    calls := [];
    assert records[0..] == records;
    var i := 0;
    while i < |records|
      invariant 0 <= i <= |records|
      invariant all == After(calls, MigrateAll(svc, records[i..]))
    {
      assert records[i..][0] == records[i] && records[i..][1..] == records[i + 1..];
      var recordErr, recordCalls := MigrateDataSource(svc, records[i]);
      AfterAfter(calls, recordCalls, MigrateAll(svc, records[i + 1..]));
      if recordErr.Some? {
        return recordErr, calls + recordCalls;
      }
      calls := calls + recordCalls;
      i := i + 1;
    }
    assert records[i..] == [];
    return None, calls;
  }

  lemma AfterAfter(a: seq<Call>, b: seq<Call>, o: Outcome)
    ensures After(a, After(b, o)) == After(a + b, o)
  {
    assert a + (b + o.calls) == (a + b) + o.calls;
  }
}

/** Properties of a migration run, stated over its specification. */
module SecretMigrationProperties {
  import opened Common
  import SecretsKV
  import opened SecretMigration

  /** A data source already marked gets no decryption, no store write and no
      update: at most its legacy payload is deleted. */
  lemma MarkedRecordOnlyCleansUp(svc: Services, ds: DataSource)
    requires HasMigration(ds)
    ensures MigrateRecord(svc, ds) == Cleanup(svc, ds)
    ensures forall c :: c in MigrateRecord(svc, ds).calls ==> c == DeleteDataSourceSecrets(DeleteCommandFor(ds))
  {
  }

  /** A data source not yet marked, whose steps all succeed, is decrypted,
      its serialised secrets are written under its organisation, its name and
      the "datasource" type, and it is updated with the marker set, in that
      order and before anything else. */
  lemma UnmarkedRecordIsMigrated(svc: Services, ds: DataSource)
    requires !HasMigration(ds)
    requires MigrateRecord(svc, ds).err.None?
    ensures svc.decryptLegacySecrets(ds).Success?
    ensures svc.marshal(svc.decryptLegacySecrets(ds).value).Success?
    ensures |MigrateRecord(svc, ds).calls| >= 3
    ensures MigrateRecord(svc, ds).calls[..3] ==
      [ DecryptLegacySecrets(ds),
        SecretsStore(SecretsKV.SetCall(SecretsKV.Key(ds.orgId, ds.name, "datasource"),
                                       svc.marshal(svc.decryptLegacySecrets(ds).value).value)),
        UpdateDataSource(UpdateDataSourceCommand(ds.id, ds.orgId, ds.uid, MarkMigrated(ds.jsonData))) ]
    ensures HasMigration(ds.(jsonData := UpdateCommandFor(ds).jsonData))
  {
  }

  /** Within one data source the steps run in the order decrypt, serialise,
      store, update; the first that fails ends the data source with its
      error, and nothing after it is called. */
  lemma RecordStopsAtFirstFailure(svc: Services, ds: DataSource)
    requires !HasMigration(ds)
    ensures svc.decryptLegacySecrets(ds).Failure? ==>
      MigrateRecord(svc, ds) == Outcome(Some(svc.decryptLegacySecrets(ds).error), [DecryptLegacySecrets(ds)])
    ensures svc.decryptLegacySecrets(ds).Success? && svc.marshal(svc.decryptLegacySecrets(ds).value).Failure? ==>
      MigrateRecord(svc, ds) ==
      Outcome(Some(svc.marshal(svc.decryptLegacySecrets(ds).value).error), [DecryptLegacySecrets(ds)])
    ensures svc.decryptLegacySecrets(ds).Success? && svc.marshal(svc.decryptLegacySecrets(ds).value).Success? ==>
      var value := svc.marshal(svc.decryptLegacySecrets(ds).value).value;
      var stored := [DecryptLegacySecrets(ds), SecretsStore(SecretsKV.SetCall(SecretKey(ds), value))];
      && (svc.secretsSet(SecretKey(ds), value).Some? ==>
            MigrateRecord(svc, ds) == Outcome(svc.secretsSet(SecretKey(ds), value), stored))
      && (svc.secretsSet(SecretKey(ds), value).None? && svc.updateDataSource(UpdateCommandFor(ds)).Some? ==>
            MigrateRecord(svc, ds) ==
            Outcome(svc.updateDataSource(UpdateCommandFor(ds)), stored + [UpdateDataSource(UpdateCommandFor(ds))]))
  {
  }

  /** Once the secrets step is through (or skipped), the legacy payload is
      deleted exactly when the flag is on and the payload is non-empty,
      whatever the marker says, and a failed deletion is the data source's
      error. */
  lemma CleanupIndependentOfMarker(svc: Services, ds: DataSource)
    requires HasMigration(ds) || MoveSecrets(svc, ds).err.None?
    ensures DeleteDataSourceSecrets(DeleteCommandFor(ds)) in MigrateRecord(svc, ds).calls <==> NeedsCleanup(svc, ds)
    ensures MigrateRecord(svc, ds).err ==
      if NeedsCleanup(svc, ds) then svc.deleteDataSourceSecrets(DeleteCommandFor(ds)) else None
  {
    if !HasMigration(ds) {
      assert forall c :: c in MoveSecrets(svc, ds).calls ==> !c.DeleteDataSourceSecrets?;
    }
  }

  /** The calls of the records before index `i`, one after the other. */
  lemma CallsOfEachSnoc(svc: Services, records: seq<DataSource>, i: nat)
    requires i < |records|
    ensures CallsOfEach(svc, records[..i + 1]) == CallsOfEach(svc, records[..i]) + MigrateRecord(svc, records[i]).calls
    decreases i
  {
    if i == 0 {
      assert records[..1][1..] == [];
    } else {
      assert records[..i + 1][1..] == records[1..][..i];
      assert records[..i][1..] == records[1..][..i - 1];
      CallsOfEachSnoc(svc, records[1..], i - 1);
    }
  }

  /** A run that reaches a failing data source stops there: its error is the
      run's error, the calls are those of every data source before it,
      followed by its own, and no later data source is touched. */
  lemma {:induction false} RunStopsAtFirstFailure(svc: Services, records: seq<DataSource>, i: nat)
    requires i < |records|
    requires forall j :: 0 <= j < i ==> MigrateRecord(svc, records[j]).err.None?
    requires MigrateRecord(svc, records[i]).err.Some?
    ensures MigrateAll(svc, records) == After(CallsOfEach(svc, records[..i]), MigrateRecord(svc, records[i]))
    decreases i
  {
    var first := MigrateRecord(svc, records[0]);
    if i == 0 {
      assert records[..0] == [];
    } else {
      var rest := records[1..];
      assert rest[i - 1] == records[i];
      assert forall j :: 0 <= j < i - 1 ==> rest[j] == records[j + 1];
      RunStopsAtFirstFailure(svc, rest, i - 1);
      var failing := MigrateRecord(svc, records[i]);
      var before := CallsOfEach(svc, rest[..i - 1]);
      assert MigrateAll(svc, rest) == After(before, failing);
      assert records[..i][0] == records[0] && records[..i][1..] == rest[..i - 1];
      assert CallsOfEach(svc, records[..i]) == first.calls + before;
      AfterAfter(first.calls, before, failing);
    }
  }

  /** A run succeeds exactly when every data source's step succeeds, and
      then it has made the calls of every data source, in listing order. */
  lemma {:induction false} RunSucceedsIffEveryRecordDoes(svc: Services, records: seq<DataSource>)
    ensures MigrateAll(svc, records).err.None? <==>
      forall i :: 0 <= i < |records| ==> MigrateRecord(svc, records[i]).err.None?
    ensures MigrateAll(svc, records).err.None? ==> MigrateAll(svc, records).calls == CallsOfEach(svc, records)
    decreases |records|
  {
    if records != [] {
      RunSucceedsIffEveryRecordDoes(svc, records[1..]);
      assert forall i :: 1 <= i < |records| ==> records[i] == records[1..][i - 1];
    }
  }

  /** A successful unmarked data source has its marker update among its calls. */
  lemma UnmarkedRecordIsUpdated(svc: Services, ds: DataSource)
    requires !HasMigration(ds)
    requires MigrateRecord(svc, ds).err.None?
    ensures UpdateDataSource(UpdateCommandFor(ds)) in MigrateRecord(svc, ds).calls
  {
    UnmarkedRecordIsMigrated(svc, ds);
    assert MigrateRecord(svc, ds).calls[2] == UpdateDataSource(UpdateCommandFor(ds));
  }

  /** After a successful run every data source that was not marked has had
      an update with the marker set. */
  lemma {:induction false} SuccessfulRunMarksEveryRecord(svc: Services, records: seq<DataSource>)
    requires MigrateAll(svc, records).err.None?
    ensures forall i :: 0 <= i < |records| && !HasMigration(records[i]) ==>
      UpdateDataSource(UpdateCommandFor(records[i])) in MigrateAll(svc, records).calls
    decreases |records|
  {
    if records != [] {
      var first := MigrateRecord(svc, records[0]);
      var rest := records[1..];
      assert first.err.None?;
      var all := MigrateAll(svc, records).calls;
      assert all == first.calls + MigrateAll(svc, rest).calls;
      if !HasMigration(records[0]) {
        UnmarkedRecordIsUpdated(svc, records[0]);
      }
      SuccessfulRunMarksEveryRecord(svc, rest);
      forall i | 1 <= i < |records| && !HasMigration(records[i])
        ensures UpdateDataSource(UpdateCommandFor(records[i])) in all
      {
        assert records[i] == rest[i - 1];
      }
    }
  }

  /** After a successful run every data source, as stored from the run's
      calls, is marked. */
  lemma SuccessfulRunStoresMarkedRecords(svc: Services, records: seq<DataSource>)
    requires MigrateAll(svc, records).err.None?
    ensures forall i :: 0 <= i < |records| ==>
      HasMigration(Stored(records, MigrateAll(svc, records).calls)[i])
  {
    var calls := MigrateAll(svc, records).calls;
    SuccessfulRunMarksEveryRecord(svc, records);
    forall i | 0 <= i < |records|
      ensures HasMigration(Stored(records, calls)[i])
    {
      var ds := records[i];
      assert Stored(records, calls)[i] == StoredRecord(ds, calls);
      if UpdateDataSource(UpdateCommandFor(ds)) in calls {
        assert HasMigration(ds.(jsonData := UpdateCommandFor(ds).jsonData));
      }
    }
  }

  /** Over data sources that are all marked, a run (with any collaborators)
      only deletes legacy payloads; with the flag off it does nothing at all
      and succeeds. */
  lemma {:induction false} RerunOnlyCleansUp(svc: Services, records: seq<DataSource>)
    requires forall i :: 0 <= i < |records| ==> HasMigration(records[i])
    ensures forall c :: c in MigrateAll(svc, records).calls ==> c.DeleteDataSourceSecrets?
    ensures !svc.disableSecretsCompatibility ==> MigrateAll(svc, records) == Outcome(None, [])
    decreases |records|
  {
    if records != [] {
      MarkedRecordOnlyCleansUp(svc, records[0]);
      RerunOnlyCleansUp(svc, records[1..]);
    }
  }

  /** Running the migration again over what a successful run stored makes no
      decryption, no store write and no update: only flag-gated deletions of
      legacy payloads may repeat, and with the flag off the second run does
      nothing. */
  lemma RunIsIdempotent(svc: Services, again: Services, records: seq<DataSource>)
    requires MigrateAll(svc, records).err.None?
    ensures forall c :: c in MigrateAll(again, Stored(records, MigrateAll(svc, records).calls)).calls ==>
      c.DeleteDataSourceSecrets?
    ensures !again.disableSecretsCompatibility ==>
      MigrateAll(again, Stored(records, MigrateAll(svc, records).calls)) == Outcome(None, [])
  {
    var stored := Stored(records, MigrateAll(svc, records).calls);
    SuccessfulRunStoresMarkedRecords(svc, records);
    RerunOnlyCleansUp(again, stored);
  }
}
