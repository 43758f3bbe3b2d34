# Secrets key-value store, data-source secret migration and user-conflict resolution

A Dafny model of three parts of Grafana's server:

- **The secrets key-value store** (`SecretsKV`, `kvstore.dfy`). At start-up
  `ProvideService` chooses the backend. It takes the remote secrets plugin
  when the plugin check says yes and the plugin can be obtained. It falls
  back to SQL, or refuses to start when a failed plugin check is fatal. Every
  store it hands out is wrapped in a cache with a 5-second lifetime and a
  5-minute sweep.
  - `SecretsKVStore` is the store contract. It is a class over a map from
    (organisation, namespace, type) to secret. Any call may fail, a failed
    call leaves the secrets unchanged, and every call is logged with its
    reply.
  - `FixedKVStore` is the handle bound to one key. It forwards every call
    with the bound key. A successful `Rename` moves the handle along with
    the secret.
- **The data-source secret migration** (`SecretMigration`, `migration.dfy`).
  Inside one transaction, the run lists the data sources. For each data
  source not yet marked, it:
  1. decrypts the legacy secrets;
  2. serialises them;
  3. stores them under (organisation, data-source name, `"datasource"`);
  4. saves the data source with the `secretMigrationComplete` marker set.

  When the compatibility-disabling flag is on, the run then deletes the
  non-empty legacy payload. The first failure ends the run with that error.
  - The collaborators are oracle functions in a `Services` value: decryption,
    JSON serialisation, the secrets store's `Set`, the two data-source
    updates, and the feature flag.
  - `Run` returns the error and the sequence of calls it made. It is proved
    equal to a recursive specification, `Migrate`, whose properties are
    proved as lemmas.
- **The user-conflict command** (`ConflictUsers`, `conflict_users.dfy`, with
  the Go library functions it depends on in `GoStrings`, `gostrings.dfy`).
  It covers:
  - classifying a conflict;
  - the yes/no confirmation;
  - the choice of user, which must occur in the comma-joined id list and
    parse as an int64;
  - printing a conflict;
  - merging users;
  - de-duplicating users with the same identification.

  Standard input becomes a parameter. The user store's MergeUser, UpdateUser
  and DeleteUser become oracle functions in a `UserStore` value, and the
  calls made to them are recorded. `strings.ToLower`, `strings.Contains`,
  `strings.Split` and `strconv.ParseInt(s, 10, 64)` are modelled exactly for
  ASCII input. Overflow is detected digit by digit, as in Go. Each has a
  partner definition and a lemma connecting the two: Join for Split, an
  existential for Contains, and the arithmetic value of the digits for
  ParseInt.

`Common` (`common.dfy`) holds Go's int64 as a subset type, `Option`,
`Result` and Go's `error` values.

## Model

| member | source | states |
|---|---|---|
| SecretsKV.ProvideService | pkg/services/secrets/kvstore/kvstore.go:18-61 | Exactly one of a store or an error is returned. Every store is cached with a 5 s lifetime and a 5 min sweep. A clean "yes" gives the plugin, or SQL when GetPlugin fails, and never an error. A clean "no" gives SQL. After a failed check, a store (always SQL) is returned iff isPluginErrorFatal cleanly answered no. The fatality check's own error takes precedence over the check's error. The plugin backend is used only after a clean "yes" and a successful GetPlugin. GetPlugin is consulted only after a clean "yes", and isPluginErrorFatal only after a failed check. |
| SecretsKV.Move | pkg/services/secrets/kvstore/kvstore.go:69 | After a rename the old key is gone and the new key holds the old value. Nothing else changes, and a missing key changes nothing. |
| SecretsKV.MoveBack | pkg/services/secrets/kvstore/kvstore.go:69 | Renaming to a free namespace and back restores the secrets exactly. |
| SecretsKV.SecretsKVStore.Get | pkg/services/secrets/kvstore/kvstore.go:65 | Secrets are unchanged and the call is logged. On success, `found` tells whether the key is present and `value` is its secret. |
| SecretsKV.SecretsKVStore.Set | pkg/services/secrets/kvstore/kvstore.go:66 | On success the key maps to the value; on failure nothing changes. The call is logged. |
| SecretsKV.SecretsKVStore.Del | pkg/services/secrets/kvstore/kvstore.go:67 | On success the key is removed; on failure nothing changes. The call is logged. |
| SecretsKV.SecretsKVStore.Keys | pkg/services/secrets/kvstore/kvstore.go:68 | Secrets are unchanged. On success the listing holds exactly the stored keys of the namespace and type, in the organisation or, for AllOrganizations (-1), in any organisation. |
| SecretsKV.SecretsKVStore.Rename | pkg/services/secrets/kvstore/kvstore.go:69 | On success the secrets are `Move`d; on failure nothing changes. The call is logged. |
| SecretsKV.FixedKVStore.With | pkg/services/secrets/kvstore/kvstore.go:72-80 | The handle wraps the given store and is bound to the given organisation, namespace and type. |
| SecretsKV.FixedKVStore.Get | pkg/services/secrets/kvstore/kvstore.go:90-92 | Forwards Get with the bound key. The reply is handed back unchanged, with the store's guarantees. |
| SecretsKV.FixedKVStore.Set | pkg/services/secrets/kvstore/kvstore.go:94-96 | Forwards Set with the bound key. On success the bound key holds the value. |
| SecretsKV.FixedKVStore.Del | pkg/services/secrets/kvstore/kvstore.go:98-100 | Forwards Del with the bound key. On success the bound key is gone. |
| SecretsKV.FixedKVStore.Keys | pkg/services/secrets/kvstore/kvstore.go:102-104 | Forwards Keys with the bound key. On success it lists exactly the matching stored keys. |
| SecretsKV.FixedKVStore.Rename | pkg/services/secrets/kvstore/kvstore.go:106-113 | Forwards Rename with the bound key. The handle's namespace becomes the new one only if the store succeeded. The organisation and type never change. |
| SecretMigration.MarkMigrated | pkg/services/secrets/kvstore/migration/datasources.go:88 | Sets the marker to true. Every other setting is kept and no other key is added. |
| SecretMigration.HasMigration | pkg/services/secrets/kvstore/migration/datasources.go:71 | A data source counts as migrated only when its settings hold the marker set to the JSON boolean true; a missing marker or any other value reads as false. Its properties are stated by the SecretMigrationProperties lemmas. |
| SecretMigration.MigrateDataSource | pkg/services/secrets/kvstore/migration/datasources.go:71-100 | The loop body for one data source makes exactly the calls and returns exactly the error of the specification `MigrateRecord`. |
| SecretMigration.Run | pkg/services/secrets/kvstore/migration/datasources.go:62-105 | The run makes exactly the calls and returns exactly the error of the specification `Migrate`. A failed listing is returned as is, and nothing else is called. |
| SecretMigrationProperties.MarkedRecordOnlyCleansUp | pkg/services/secrets/kvstore/migration/datasources.go:71-100 | A data source already marked is not decrypted, written or updated. At most its legacy payload is deleted. |
| SecretMigrationProperties.UnmarkedRecordIsMigrated | pkg/services/secrets/kvstore/migration/datasources.go:72-92 | A successful unmarked data source is decrypted first. Its serialised secrets are then stored under (organisation, name, "datasource"). Last, it is saved with the marker set, so the saved record is marked. |
| SecretMigrationProperties.RecordStopsAtFirstFailure | pkg/services/secrets/kvstore/migration/datasources.go:73-92 | The first failing step of decrypt, serialise, store and update ends the data source with that step's error, and no later step is called. |
| SecretMigrationProperties.CleanupIndependentOfMarker | pkg/services/secrets/kvstore/migration/datasources.go:95-100 | The legacy payload is deleted iff the flag is on and the payload is non-empty, whatever the marker says. The deletion's error becomes the data source's error. |
| SecretMigrationProperties.RunStopsAtFirstFailure | pkg/services/secrets/kvstore/migration/datasources.go:70-102 | A run reaching a failing data source returns its error. Its calls are those of every earlier data source in order, then the failing one's, and no later data source is touched. |
| SecretMigrationProperties.RunSucceedsIffEveryRecordDoes | pkg/services/secrets/kvstore/migration/datasources.go:70-104 | A run succeeds iff every data source succeeds. It then makes the calls of every data source in listing order. |
| SecretMigrationProperties.UnmarkedRecordIsUpdated | pkg/services/secrets/kvstore/migration/datasources.go:88-89 | A successful unmarked data source's calls include the update with the marker set. |
| SecretMigrationProperties.SuccessfulRunMarksEveryRecord | pkg/services/secrets/kvstore/migration/datasources.go:88-92 | After a successful run every data source that was not marked has had its update with the marker set. |
| SecretMigrationProperties.SuccessfulRunStoresMarkedRecords | pkg/services/secrets/kvstore/migration/datasources.go:70-102 | After a successful run every data source, as stored from the updates that run actually sent, holds the marker. |
| SecretMigrationProperties.RerunOnlyCleansUp | pkg/services/secrets/kvstore/migration/datasources.go:71-100 | Over marked data sources a run only deletes legacy payloads. With the flag off it does nothing and succeeds. |
| SecretMigrationProperties.RunIsIdempotent | pkg/services/secrets/kvstore/migration/datasources.go:62-105 | Run again over the records as stored from the updates a successful run actually sent, the migration makes no decryption, write or update. With the flag off it makes no call at all. |
| GoStrings.ToLower | pkg/cmd/grafana-cli/commands/conflict_user_command.go:118 | Same length. Each ASCII upper-case letter becomes its lower-case letter and every other character is kept. |
| GoStrings.Contains | pkg/cmd/grafana-cli/commands/conflict_user_command.go:137 | True iff the second string occurs at some position of the first. |
| GoStrings.Split | pkg/cmd/grafana-cli/commands/conflict_user_command.go:198 | Gives at least one piece (one empty piece for the empty string), and no piece contains the separator. |
| GoStrings.JoinSplit | pkg/cmd/grafana-cli/commands/conflict_user_command.go:198 | Joining the pieces of a split gives the string back. |
| GoStrings.SplitJoin | pkg/cmd/grafana-cli/commands/conflict_user_command.go:198 | Splitting a join of separator-free pieces gives the pieces back. |
| GoStrings.PieceOccurs | pkg/cmd/grafana-cli/commands/conflict_user_command.go:137 | Every piece of a split occurs in the split string. |
| GoStrings.ScanDigitsValue | pkg/cmd/grafana-cli/commands/conflict_user_command.go:201 | Scanning digits gives their decimal value, or a range error when the value exceeds the largest uint64. |
| GoStrings.ParseInt64 | pkg/cmd/grafana-cli/commands/conflict_user_command.go:201 | strconv.ParseInt(s, 10, 64): an optional sign, then the digit loop, with range errors for values outside int64. Its meaning is stated by ParseInt64Meaning and ParseFormat. |
| GoStrings.ParseInt64Meaning | pkg/cmd/grafana-cli/commands/conflict_user_command.go:201 | ParseInt succeeds iff the input has an optional sign, at least one digit and nothing else, and its value fits in an int64. The result is that value. Errors name ParseInt and the whole input. |
| GoStrings.ParseFormat | pkg/cmd/grafana-cli/commands/conflict_user_command.go:217 | An id printed in decimal parses back to itself. |
| ConflictUsers.Conflict | pkg/cmd/grafana-cli/commands/conflict_user_command.go:185-195 | Same-identification iff the flag is set. Merge iff the flag is not set and e-mails or logins conflict. Otherwise unclassified. |
| ConflictUsers.ConfirmAccepts | pkg/cmd/grafana-cli/commands/conflict_user_command.go:118-123 | Accepts exactly "y" and "yes" in any mix of letter cases. |
| ConflictUsers.PromptToMerge | pkg/cmd/grafana-cli/commands/conflict_user_command.go:127-145 | A choice is accepted iff it was read, occurs in the id list and parses, and then it is the parsed id. Otherwise the id is -1 and the error says why: the read error wrapped or bare, "not a conflicting user id", or "could not parse id from string". |
| ConflictUsers.PromptSameIdentification | pkg/cmd/grafana-cli/commands/conflict_user_command.go:147-165 | Behaves exactly as PromptToMerge on every input. |
| ConflictUsers.ListedIdIsAccepted | pkg/cmd/grafana-cli/commands/conflict_user_command.go:136-144 | Every listed id that parses is accepted as the choice and yields its value. |
| ConflictUsers.ChoiceIsCheckedAsSubstring | pkg/cmd/grafana-cli/commands/conflict_user_command.go:137-144 | For the ids "12,13", the choice "1" is accepted and yields 1, which is not a listed id: the check is a substring check, not a membership check. |
| ConflictUsers.Print | pkg/cmd/grafana-cli/commands/conflict_user_command.go:167-176 | One line per id, each with the id, e-mail and login at the same position. The e-mail and login lists must be at least as long as the id list. |
| ConflictUsers.MergeUser | pkg/cmd/grafana-cli/commands/conflict_user_command.go:197-208 | The store is called iff every id parses, and then exactly once, with the parsed ids in order. Its error is returned unchanged. Otherwise the error is "could not parse id from string" and no call is made. |
| ConflictUsers.DeleteOtherUser | pkg/cmd/grafana-cli/commands/conflict_user_command.go:217-224 | The loop body for one listed user matches the specification `DeleteOne`: a parse failure returns strconv's error and nothing is deleted; otherwise one deletion is made and its failure is wrapped. |
| ConflictUsers.DeleteEach | pkg/cmd/grafana-cli/commands/conflict_user_command.go:216-225 | The deletion loop as a specification: the listed users in order, each parsed then deleted, stopping at the first failure. Its properties are stated by the three DeleteEach lemmas below. |
| ConflictUsers.DeleteEachDeletesInOrder | pkg/cmd/grafana-cli/commands/conflict_user_command.go:215-225 | The deletions are of the first listed ids, in order, each with the parsed id. |
| ConflictUsers.DeleteEachSucceedsIff | pkg/cmd/grafana-cli/commands/conflict_user_command.go:215-226 | The deletions succeed iff every id parses and every deletion succeeds. Every listed user is then deleted. |
| ConflictUsers.DeleteEachEarlierDeletesSucceed | pkg/cmd/grafana-cli/commands/conflict_user_command.go:221-224 | Every deletion of a run except the last one succeeded, because a failed deletion ends the loop. |
| ConflictUsers.DeleteEachStopsAtFirstFailure | pkg/cmd/grafana-cli/commands/conflict_user_command.go:216-224 | Every deletion before the last one succeeded. A failure is either the next id not parsing, with strconv's error, or the last deletion made failing, with its error wrapped. |
| ConflictUsers.DeDupeSameIdentification | pkg/cmd/grafana-cli/commands/conflict_user_command.go:210-227 | Makes exactly the calls and returns exactly the error of the specification `DeDupe`. The chosen user is always updated first. |
| ConflictUsers.DeDupeDeletesEveryListedUser | pkg/cmd/grafana-cli/commands/conflict_user_command.go:210-227 | A successful de-duplication updates the chosen user, then deletes every listed user in list order. |
| ConflictUsers.DeDupeDeletesChosenUserToo | pkg/cmd/grafana-cli/commands/conflict_user_command.go:215-225 | The list is not filtered, so a successful de-duplication whose list holds the chosen user's id deletes the chosen user as well. |

## Left out

- Logging, `context.Context` and the Go process wiring (dependency injection, the CLI command registration and its dispatch loop over conflicts) are not modelled.
- SQL and plugin backends: the store contract (`SecretsKVStore`) stands for both. The decryption cache of the SQL store, the cache decorator's internals and `GetNamespacedKVStore` are not modelled.
- `isPluginErrorFatal` is not modelled: its answer is a parameter of `ProvideService`.
- `SecretsKVStore.Keys`: the interface promises no order, so the model lists matching keys in an arbitrary order. Treating AllOrganizations (-1) as a wildcard follows the constant's documentation.
- `SecretsKVStore.Get`: the model returns ("", false) on failure; the interface leaves the value open.
- Backend failure is nondeterministic in the model. Which errors a backend produces, and whether a failed call partially wrote, are not modelled.
- `WaitForProvisioning` is not modelled. It waits on a bus event and a timer, and `Run` ignores its result.
- The transaction is not modelled: `Run` returns the closure's error and the calls it made. Rolling back the updates made before a failure is not modelled.
- JSON serialisation and decryption are oracles (`Services.marshal`, `Services.decryptLegacySecrets`). The marker is read as true only when the setting is the JSON boolean true. The model does not cover a nil or non-object settings document.
- `SecretMigration.MigrateDataSource`: the update command carries only the id, organisation, uid and settings, as in the source. What the data-source service then does to the other fields is not modelled.
- Collaborator outcomes depend only on the call's arguments, because the oracles are functions. A store whose answer changes between identical calls in one run is not modelled.
- `GoStrings.ToLower` only lower-cases ASCII letters; Unicode case mapping is not modelled.
- Confirmation input: when reading the answer fails, the command panics; this path and the prompts written to the terminal are not modelled. `ConfirmAccepts` models only the check on the answer read.
- `ConflictUsers.Print`: the leading blank line and the colouring are not modelled; the result is the printed lines.
- The SQL queries that find conflicting users, and the user store's MergeUser, UpdateUser and DeleteUser themselves, are not modelled; they are oracles in `UserStore`.
