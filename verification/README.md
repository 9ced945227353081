# db-connection: a verified model

This project models the connection store of `db_connection` and the transformations around it, and
proves what they keep over every input, every run and every interleaving.

The parts, hardest first:

- **The store.** `Service.dfy` has the classes of the source: a database, a session with its own
  statements, the repository, the unit of work, the service and the runtime settings. Each service method
  is proved against a decision function of `Store.dfy`, once for a unit of work the service owns and
  commits, once for one the caller owns. `Operations.dfy` tells what each operation does,
  and exactly when, from the draft, the patch, the query and the stored row alone: an independent reference, to
  which the decision functions are proved equivalent. `SerialRuns.dfy` states what follows for operations that
  run one after the other. `Interleaving.dfy` is the same store as a step relation: a step for every await at
  which transactions can interleave, each transaction seeing the committed rows and its own statements.
  `SoloRuns.dfy` and `BatchRuns.dfy` tie the two together, and `LimitRuns.dfy`, `LimitTight.dfy`,
  `ContentRuns.dfy`, `RepairRuns.dfy`, `FrozenRows.dfy` and `Races.dfy` hold the theorems over runs.
- **Decoding, validation and projection.** `RecordMapper.dfy`, `Validation.dfy` and `Projection.dfy` follow
  the three deciders of "is this row good"; `Acceptance.dfy` and `Views.dfy` are the references for what is
  accepted and what is shown; `ReadBack.dfy` shows that they agree on what the service
  writes. `PatchAlgebra.dfy` and `PatchLimits.dfy` state exactly when two updates compose into one, and
  `PatchRuns.dfy` says it of runs.
- **Transformations.** The legacy split (`LegacySplit.dfy`), the SQL query builders (`SqlUrls.dfy`,
  `LegacyAdapters.dfy`, and `DraftQueries.dfy` for what a draft's JSON shows in its URL), the bridge from a legacy
  payload to a connection (`LegacyBridge.dfy`), the legacy field encryption (`LegacyEncryption.dfy`) and the
  printed class references (`ModelRefs.dfy`).
- **The registry.** `Registries.dfy` and the built-in registry with its fit to the SQL connector,
  `DefaultRegistry.dfy`.
- **The lint checker's tree search.** `LintTree.dfy`.

A Pydantic class is abstract: a partial `validate` with dumps. What a theorem needs of a class is a named
premise: `SoundClass`, that a class accepts its own dump; `StableClass`, that it makes the same of it again;
`StorableClass`, that an options class can be stored and rebuilt. `Builtins.dfy` makes one library of all the
built-in classes, parsed from JSON in `ConnectorSchemas.dfy` and `SqlSchemas.dfy`, and proves which premises
hold of it: all but one class are stable, and S3 properties are sound, and stable exactly on settled prefixes.
`BuiltinInstallation.dfy` and `DraftUrls.dfy` state the results for the store and the SQL URLs over that library
and the ten built-in types, with no premise about classes left. A secrets provider is a pair of functions with the premise that decrypting what
was encrypted gives it back (`Faithful`). Policies, ownership resolvers, clocks, fresh ids and encryption nonces
are parameters.

## Where the code falls short of a simple reading

- **The limit.** Overlapping creates can exceed it. When no check passes while `k` or more creates of other
  units of work are in flight, past their own check and not yet committed, the bound is `limit + k - 1`,
  whoever owns the units of work (`LimitRuns.LimitHolds`); a batch's own earlier inserts are seen by its
  checks and do not count. For every positive limit and every positive `k` a run attains the bound
  (`LimitTight.LimitIsTight`). A limit of zero or less admits nothing.
- **Frozen tombstones.** A deleted row keeps its mark under any interleaving. Its content, and the time of the
  mark, are frozen exactly when no open transaction holds a statement that changes the row or stands past its
  read with an update or a deletion that would be accepted (`FrozenRows.FrozenExactly`). An update that read
  the row before the deletion still rewrites it (`FrozenRows.LateUpdateRewrites`), and a second deletion moves
  the mark to a later time (`FrozenRows.LateDeleteMovesMark`).
- **Combining patches.** Two updates equal one with the combined patch when the later patch sets a driver only
  with its options, or names one whose options the same class judges, when labels that the earlier patch
  leaves behind are strings, and when the classes are stable (`PatchAlgebra.UpdatesCompose`). As a condition
  on the two patches alone this is exact: for every other pair of applicable patches some installation tells
  the two ways apart (`PatchLimits.OtherPairsDoNotCompose`). In the built-in installation the driver does not
  matter; there the two ways differ exactly when labels that are not strings are left behind, or when the
  later patch takes over an S3 prefix that is not settled (`BuiltinInstallation.BuiltinUpdatesCompose`).
- **S3 prefixes.** Normalisation strips blanks and then slashes, so one pass over " / a / " or "/ a /" leaves
  " a " and the next one "a". A prefix is settled when a second pass leaves it; `ConnectorSchemas.PrefixTwice`
  is the exact condition.
- **Labels.** Validation does not look at label values, so a draft with a label that is not a string is
  stored and then reads back with an issue; `ReadBack.WrittenRowsHealthy` is the exact condition.
- **Legacy encryption.** A sensitive value that already is a prefixed token of the key does not survive
  encrypting and decrypting; `LegacyEncryption.EncryptThenDecrypt` is the exact condition.
- **Query builders.** A null `verify` is shown as `False` by the runtime and as `None` by the legacy adapters;
  `LegacyAdapters.RuntimeMatchesLegacy` is the exact condition.

## Model

| member | source | states |
|---|---|---|
| LimitRuns.LimitHolds | db_connection/application/service.py:89-100 | when every check passes with fewer than k creates of other units of work in flight, committed active rows never exceed max(initial, limit + k - 1), in owned and callers' units of work alike, `limit` bounding every limit a passed check used; for a limit of zero or less they never exceed the initial number |
| LimitRuns.OwnedLimitHolds | db_connection/application/service.py:64-100 | in particular when at most k service-owned creates are open at any time and callers create nothing |
| LimitRuns.LimitInvariant | db_connection/infra/repositories.py:58-72 | the inductive form: for every subset of the open transactions, the active rows its pending deletions leave, plus its creates in flight, stay within the bound |
| LimitTight.LimitIsTight | db_connection/runtime/settings.py:87-95 | for every limit of at least one and every k of at least one a run from an empty table attains the bound, under the premises of both theorems, so the limit itself is guaranteed for k = 1 alone |
| SoloRuns.SoloCreate | db_connection/application/service.py:64-100 | the steps of a create without interruption commit exactly the decided row, or cannot finish exactly when the decision is an error |
| SoloRuns.SoloUpdate | db_connection/application/service.py:137-186 | likewise for update |
| SoloRuns.SoloDelete | db_connection/application/service.py:188-208 | likewise for delete |
| BatchRuns.BatchIsSteps | db_connection/application/service.py:334-344 | any list of operations in one unit of work of the caller's is a sequence of steps from any state; it leaves the rows the operations leave one after the other, and every other transaction alone |
| SerialRuns.BatchCommitsTheSame | db_connection/application/service.py:334-344 | any list of operations in one caller-owned unit of work, then committed, leaves the same rows as each operation in its own |
| SerialRuns.BatchAnswersTheSame | db_connection/infra/unit_of_work.py:32-47 | and each call in the batch gets the answer it would get alone |
| SerialRuns.DeletedRowFrozen | db_connection/application/service.py:126-128 | in serial runs a deleted row keeps every column |
| SerialRuns.DeletedRowGone | db_connection/infra/repositories.py:61-62 | every later get, update, delete or check of a deleted id answers not-found, and no list shows it whose scoped query excludes deleted rows |
| SerialRuns.DeleteMarks | db_connection/infra/repositories.py:107-126 | a successful delete sets both timestamps of a live row and nothing else |
| SerialRuns.HiddenRowFrozen | db_connection/application/service.py:129-135 | a row an actor may not get is unchanged by any serial run of that actor's operations |
| Operations.CreateIff | db_connection/application/service.py:64-100 | a create succeeds exactly when the policy grants the resolved draft, the reference accepts and stores it, undeleted rows are below the limit and the id is free; what it inserts is the draft's own fields and the dumps of its validated payloads, both timestamps `now`, no deletion mark |
| Operations.CreateErrors | db_connection/application/service.py:82-97 | which error a create raises, first failure first: policy, validation, limit, foreign options, taken id |
| Operations.CreatedRowReads | db_connection/infra/repositories.py:33-56 | in a sound installation the committed row decodes to the resolved draft and to the dumps of its validated payloads; no other row changes |
| Operations.GetIff | db_connection/application/service.py:118-135 | a get succeeds exactly for a live row the policy shows the actor, and which error otherwise |
| Operations.UpdateIff | db_connection/application/service.py:137-183 | an update succeeds exactly when the row is shown, the policy grants the resolved patch, unreadable secrets are replaced, and the record with what the patch sets is accepted and stored |
| Operations.RevisedColumns | db_connection/application/service.py:264-281 | name, driver, labels, metadata and extra are the patch's where it sets them and the record's own otherwise; kind and type are the record's |
| Operations.RevisedPayloads | db_connection/application/service.py:289-305 | properties and secrets are the dumps of validating the patch's payload where it sets one and the record's own otherwise |
| Operations.RevisedOptions | db_connection/application/_driver_options.py:10-44 | options are what the class of the driver then in effect makes of the patch's options where it sets them and of the record's own otherwise |
| Operations.UpdateErrors | db_connection/application/service.py:146-173 | which error an update raises: policy, repair guard, validation, foreign options |
| Operations.UpdateCommits | db_connection/infra/repositories.py:78-105 | the committed row has the patched columns, the time of the update, the old creation time and no deletion mark; no other row changes; the policy granted the resolved patch |
| Operations.DeleteIff | db_connection/application/service.py:188-208 | a delete succeeds exactly for a live row the actor may get and delete; it sets both timestamps of that row and nothing else; and which error otherwise |
| Operations.CheckIff | db_connection/application/service.py:220-249 | what a stored check connects with: the record, or the record with what the trial patch sets, as validation accepts it, for a type with a connector; exactly when the row is shown and unreadable secrets are replaced by the trial |
| Operations.CheckErrors | db_connection/application/service.py:229-249 | which error a check raises; repair is required exactly when the ciphertext does not decrypt and the trial brings no secrets |
| Operations.ListedIff | db_connection/infra/repositories.py:58-72 | a list shows a row exactly when it is live or deleted rows are asked for, its kind, type and name match those asked for, and its own labels, metadata and extra have every filter value |
| Interleaving.TombstonesPermanent | db_connection/infra/repositories.py:78-126 | under any interleaving no row disappears and no deletion mark is cleared |
| Interleaving.HiddenRowUntouched | db_connection/application/service.py:145-146 | under any interleaving of one actor's operations a row hidden from that actor is unchanged |
| FrozenRows.FrozenExactly | db_connection/infra/repositories.py:78-126 | after any run, no continuation changes a deleted row exactly when every open transaction leaves it as it is and none is poised to write it |
| FrozenRows.SettledForGood | db_connection/application/service.py:126-128 | such a row keeps every column through every continuation, whoever runs |
| FrozenRows.UntouchedForGood | db_connection/application/service.py:145-146 | in particular when no open transaction has started anything on it |
| FrozenRows.DisturbedChanges | db_connection/infra/repositories.py:83-101 | otherwise at most three more steps change it |
| FrozenRows.LateUpdateRewrites | db_connection/application/service.py:176-186 | an update past its read rewrites a deleted row in two steps, mark kept |
| FrozenRows.LateDeleteMovesMark | db_connection/infra/repositories.py:107-126 | a deletion past its read moves the mark of a deleted row to any new time in two steps |
| Races.LateUpdateRewritesTombstone | db_connection/infra/repositories.py:83-106 | such a state is reached: whenever one actor may update and another delete a row, a run exists in which the deletion commits first and the update still rewrites the content |
| ContentRuns.EveryWriteReadsBack | db_connection/application/service.py:289-305 | in every state of every run, a row inserted or replaced by a committed statement, or no longer with its initial columns, is readable, validates, and is shown healthy exactly when labels are strings and the public models accept it |
| ContentRuns.CiphertextCarried | db_connection/application/service.py:172-181 | an undecryptable ciphertext stays in its row through every run until a transaction commits an update whose resolved patch sets the secrets |
| RepairRuns.RepairedStaysReadable | db_connection/application/service.py:314-332 | after a committed repair the row's secrets decrypt in every later state to the dump of a validated payload |
| RepairRuns.RepairReadsBack | db_connection/application/service.py:172-181 | while a repair is the last committed replacement, the row decrypts to the dump of the validated secrets of the very update that executed it |
| Store.ApplyKeepsTombstones | db_connection/infra/repositories.py:78-105 | no statement removes a row or clears its deletion mark |
| Store.ApplyCount | db_connection/infra/repositories.py:33-56 | an insert adds at most one active row, and nothing else adds any |
| Store.AllActiveListed | db_connection/infra/repositories.py:58-72 | the unfiltered list used for the count has one entry per active row |
| Service.ConnectionService.Create | db_connection/application/service.py:64-100 | owned: an error changes and commits nothing, a success is the one decided insert and one commit; borrowed: the same decision on the rows the session sees, never committed. The decision is the one `Operations.CreateIff` characterises |
| Service.ConnectionService.CreateIn | db_connection/application/service.py:89-97 | the count, the limit error and the insert inside a unit of work |
| Service.ConnectionService.Get | db_connection/application/service.py:118-135 | not-found for absent or deleted rows, then the policy, then the record; nothing is written |
| Service.ConnectionService.Update | db_connection/application/service.py:137-186 | the owned and the borrowed outcome of the update decision, the one `Operations.UpdateIff` characterises |
| Service.ConnectionService.UpdateIn | db_connection/application/service.py:146-183 | get, resolve, policy, repair guard, merge, validate and replace, in that order of errors, come to that decision |
| Service.ConnectionService.Delete | db_connection/application/service.py:188-208 | the owned and the borrowed outcome of the delete decision |
| Service.ConnectionService.DeleteIn | db_connection/application/service.py:196-205 | get, policy and tombstone inside a unit of work |
| Service.ConnectionService.List | db_connection/application/service.py:102-116 | exactly the records of the rows the scoped query selects, column by column and filter by filter, from the rows the session sees |
| Service.ConnectionService.CheckStored | db_connection/application/service.py:220-249 | the connection a stored check would use, or its error, as `Operations.CheckIff` characterises it; nothing is written |
| Service.ConnectionService.CheckIn | db_connection/application/service.py:229-249 | the same inside a unit of work, with the repair guard on either branch |
| Service.Repository.Create | db_connection/infra/repositories.py:33-56 | one insert with both timestamps equal and no deletion mark, read back through the mapper |
| Service.Repository.List | db_connection/infra/repositories.py:58-72 | exactly the rows that match in deletion mark, kind, type, name and the three mapping filters, each under its id with the record it decodes to |
| Service.Repository.Get | db_connection/infra/repositories.py:74-76 | the decoded row, deleted or not |
| Service.Repository.ReplaceRow | db_connection/infra/repositories.py:78-105 | every column but the id, the creation time and the deletion mark is rewritten; absent ids are reported |
| Service.Repository.Delete | db_connection/infra/repositories.py:107-126 | the tombstone statement, absent ids reported |
| Service.UnitOfWork.Commit | db_connection/infra/unit_of_work.py:42-44 | the session's statements become the committed rows, as one commit |
| Service.UnitOfWork.Rollback | db_connection/infra/unit_of_work.py:46-47 | the session's statements are dropped and the committed rows stay |
| Service.UnitOfWork.Exit | db_connection/infra/unit_of_work.py:35-40 | closing without commit leaves the committed rows as they were |
| Service.Runtime.UpdateSettings | db_connection/runtime/settings.py:87-95 | a new service is built on the new limit; an unset limit keeps the old one and rows do not change |
| ReadBack.WrittenRowsHealthy | db_connection/infra/record_mapper.py:24-95 | a written row validates, has no read issue exactly when its labels are strings, and is healthy exactly when the public models accept it as well |
| ReadBack.DecodesToPersisted | db_connection/infra/repositories.py:33-56 | decoding a written row gives back the persisted draft, options, properties and secrets included |
| ReadBack.Revalidates | db_connection/application/validation.py:16-52 | validating the decoded record succeeds with the same driver and options, and with the same dump for every model that is stable |
| ReadBack.RewriteIsIdentity | db_connection/application/service.py:264-305 | in a lawful installation writing a decoded record back gives the same columns, up to the ciphertext's nonce |
| ReadBack.RevisionIsReadable | db_connection/application/service.py:244-248 | an update that goes through leaves secrets that decrypt to the dump of the validated payload, and an unreadable row is only rewritten by a patch that sets them |
| PatchAlgebra.UpdatesCompose | db_connection/application/service.py:137-186 | after a successful update, a second one and one update with the right-biased patch come to the same row or the same error in every lawful installation, provided the later patch brings options with a driver or keeps the options class in effect, and labels left behind are strings |
| PatchAlgebra.StableUpdatesCompose | db_connection/application/service.py:137-186 | where classes are only sound, the same holds when the payloads the first update stored and the second takes over are stable |
| PatchAlgebra.ComposeExactly | db_connection/application/service.py:264-305 | and that is exact: when the combined update goes through, the two ways agree exactly when labels survive and the payloads taken over are stable |
| PatchAlgebra.UnstableDiffers | db_connection/infra/record_mapper.py:43-95 | an unstable payload taken over is normalised once more by the second update, and the rows differ |
| PatchAlgebra.ComposablePairsCompose | db_connection/application/service.py:264-305 | as a condition on the two patches: composable pairs compose in every lawful installation and on every row |
| PatchLimits.OtherPairsDoNotCompose | db_connection/application/service.py:264-281 | and for every other pair of applicable patches there is a lawful installation and a row on which the outcomes differ |
| PatchAlgebra.LostLabelsDiffer | db_connection/infra/record_mapper.py:148-170 | labels that are not strings are lost between two updates and kept by one, in every installation |
| PatchRuns.UpdatesComposeInRuns | db_connection/application/service.py:153-186 | two granted updates of one actor leave the table one granted update with the combined patch leaves |
| PatchAlgebra.FieldsOfCombined | db_connection/domain/entities/patch.py:40-53 | the fields the combined patch sets are those either patch sets |
| Validation.ValidateIff | db_connection/application/validation.py:16-52 | a draft is accepted exactly when type, kind, both payloads, the effective driver's options and the mappings are; the separate driver test never decides alone |
| Acceptance.AcceptedIff | db_connection/application/validation.py:16-64 | validation accepts a draft as exactly the connection an independent reference describes: the type's kind, the driver named or the default, instances of the type's models, the options of the driver's first declaration, and the draft's own name and mappings |
| Acceptance.RejectedBecause | db_connection/application/validation.py:16-64 | which error a rejected draft gets, first failure first |
| Acceptance.OptionsIff | db_connection/application/_driver_options.py:10-44 | options are accepted as exactly what the first declaration of the driver's name makes of them; without a driver or for one that takes none they have to be empty |
| Validation.ResolveDriverIsFirst | db_connection/application/_driver_options.py:82-86 | the first declaration of a name is the one found |
| Validation.ResolveDriver | db_connection/application/_driver_options.py:82-86 | some declaration of that name, or none exactly when the name is not declared |
| RecordMapper.OptionsRoundTrip | db_connection/infra/sa_types.py:26-51 | driver options of a storable class come back equal through the column type |
| RecordMapper.StoredConnectionRecordMapper.Decode | db_connection/infra/record_mapper.py:24-95 | the mapper with its shared issue list yields the record the specification describes |
| RecordMapper.StoredConnectionRecordMapper.DecodeDriverOptions | db_connection/infra/record_mapper.py:97-115 | options or the raw payload with one issue appended |
| RecordMapper.StoredConnectionRecordMapper.DecodeSecretsInto | db_connection/infra/record_mapper.py:117-146 | an undecryptable text and a payload that is no object are blamed apart; only the latter keeps its payload |
| RecordMapper.StoredConnectionRecordMapper.CoerceMappingInto | db_connection/infra/record_mapper.py:148-180 | a mapping as it is, or empty with the stored value and one issue |
| RecordMapper.IssueIff | db_connection/infra/record_mapper.py:43-75 | an issue is in the record exactly when its field is undecodable in that way |
| RecordMapper.MapperBlame | db_connection/infra/record_mapper.py:97-180 | each field is blamed at most once, exactly when its stored payload is undecodable |
| RecordMapper.MapperKeepsPayload | db_connection/infra/record_mapper.py:43-55 | blamed properties, options and secrets that decrypt keep the stored payload beside an empty field; accepted ones are the field |
| RecordMapper.MapperDropsPayload | db_connection/infra/record_mapper.py:53-75 | blamed labels, metadata and extra are dropped: any other payload blamed as well decodes to the same record |
| RecordMapper.RecordShowsColumns | db_connection/infra/record_mapper.py:76-95 | every field of a record is its own column; decodable payloads as they are, undecodable ones empty |
| RecordMapper.IssuesInOrder | db_connection/infra/record_mapper.py:43-75 | issues come in the order options, properties, secrets, labels, metadata, extra |
| RecordMapper.LoadIff | db_connection/infra/sa_types.py:37-51 | which option columns load, and as what: the reference has to resolve to a driver-options class that accepts the data |
| Projection.HealthyIff | db_connection/application/public_projection.py:92-204 | the read view is healthy exactly when there is no read issue, validation accepts the record and the public models accept the dumps; then `build` returns the same view |
| Projection.BuildAny | db_connection/application/public_projection.py:92-204 | the step-by-step projector returns, for every record, the view that `Views` characterises; its assertion never fails |
| Projection.ProjectProperties | db_connection/application/public_projection.py:127-141 | properties are blamed unless already blamed, exactly when a model rejects them |
| Projection.ProjectOptions | db_connection/application/public_projection.py:143-160 | likewise for driver options |
| Projection.ProjectSecrets | db_connection/application/public_projection.py:162-178 | likewise for secrets, and a rejected payload is shown |
| Projection.BlameIsExact | db_connection/application/public_projection.py:92-187 | across decoding and projection each field is blamed at most once, exactly when its stored payload is undecodable or rejected |
| Projection.BrokenViewShowsPayload | db_connection/application/public_projection.py:206-241 | the broken view shows any stored properties or decryptable secrets that were blamed |
| Views.ViewCopies | db_connection/application/public_projection.py:76-90 | the view of any record, and a successful `build`, copy each field of the record under its own name |
| Views.ViewShowsRow | db_connection/application/public_projection.py:190-231 | from the stored row: each column under its own name, and labels, metadata and extra empty exactly when blamed |
| Views.BrokenShowsRow | db_connection/application/public_projection.py:206-241 | a broken view shows the stored properties, the stored options or their dump when they load, and the decrypted secrets exactly when they are blamed |
| Views.PublicPresents | db_connection/application/public_projection.py:57-76 | a healthy view and a successful `build` show what the public classes make of the validated properties and of the options of the driver's first declaration |
| Builtins.BuiltinStable | db_connection/connectors/s3.py:42-51 | over all thirteen built-in property, secrets and options classes, an instance is stable unless it holds an S3 prefix that is not settled, and then it is not |
| Builtins.OdbcStorable | db_connection/domain/drivers.py:12-17 | the ODBC options can be stored under their class name and rebuilt from their dump |
| ConnectorSchemas.OdbcStable | db_connection/domain/drivers.py:12-17 | options given by alias or by name dump by name, which validates to the same |
| ConnectorSchemas.TextsStable | db_connection/connectors/s3.py:54-57 | a secrets class of required and optional texts dumps what it validates to the same |
| ConnectorSchemas.SftpStable | db_connection/connectors/ftp.py:115-145 | SFTP properties, whose validation asks the file system for the key file, are unchanged by a second validation over the same file system |
| ConnectorSchemas.PrefixTwice | db_connection/connectors/s3.py:42-51 | a second pass leaves a normalised prefix exactly when it is null, or has no blank at its start or end and is not empty |
| ConnectorSchemas.S3Twice | db_connection/connectors/s3.py:24-51 | the dump of S3 properties is accepted again, and as the same exactly when its prefix is settled |
| BuiltinInstallation.BuiltinIsSound | db_connection/registry/defaults.py:19-168 | the store over all built-in classes and types meets every premise of the theorems on reading back |
| BuiltinInstallation.BuiltinUpdatesCompose | db_connection/application/service.py:264-305 | over all ten types two updates compose whatever the patches do to the driver, unless non-string labels are left behind or an S3 prefix that is not settled is taken over, and then they differ |
| BuiltinInstallation.BuiltinWritesReadBack | db_connection/application/public_projection.py:92-204 | over all ten types every row a run inserted or replaced is shown healthy exactly when its labels are strings |
| ConnectorSchemas.FtpStable | db_connection/connectors/ftp.py:102-108 | dumping and validating FTP properties again changes nothing, port normalisation included |
| ConnectorSchemas.FtpRoundTrip | db_connection/connectors/ftp.py:75-100 | parsing the dump of valid FTP properties gives them back |
| ConnectorSchemas.FtpAccepts | db_connection/connectors/ftp.py:75-100 | exactly which FTP properties are accepted |
| ConnectorSchemas.FtpStoresPort | db_connection/connectors/ftp.py:102-108 | the port that is stored: 990 for implicit TLS on port 21 or none, 21 for plain FTP on 990, otherwise the one given or 21 |
| ConnectorSchemas.SftpStores | db_connection/connectors/ftp.py:115-145 | accepted SFTP properties have a port in range, 22 when none is given, and a key file that exists or none |
| ConnectorSchemas.BrokersRoundTrip | db_connection/connectors/kafka.py:54-59 | the broker list of a joined broker list is that list |
| ConnectorSchemas.KafkaStable | db_connection/connectors/kafka.py:45-59 | dumping and validating Kafka properties again changes nothing |
| LegacyAdapters.RuntimeMatchesLegacy | db_connection/connectors/sql.py:314-394 | for every type and driver the runtime resolves, its dialect is the legacy one and its query the legacy query as text, exactly when a shown `verify` is not null and, for MSSQL, an ODBC driver is named; asyncpg adds its connection timeout |
| LegacyAdapters.SameDialect | db_connection/compat/url_builder.py:193-245 | every runtime driver is in the legacy table under the same dialect, asyncpg and aiomysql in asynchronous mode only |
| LegacyAdapters.LegacyEntriesResolve | db_connection/connectors/sql.py:262-312 | every entry of the legacy table resolves on an async-preferring connector, under the same dialect |
| LegacyAdapters.PostgresToQuery | db_connection/compat/url_builder.py:15-28 | timeout when given, mode and certificate only when secure, no other key |
| LegacyAdapters.AsyncpgToQuery | db_connection/compat/url_builder.py:31-44 | no timeout; mode, certificate and the separate TLS flag only when secure |
| LegacyAdapters.PyMySqlToQuery | db_connection/compat/url_builder.py:47-60 | read and write timeouts equal the exchange timeout; the certificate only when secure |
| LegacyAdapters.AioSqlToQuery | db_connection/compat/url_builder.py:63-73 | connection timeout and certificate only |
| LegacyAdapters.MongoToQuery | db_connection/compat/url_builder.py:76-91 | timeouts in milliseconds; invalid certificates allowed exactly when not verifying |
| LegacyAdapters.NativeToQuery | db_connection/compat/url_builder.py:94-108 | TLS keys, `verify` as given, only when secure; the two timeouts in any case |
| LegacyAdapters.HttpToQuery | db_connection/compat/url_builder.py:111-122 | protocol and `verify` always, the certificate whenever there is one |
| LegacyAdapters.OdbcToQuery | db_connection/compat/url_builder.py:125-170 | a missing or empty ODBC name is the error; otherwise name, encryption, trust and timeout by key |
| LegacyAdapters.OracleToQuery | db_connection/compat/url_builder.py:173-189 | the database is the service name; the certificate only when secure and verifying |
| SqlUrls.BuildQuery | db_connection/connectors/sql.py:314-394 | key by key, which parameters the runtime query has and what text each one is; the one failure is MSSQL without options |
| SqlUrls.BuildMsSqlQuery | db_connection/connectors/sql.py:422-442 | options are required; driver and encryption always, trust only when secure, the timeout only when given |
| SqlUrls.BuildMsSqlUrl | db_connection/connectors/sql.py:397-419 | the URL has a port exactly when there is one and no instance name; the instance name moves into the host |
| SqlUrls.BuildConnectionUrl | db_connection/connectors/sql.py:113-168 | every part of the URL of any SQL connection, host, port and query by key included, and exactly when there is none |
| SqlSchemas.MsSqlFormsExclude | db_connection/connectors/sql.py:63-83 | no payload fits both MSSQL forms, and an accepted one has a port or an instance name and never both |
| SqlSchemas.TcpRoundTrip | db_connection/connectors/sql.py:50-65 | properties with a port come back equal from their dump |
| SqlSchemas.NamedInstanceRoundTrip | db_connection/connectors/sql.py:67-83 | and so do those with an instance name |
| DefaultRegistry.EverySqlDraftConnects | db_connection/connectors/sql.py:221-312 | every SQL draft the built-in registry accepts gets a URL on an async-preferring connector, and on a sync one exactly when its driver is not asyncpg, aiomysql or aioodbc |
| DefaultRegistry.ConnectionUrl | db_connection/connectors/sql.py:397-442 | the same from draft to URL, every part of it stated on the validated properties; it lacks a port exactly for the named-instance form |
| DefaultRegistry.ValidatedMatchesLegacy | db_connection/compat/url_builder.py:193-245 | on validated connections the runtime query is the legacy one unless the ODBC driver name is empty |
| DraftUrls.BuiltinSqlClasses | db_connection/connectors/sql.py:50-88 | the premises of these three about the SQL and options classes hold of the built-in ones |
| DraftUrls.DraftUrl | db_connection/connectors/sql.py:397-442 | from an accepted draft's JSON to its URL with no premise left: dialect, host, user, password and database are the draft's own, a non-empty MSSQL instance name follows the host, the port is missing exactly for MSSQL drafts with an instance name, and the query is told key by key from the draft's fields |
| DraftUrls.DefaultConnects | db_connection/registry/defaults.py:19-168 | a draft without a driver runs on its type's default, which connects in either mode |
| DraftQueries.QueryShowsDraft | db_connection/connectors/sql.py:314-442 | the text of every query key from the draft's JSON: TLS keys exactly when `secure` is true, an omitted timeout as 30 or 60 seconds, a null one not at all |
| DraftQueries.DigitsRead | db_connection/connectors/sql.py:314-394 | numbers are shown in decimal, without leading zeros, and read as themselves |
| DraftQueries.DefaultsAsText | db_connection/connectors/sql.py:50-60 | the default timeouts are shown as "30" and "60", and in milliseconds as "30000" and "60000" |
| SqlUrls.RuntimeIff | db_connection/connectors/sql.py:221-312 | a driver resolves exactly when the type runs on it and, if it only runs asynchronously, that is preferred; the dialect is the family and the driver |
| SqlUrls.FamilyOfType | db_connection/connectors/sql.py:262-312 | every dialect family is the name of its type, PostgreSQL's a longer one |
| SqlUrls.DefaultRuns | db_connection/connectors/sql.py:248-312 | without a driver every SQL type resolves in either mode |
| DraftUrls.DraftMatchesLegacy | db_connection/compat/url_builder.py:193-245 | on accepted drafts the runtime query is the legacy one unless the ODBC driver name is empty |
| DefaultRegistry.ValidatedDriver | db_connection/application/validation.py:16-52 | a validated SQL connection names a driver its type declares, MongoDB none, and MSSQL carries accepted ODBC options |
| DefaultRegistry.BuildDefaultRegistry | db_connection/registry/defaults.py:19-168 | no registration fails, and the registry holds the three kinds and exactly the ten built-in types |
| DefaultRegistry.RegisteredAs | db_connection/registry/defaults.py:19-168 | for every built-in type its kind, a connector, the drivers its connector runs on, and a default among them that is not async-only |
| LegacySplit.SplitConnectionData | db_connection/compat/runtime_bridge.py:98-147 | popping keys one by one gives the specified parts, with both errors |
| LegacySplit.ExtractSecrets | db_connection/compat/runtime_bridge.py:169-179 | the asked keys that were not given are popped, and the secrets are the non-null values |
| LegacySplit.Payload.Pop | db_connection/compat/runtime_bridge.py:108-112 | the value of the key or null, and the key is gone |
| LegacySplit.SplitPartitions | db_connection/compat/runtime_bridge.py:98-179 | no key on both sides, no secret key left among the properties, every other value kept, exactly the non-null secrets taken |
| LegacySplit.SplitThenRebuild | db_connection/compat/runtime_bridge.py:98-147 | the inverse restores every key, absent counting as null, exactly unless it is a driver that was filled in |
| LegacySplit.SplitInjective | db_connection/compat/runtime_bridge.py:34-38 | payloads with the same parts differ at most in naming the default driver or leaving it out |
| LegacySplit.SplitPlaces | db_connection/compat/runtime_bridge.py:98-147 | every key goes where it belongs: non-null secrets of the type to the secrets, the driver name of a SQL type to neither side, every other key to the properties |
| LegacySplit.SplitDriver | db_connection/compat/runtime_bridge.py:109-125 | which driver a split names, and the one error |
| LegacyBridge.SecretFields | db_connection/compat/runtime_bridge.py:30-33 | the secret keys of a type are exactly the fields of its secrets class |
| LegacyBridge.BridgeAccepts | db_connection/compat/runtime_bridge.py:66-95 | a split SQL payload validates exactly when its properties fit the class, its password is a text or null, and its driver is one the type runs on |
| LegacyBridge.BridgeConnects | db_connection/compat/runtime_bridge.py:98-125 | an accepted SQL payload connects in the bridge's mode unless that is synchronous and it names a driver that is async-only |
| LegacyEncryption.EncryptSensitiveFields | db_connection/compat/encryption.py:55-64 | the fields, visited in any order, are encrypted and every other key is untouched; without a key nothing changes |
| LegacyEncryption.DecryptSensitiveFields | db_connection/compat/encryption.py:67-76 | likewise for decryption |
| LegacyEncryption.EncryptThenDecrypt | db_connection/compat/encryption.py:33-52 | decrypting after encrypting is the identity exactly when no sensitive value is a prefixed token the key opens |
| LegacyEncryption.EncryptIdempotent | db_connection/compat/encryption.py:33-39 | encrypting twice is encrypting once |
| LegacyEncryption.LoadThenSave | db_connection/compat/encryption.py:42-64 | under a key that opens none of the values, loading and saving is lossless exactly when every non-empty sensitive text is prefixed |
| LegacyEncryption.StoredSealed | db_connection/compat/encryption.py:9-64 | no covered text stays in clear: it is stored under the prefix as a token the key opens to it; every other value is untouched |
| LegacyEncryption.LoadedOpened | db_connection/compat/encryption.py:42-76 | loading opens exactly the covered, prefixed texts the key opens |
| ModelRefs.ResolvePrinted | db_connection/infra/sa_types.py:26-51 | resolving a printed reference finds the class it was printed for |
| ModelRefs.PrintedInjective | db_connection/infra/sa_types.py:31-35 | different classes print differently |
| ModelRefs.ResolveModelRef | db_connection/infra/sa_types.py:59-70 | the loop over attributes resolves to exactly the specified class or fails |
| ModelRefs.SplitColonForm | db_connection/dsl/loader.py:221-232 | the splitter gives module and attribute of the colon form |
| ModelRefs.DottedFormAgrees | db_connection/dsl/loader.py:174-193 | the dotted form gives the same pair for an attribute without dots and colons and a module without colons |
| Registries.RegistrationsKeepConsistent | db_connection/registry/base.py:14-24 | through any registrations, failing ones included, every type's kind is registered, entries sit under their names, default drivers are declared and no name is lost |
| Registries.NormalisedIsNormal | db_connection/domain/specs.py:33-47 | normalisation gives normal form, is idempotent, and fails exactly on a default driver that explicit declarations lack |
| Registries.PostInit | db_connection/domain/specs.py:33-47 | the step-by-step constructor is that normalisation |
| Registries.ConnectionRegistry.RegisterKind | db_connection/registry/base.py:14-17 | the new dictionary, or the error and no change |
| Registries.ConnectionRegistry.RegisterType | db_connection/registry/base.py:19-24 | the unknown kind before the duplicate name, or the new dictionary |
| Registries.ConnectionRegistry.ListKinds | db_connection/registry/base.py:38-39 | every kind once, in name order |
| Registries.ConnectionRegistry.ListTypes | db_connection/registry/base.py:41-45 | every type of the asked kind, or of any kind, once and in name order |
| Registries.ConnectionRegistry.Copy | db_connection/registry/base.py:47-53 | a fresh registry with equal dictionaries; no registration on the way fails |
| Registries.ConnectionRegistry.MergeFrom | db_connection/fastapi/builder.py:223-227 | exactly the union in which the source wins; no registration fails |
| LintTree.SearchIsClimb | tools/pylint_plugins/no_large_inline_collections.py:303-311 | the downward search finds a node exactly when climbing from it through children meets the root of the search; where every node is a child of its parent, exactly when the root is the node or on its parent chain |
| LintTree.TargetSearch | tools/pylint_plugins/no_large_inline_collections.py:216-244 | searching the targets of the nearest stop succeeds exactly when the climb enters it through a target |
| LintTree.ValueOrTarget | tools/pylint_plugins/no_large_inline_collections.py:149-244 | under an assignment a literal is in its value or in its targets and never in both |
| LintTree.IsInsideAssignmentValue | tools/pylint_plugins/no_large_inline_collections.py:149-180 | true exactly when the nearest assignment is entered beside its targets; the climb ends |
| LintTree.IsInsideConstantAssignment | tools/pylint_plugins/no_large_inline_collections.py:182-214 | true exactly when, besides, one of its targets is an upper-case name |
| LintTree.IsAssignmentTarget | tools/pylint_plugins/no_large_inline_collections.py:216-244 | true exactly when the nearest assignment or loop is entered through a target |
| LintTree.IsInsideTypeAnnotation | tools/pylint_plugins/no_large_inline_collections.py:253-272 | true exactly when some node on the parent chain is an annotation of its parent |
| LintTree.AnnotationAttrContains | tools/pylint_plugins/no_large_inline_collections.py:274-301 | finds the child climbed through exactly when it is one of the annotations |
| LintTree.CheckCollection | tools/pylint_plugins/no_large_inline_collections.py:76-107 | a literal is reported exactly when its type is enabled, it is too large and none of the configured contexts holds, each told from the tree |
| LintTree.ShouldIgnoreByContext | tools/pylint_plugins/no_large_inline_collections.py:97-107 | a literal is ignored exactly when one of the configured contexts holds |
| LintTree.ExcusedIff | tools/pylint_plugins/no_large_inline_collections.py:97-107 | the tests come to the contexts as the tree has them: the lowest assignment or loop above holds the literal beside or in its targets, or some node above is an annotation |
| LintTree.NearestIff | tools/pylint_plugins/no_large_inline_collections.py:149-244 | the nearest stop of the climb is the lowest node of the kinds above, entered through its child on the chain |
| Text.SortNames | db_connection/registry/base.py:38-45 | sorting yields the one ascending listing of a set of names |
| Text.LeIff | db_connection/registry/base.py:38-45 | names are ordered by code point at the first difference, a prefix first |
| Text.StripTakesBlanks | db_connection/connectors/kafka.py:54-59 | stripping takes blanks off both ends and nothing else |

## Left out

- FastAPI routes, OpenAPI schemas, error-to-HTTP mapping, logging and the command line.
- Connector `check` and `get_client`, and everything that opens a socket; `check_payload` and `get_client` of the service only add such a call.
- The inside of Pydantic, Fernet, JSON and SQLAlchemy: they are parameters with stated premises.
- FTP, SFTP, S3 and Kafka fields that are not normalised are carried as they are, and Pydantic's lax coercions (a port given as text) are not modelled; the python-mode dump of a built-in class holds the values of its JSON dump.
- ConnectorSchemas.SftpStable: the file system is one function from path to "is a file", the same at both validations; an S3 bucket that is not text, which the source passes through `str`, is refused.
- Validation.ResolveDriver: that the declaration is the first of its name is `Validation.ResolveDriverIsFirst`.
- Explicit nulls for `labels`, `metadata` and `extra` are one error value that changes nothing; a null `name` is not modelled, the column forbids it.
- Issue messages, error details and the bodies of errors; JSON numbers other than integers; timestamps are integers.
- The order of `list` results: the repository has none, so a list is a map from id to record; the SQL `contains` on names is an abstract predicate.
- Access contexts are reduced to the actor with the draft, the record or the patch; resolvers and policies are functions of these.
- Interleaving: local computation belongs to the database action that follows it, rows are read committed, and ids are fresh; an insert of an existing id is a plain error here, where a database would abort the caller's transaction.
- PatchAlgebra.UpdatesCompose: patches are taken after ownership resolution; `PatchRuns.UpdatesComposeInRuns` adds policy and a resolver that leaves them alone.
- Capabilities and tags of types and drivers, and plugin, file and entry-point loading.
- `apply_dsl_settings`, `apply_dsl_registry`, `_build_driver_specs` and `_build_settings`: they copy declared values into calls modelled here, or repeat the normalisation of `Registries.PostInit`.
- LintTree.AnnotationAttrContains: the annotation attributes of a node are one list in attribute order.
- Service.ConnectionService.CheckStored: ends with the validated connection it would hand to the connector, whose own check opens a socket.
- Service.ConnectionService.CheckIn: likewise.
- DefaultRegistry.Register: the ten registrations of types are ten calls of one method with the index of the built-in specification.
- SqlUrls.BuildConnectionUrl: SQLAlchemy's URL is a record of its parts; rendering it as text, as done for MongoDB, is not modelled.
- The compatibility managers, routers and metaclasses, whose connection count is cached and keeps no limit invariant.
