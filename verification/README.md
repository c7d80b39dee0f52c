# A Dafny model of the bidirectional CRM sync

The system keeps Salesforce and HubSpot records in step. A change event on either side becomes a job;
handling it reads the record, finds or creates the link that pairs it with a record on the other side,
drops the event if it is an echo of the engine's own write, resolves a conflict if both sides changed,
writes the winner to the other side (and back, if a merge changed it) and records both digests in the
link. This project models that protocol, the queue and change discovery around it, and bulk migration,
and proves what they promise over whole runs.

Every operation the source performs step by step on its own state is a class method here, proved equal to
a function on values (`ReconcilerService.ReconcileRecord` and `Reconciler.Reconcile`, for instance). The
properties are then proved about those functions and about runs of them.

| file | contents |
|---|---|
| `Canonical`, `Strings` | values, records, and the runtime functions left uninterpreted |
| `Mapping` | field rules, transforms, value mappings, the write-then-read round trip, the shipped tables |
| `JoinedText` | texts joined from names and values: when they determine the values |
| `ContentHash` | the digest text: when it determines the contents |
| `Conflict` | the three resolution strategies |
| `IdMap`, `KeyTexts` | natural keys, links, both indexes, the restart; when a joined key determines its values |
| `Connector` | one CRM: upsert, read, search, paging, remove |
| `Reconciler` | one reconciliation, preview and delete propagation, as functions and as a class |
| `Protocol`, `SyncRuns` | the state machine: convergence and loop freedom |
| `Echoes`, `SmallWorlds`, `ReadOnlyFields` | when the engine's own write comes back as an echo; worlds of one linked pair for concrete runs; a field that one system only reads |
| `NaturalKeys`, `SharedKey`, `SeedRuns`, `MigratedSeed` | one-to-one links and how they break, no duplicates, seeding both ways, also page by page as a migration does it |
| `CrashRetry`, `Confluence` | cut and retried runs; concurrent edits, and whose content survives them |
| `Previews`, `RequiredFields` | what a preview reports and predicts; required fields are never left blank |
| `EventStore`, `SyncEngine`, `DeleteSafety` | the job queue, the pump, bounded retries, removals |
| `JobOutcomes`, `EngineRuns` | what handling one job does to its record; whole runs of the engine as runs of the protocol |
| `Poller`, `CdcWorker` | coverage of polling, persist-before-commit |
| `Migration`, `FrozenExecution`, `PlanStore` | paging and accounting, two-phase execution, revision gates |
| `RateLimiter`, `ObjectRegistry` | grant times, fresh keys |

## Hypotheses

- *Settled tables* (`Mapping.Settled`): both systems map the same canonical fields through flat, writable,
  distinct native fields.
- *Carried values* (`Protocol.AllCarried`): each side gives back every stored value that it is handed. It is
  asked of the values that are stored, not of the tables, and `Mapping.RuleRetraction` says value by value when
  it holds: the transforms undo each other on it and the value-mapping rows read it back. The shipped tables
  meet it for all values on the fields that write both ways (`Mapping.CompanySettled`, `ContactSettled`,
  `DealSettled`); the `Echoes` module needs no such hypothesis and says what becomes of the two that do not.
- *Match check* (`Protocol.MatchOk`): a record without a link shares its natural key with no stored link
  and with no linked record of the other side. It is exactly what keeps links one-to-one
  (`NaturalKeys.OneToOneExactly`), and it always passes when users keep keys present, unique per side and
  stable (`NaturalKeys.KeysMatchOk`).
- *Safe keys* (`Protocol.SafeKey`): under the field-merge strategy alone, a key shared by two records
  determines the values it was joined from. Exactly then every merge keeps the key
  (`KeyTexts.MixesKeepKeyExactly`). Single-field keys and the shipped deal key always do
  (`KeyTexts.SingleKeysDetermine`, `DealKeysDetermine`), other keys when no value contains the text of a
  neighbouring field name (`KeyTexts.JoinedKeyExact`).
- *Event names* (`Poller.Truthful`, `Poller.EvenTexts`, `CdcWorker.CdcLegal`): nobody else enqueues events under
  the identities of a poll or of a topic, and time stamps are texts of one length, as ISO texts are, since a
  poll joins record id and time stamp with a colon.
- *Collisions*: only SHA-256 is uninterpreted. Suppressing echoes needs nothing of it; concluding equal
  contents from equal digests needs `ContentHash.CollisionFree` on the pair and an unambiguous digest text.

## Where a promise holds only under a condition

- The digest text joins `key=value` pairs with `|`, so a value that contains the text of a later key can
  make two different records look alike. `ContentHash.SerializationExact` says exactly when it cannot, and
  `ContentHash.MissedEdit` is an edit that is taken for an echo.
- The joined natural key has the same weakness, and a field merge can then change the key that two records
  share (`KeyTexts.MergeChangesKey`), so that under this strategy links, seeding and retries ask for safe keys.
- The engine's own write comes back as an echo exactly when the target reads the written record with the digest
  of what was written (`Echoes.EchoExactly`): where the digest can be trusted, when the target already held the
  text of every field it was not sent (`Echoes.EchoByFields`). Otherwise, if the source has not changed since,
  what the target reads is written over it under every strategy, unless that would leave a required field blank
  (`Echoes.LostEchoOverwrites`), and a field that was not sent keeps its text in the source exactly when the
  target already held it (`Echoes.FieldSurvivesExactly`). So a field that one system only reads cannot be edited
  on the other side: a first value is erased (`ReadOnlyFields.ReadOnlyErases`), a later edit is undone
  (`ReadOnlyFields.ReadOnlyReverts`), and either costs two engine writes.
- A run cut off right after its target write and then retried ends differently when a field merge happens
  to restore exactly the content last recorded for the target: the retry takes the target for unchanged and
  writes the source over it. `CrashRetry.CrashRetryEquivalence` shows that this is the only case,
  `CrashRetry.OnlyMergesMisread` that only field merges can cause it, `CrashRetry.RetryDiverges` that one does.
- Without a link and without a natural key, such a retry creates a second record
  (`CrashRetry.OneTargetExactly`).
- Two records of one system with one natural key break one-to-one links: the second takes over the link of
  the first (`SharedKey.SharedKeyBreaks`).
- Two concurrent edits settle independently of delivery order exactly when nothing is left to the tie-break
  of equal time stamps (`Confluence.ConfluentExactly`; `Confluence.TieOrderMatters` is a tie that matters).
- A preview right after a successful run reports an update, not "nothing to do", when the winner and the
  source differ only in ways the digest does not see, such as null and the empty string
  (`Previews.PreviewAfterReconcile`, `Previews.PreviewUpdates`).
- Polling covers versions strictly older than the cursor, and versions as old as the cursor exactly as long as
  writes in the instant in which a poll began are timely: the version has a job, or the poll has read it or still
  will (`Poller.KeepOrSkip`, `Poller.PollCoverage`). `Poller.TieMissed` is an edit that is left to the next poll.
- While a poll is between two pages, a record that leaves a page already read makes it pass over the first
  record of the next page, exactly when that record is waiting to be read (`Poller.KeepOrSkip`). It then has no
  job until it is changed again, however many pages are left (`Poller.SkippedForGood`), and this happens
  (`Poller.SkipHappens`). Records leaving later pages, or leaving after the last page, do no harm.
- With carried values the engine never writes more often than users do (`SyncRuns.LoopFreedom`), which is half
  of the two-writes-per-edit bound one might expect.
- `limitPerType: 0` reads everything, since zero counts as no limit, and a negative limit reads nothing
  (`Migration.Cap`); the option's comment only says that reading stops after N records.

## Model

| member | source | states |
|---|---|---|
| Mapping.CleanersIdempotent | src/core/mapping.ts:189-246 | lowercase, trim, phone, number and boolean cleaning done twice is cleaning done once |
| Mapping.EnumerationsInvert | src/core/mapping.ts:204-221 | the yes/no and true/false encodings invert themselves on booleans and normalize native text |
| Strings.CapitalsFold | src/core/mapping.ts:189-246 | lower-casing makes each capital its small letter |
| Strings.OthersStay | src/core/mapping.ts:189-246 | and changes nothing but capitals |
| Strings.SpacesAreBlank | src/core/mapping.ts:189-246 | line ends, tabs and the Unicode spaces count as blanks, letters do not |
| Strings.PhoneCharacters | src/core/mapping.ts:189-246 | a phone number is made of digits and plus signs |
| Mapping.TextsCleaned | src/core/mapping.ts:189-246 | trimming drops exactly the blanks around a text, and the lower-casing transform its case besides |
| Mapping.PhonesCleaned | src/core/mapping.ts:189-246 | a phone number keeps its digits and plus signs, in order, and nothing else |
| Mapping.DomainsRead | src/core/mapping.ts:174-183 | two websites read as one domain if and only if they have one host |
| Mapping.NumbersRead | src/core/mapping.ts:189-246 | a text that spells a number becomes it, any other text null, and booleans count as one and zero |
| Mapping.BooleansRead | src/core/mapping.ts:189-246 | the texts that count as true, in whatever case, and only those; how booleans are written to the two enumerations |
| Mapping.DatesRead | src/core/mapping.ts:189-246 | dates given as text or as milliseconds become one ISO text and come back as milliseconds; texts that are no date stay as they are |
| Mapping.ValueMappingRoundTrip | src/core/mapping.ts:248-278 | writing a canonical text and reading it back returns it if and only if its row is the first to read its native code, or, when it is written as it is, the first row to read it reads it as itself |
| Mapping.DistinctCodesRoundTrip | src/core/mapping.ts:248-278 | with distinct native codes every value that has a code round-trips, and a value without a row does exactly when it is no other value's code |
| Mapping.RuleRetraction | src/core/mapping.ts:93-130 | a rule gives a value back when its transforms undo each other on it and the rows read it back |
| Mapping.ToCanonicalFields | src/core/mapping.ts:93-110 | the reading loop fills every rule's canonical field, later rules over earlier ones |
| Mapping.FromCanonicalFields | src/core/mapping.ts:113-130 | the writing loop fills the native field of every writable, flat rule whose canonical field is present |
| Mapping.RowsDecide | src/core/mapping.ts:248-278 | on reading the first value-mapping row that names the cleaned text decides, on writing the first that names the canonical text, before it is transformed |
| Mapping.NoRowReads | src/core/mapping.ts:248-278 | a field without rows is read and written as its transforms make it |
| Mapping.WriteThenRead | src/core/mapping.ts:93-130 | reading back what was written over any existing record returns the same canonical fields |
| Mapping.ReadsAdmissible | src/core/mapping.ts:93-130 | with tables that give back all they can read, whatever either system is read as holding is carried by both |
| Mapping.CompanySettled | src/core/defaultObjects.ts:53-76 | the shipped company tables are settled and give back all they can read, given an idempotent host extraction |
| Mapping.ContactSettled | src/core/defaultObjects.ts:26-51 | so are the contact tables on the fields that write both ways, with no assumption |
| Mapping.DealSettled | src/core/defaultObjects.ts:78-101 | and the deal tables likewise |
| ContentHash.SerializationExact | src/core/idMap.ts:50-56 | over plain field names, the digest text determines the values if and only if no value contains a later separator |
| ContentHash.EqualHashes | src/core/idMap.ts:50-56 | equal digests of unambiguous, collision-free records mean equal normal forms |
| ContentHash.HashOfNormal | src/core/idMap.ts:50-56 | records with equal normal forms have equal digests, in whatever order their fields were added |
| ContentHash.OnlyTextsCount | src/core/idMap.ts:50-56 | the digest sees texts alone: null passes for the empty text, numbers and booleans for theirs |
| ContentHash.MissedEdit | src/core/idMap.ts:50-56 | a concrete edit that changes two fields and leaves the digest as it was |
| Conflict.ResolveBoth | src/core/conflict.ts:35-62 | the resolving method returns the winner of the strategy in force; who that is, is stated strategy by strategy in the next rows |
| Conflict.SystemWins | src/core/conflict.ts:47-66 | under source of truth the winner is the record of the configured system, whichever of the two it is, and the reason names that system |
| Conflict.NewerWins | src/core/conflict.ts:52-70 | under last write wins it is the record with the larger modification time, the first of two equally late ones |
| Conflict.OwnerWins | src/core/conflict.ts:77-99 | under field merge an owned field has the owner's value, and the other record's only where that is null |
| Conflict.LaterFieldWins | src/core/conflict.ts:77-99 | a field that nobody owns has the later record's value, and the other's only where that is null |
| Conflict.MergePassesForLater | src/core/conflict.ts:77-99 | a merge has the fields of both records and otherwise is the later of the two |
| Conflict.MergeLoop | src/core/conflict.ts:77-99 | the key loop of the field merge produces exactly the merged fields |
| Conflict.MergeKeepsData | src/core/conflict.ts:77-99 | a merge never yields null where either side holds a value and never invents a value |
| Conflict.ResolveSymmetric | src/core/conflict.ts:35-99 | resolving in either order gives the same fields if and only if nothing is left to the tie-break |
| Conflict.ResolveAbsorbs | src/core/conflict.ts:35-99 | resolving again against the winner, written later, changes nothing under any strategy |
| IdMap.NaturalKeyQuery | src/core/idMap.ts:102-120 | the criteria loop returns the joined key, or none when a key field is missing or empty |
| IdMap.KeyValueExactly | src/core/idMap.ts:196-199 | apart from domains, two texts give one key value if and only if they differ in case and in the blanks around them alone |
| IdMap.KeyDomainExactly | src/core/idMap.ts:196-199 | two domains give one key value if and only if they have one host |
| IdMap.TextsKeyed | src/core/idMap.ts:102-120 | a text gives no key if and only if it is blank, or as a domain has no host |
| IdMap.NumbersKeyed | src/core/idMap.ts:102-120 | a number is keyed like its text, and null and booleans give no key |
| KeyTexts.JoinedKeyExact | src/core/idMap.ts:102-120 | over plain field names, a joined key determines the values if and only if none contains a neighbouring separator |
| KeyTexts.SingleKeysDetermine | src/core/idMap.ts:102-120 | with one key field the joined key determines the normalized value |
| KeyTexts.DealKeysDetermine | src/core/defaultObjects.ts:78-82 | the shipped deal key determines name and close date, whatever they are |
| KeyTexts.MixesKeepKeyExactly | src/core/idMap.ts:102-120 | every field-wise mix of two records with a key keeps it if and only if the key determines the values it stands for |
| KeyTexts.MergeChangesKey | src/core/conflict.ts:77-99 | and a merge can lose it: two records that share a key of two fields resolve to a record with another |
| IdMap.MixedKey | src/core/idMap.ts:102-120 | when the key determines its values, any field-wise mix of two records with it has it too |
| IdMap.ExactIsOneToOne | src/core/idMap.ts:160-168 | with an exact source index no native id belongs to two links |
| IdMap.IndexNewIds | src/core/idMap.ts:160-168 | indexing a link whose ids are not indexed yet keeps the source index exact |
| IdMap.IndexSameIds | src/core/idMap.ts:160-168 | indexing a stored link again with the same ids keeps it exact and unchanged |
| IdMap.RestartKeepsIndex | src/core/idMap.ts:130-141 | the source index rebuilt from the saved links is the one that was lost |
| IdMap.FileIdMapStore.Init | src/core/idMap.ts:130-141 | loading the saved links one after another rebuilds both indexes |
| IdMap.LookupExact | src/core/idMap.ts:143-146 | with an exact index a lookup by native id finds a link if and only if that link is stored and lists the id |
| IdMap.KeyLookup | src/core/idMap.ts:148-151 | a lookup by key comes back empty if and only if no stored link has the key, and otherwise with one that does |
| IdMap.IndexFilesKeys | src/core/idMap.ts:153-168 | storing a link that keeps its keys keeps the key index in order, and its keys then lead to it |
| IdMap.RestartFilesKeys | src/core/idMap.ts:130-141 | the key index rebuilt from the saved links is in order |
| IdMap.FileIdMapStore.UpsertLink | src/core/idMap.ts:153-168 | stores the link and adds its ids and keys to both indexes |
| Connector.UpsertReadsBack | src/connectors/mock/mockConnector.ts:189-209 | carried fields read back as written; the write stamps the time, emits one event and leaves every other record alone |
| Connector.MockConnector.FindByNaturalKey | src/core/connector.ts:71-75 | returns the snapshots of all records with the key, in insertion order |
| Connector.MockConnector.ReadRecord | src/connectors/mock/mockConnector.ts:97-100 | returns the canonical snapshot, or none for an unknown id |
| Connector.MockConnector.UpsertRecord | src/connectors/mock/mockConnector.ts:189-209 | merges the written fields over the stored ones and appends a new id to the order |
| Connector.MockConnector.RemoveRecord | src/connectors/mock/mockConnector.ts:211-219 | removes the record from store and order and logs the removal |
| Connector.MockConnector.List | src/connectors/mock/mockConnector.ts:69-87 | one page of a hundred of the filtered listing, and the next offset |
| Connector.CandidateCount | src/core/connector.ts:71-75 | the search result has one entry for each matching record |
| Reconciler.ReconcilerService.FindOrCreate | src/engine/reconciler.ts:300-344 | finds the link by id, then by key, then by searching the other system; refuses an ambiguous match |
| Reconciler.ReconcilerService.Contend | src/engine/reconciler.ts:110-147 | the winner is the source, or the resolution against a counterpart changed since the last sync |
| Reconciler.LastRuleOwns | src/engine/reconciler.ts:119-123 | among the rules for a field the last one that names an owner decides |
| Reconciler.PolicyInForce | src/engine/reconciler.ts:119-127 | a run resolves with the configured strategy and system, and with the owners named last in the Salesforce rules followed by the HubSpot rules |
| Reconciler.ReconcilerService.CheckRequired | src/engine/reconciler.ts:362-373 | lists a name exactly when a required, mapped, writable target field would be written blank |
| RequiredFields.RequiredExactly | src/engine/reconciler.ts:362-373 | a run that gets as far as the check is refused there if and only if what would be written leaves a required, writable field blank |
| RequiredFields.RequiredFilled | src/engine/reconciler.ts:152-212 | after a run that went through, the written record holds something in every required field that it writes |
| Reconciler.ReconcilerService.WriteTarget | src/engine/reconciler.ts:161-188 | the write to the target, re-pointed once to the owner of the natural key |
| Reconciler.ReconcilerService.Settle | src/engine/reconciler.ts:189-203 | the write-back and the link's final ids, digests and times |
| Reconciler.ReconcilerService.ReconcileRecord | src/engine/reconciler.ts:91-212 | the whole operation on the stores has exactly the effect and outcome of the function on worlds |
| Reconciler.ReconcilerService.PreviewRecord | src/engine/reconciler.ts:214-285 | the preview is the specified plan and changes nothing; what that plan reports is stated in the rows of the Previews module |
| Reconciler.ReconcilerService.PropagateDeletion | src/engine/reconciler.ts:287-298 | removes the linked counterpart, or nothing; fails only when that record cannot be reached |
| Protocol.StepKeepsTable | src/engine/reconciler.ts:189-203 | a reconciliation keeps links one-to-one between live records with equal digests on both sides |
| Protocol.StepSyncsPair | src/engine/reconciler.ts:161-203 | afterwards both records of the pair hold the content the link records for them |
| Protocol.RunRemembers | src/engine/reconciler.ts:189-203 | after a run that wrote, the source's link holds both ids, the digest both records have, when the target was written and how old the source's change was; a new link is filed under the source's key |
| Protocol.UnsyncedShrinks | src/engine/reconciler.ts:161-203 | and no other record stops being in step |
| Protocol.WritesNeedUnsynced | src/engine/reconciler.ts:98-147 | a write needs a source that is out of step, a write-back a target that is out of step too |
| Protocol.StepPays | src/engine/reconciler.ts:91-212 | every write of a reconciliation settles a record that was owed one |
| Protocol.EchoIsSynced | src/engine/reconciler.ts:98-107 | a dropped echo is the content last recorded for a linked record |
| Protocol.SyncedIsEcho | src/engine/reconciler.ts:98-107 | reconciling a record that is in step changes nothing |
| Protocol.SelfHeals | src/engine/reconciler.ts:161-188 | on a duplicate-value report the run goes through exactly if the first rule that writes the reported property fills a key field, the owner is another record and the second write succeeds; then the owner alone is written and linked |
| SyncRuns.RunKeepsInv | src/engine/reconciler.ts:91-212 | over any interleaving of user writes and deliveries, every record out of step has an event waiting |
| SyncRuns.Convergence | src/engine/reconciler.ts:91-212 | once no event is pending, every record has a counterpart with the same digest |
| SyncRuns.ConvergedContents | src/core/idMap.ts:50-56 | and, when the digest is faithful on the pair, the same canonical content |
| SyncRuns.WriteBound | src/engine/reconciler.ts:98-107 | engine writes plus writes still owed grow by at most one per user write, whatever is delivered how often and in what order |
| SyncRuns.LoopFreedom | src/engine/reconciler.ts:98-107 | from empty systems the engine never writes more often than users do |
| SyncRuns.LoopsDieOut | src/engine/reconciler.ts:98-107 | once users pause, taking the waiting events in any order ends within a number of deliveries fixed at the start, and then all pairs agree |
| NaturalKeys.OneToOneExactly | src/engine/reconciler.ts:300-344 | a reconciliation that writes keeps the link table one-to-one if and only if the match check passed before it |
| NaturalKeys.KeysMatchOk | src/engine/reconciler.ts:300-344 | with keys present and unique per side the match check always passes |
| NaturalKeys.ReconcileKeepsKeys | src/engine/reconciler.ts:161-203 | a reconciliation keeps keys present and unique, keeps every source-side key, and writes the source's key to the target |
| Protocol.ReconcileFilesKeys | src/engine/reconciler.ts:300-344 | and, whatever its outcome, leaves the key index in order |
| SharedKey.SecondTakesOver | src/engine/reconciler.ts:307-314 | an unlinked record whose key is filed under a link with other content goes through that link, unless a required field is missing, and leaves the table not one-to-one |
| SharedKey.SharedKeyBreaks | src/engine/reconciler.ts:307-314 | and it happens: two records of one side with the same key |
| SeedRuns.NoDuplicates | src/engine/reconciler.ts:300-344 | in any run in which users keep keys stable, each side always holds at most one record per key and links join equal keys |
| SeedRuns.DisciplinedConverges | src/engine/reconciler.ts:91-212 | when such a run goes quiet, both sides hold the same keys, one record each, and the two records of a key are paired and agree |
| SeedRuns.PassSettles | src/engine/reconciler.ts:91-212 | reconciling some records of one side one after another syncs them all, keeps their keys, and gives the other side at most those |
| SeedRuns.SeedBothWays | src/engine/reconciler.ts:91-212 | doing so once per direction pairs every record and leaves exactly the union of the keys on both sides |
| SeedRuns.SeedAgainChangesNothing | src/engine/reconciler.ts:98-107 | doing it again for either side, any records in any order, changes nothing at all |
| MigratedSeed.MigrationSeeds | src/engine/migrationEngine.ts:79-138 | a real migration of a whole listing, with pages fetched first, every record previewed and ambiguous ones left out, ends in the world of that pass, and no record fails |
| MigratedSeed.MigratedBothWays | src/engine/migrationEngine.ts:79-138 | migrating once per direction pairs every record and leaves exactly the union of the keys on both sides |
| MigratedSeed.MigratedAgain | src/engine/migrationEngine.ts:79-138 | migrating a side that is in step, dry or real and in whatever surroundings, changes nothing at all |
| CrashRetry.CrashRetryEquivalence | src/engine/reconciler.ts:110-203 | cut off after any external write and retried, a run ends with the same digests on both records and no further record, except in exactly one case |
| CrashRetry.CrashRetryContents | src/core/idMap.ts:50-56 | and, where the digest can be trusted, with the winner's contents in both records |
| CrashRetry.OnlyMergesMisread | src/engine/reconciler.ts:110-147 | that case needs the field-merge strategy |
| CrashRetry.MergeMisreads | src/core/conflict.ts:77-99 | and it happens: a concrete pair whose merge restores the content last synced |
| CrashRetry.RetryDiverges | src/engine/reconciler.ts:110-203 | on that pair a run cut off after the target write and retried does not end as the whole run does |
| CrashRetry.OneTargetExactly | src/engine/reconciler.ts:327-342 | a retry after the target write creates no second record if and only if a link or a natural key leads back to the first |
| Confluence.ConfluentExactly | src/engine/reconciler.ts:110-147 | when both records changed, the order of the two deliveries does not matter if and only if nothing is left to the tie-break |
| Confluence.TieOrderMatters | src/core/conflict.ts:35-62 | and a tie does matter: two different edits in one instant under last-write-wins |
| Confluence.OnlyChangeWins | src/engine/reconciler.ts:110-147 | if only one record changed since the last sync, its content wins under every strategy |
| Confluence.FirstDeliveryDecides | src/engine/reconciler.ts:91-212 | the first delivery settles the pair and the second finds nothing left to do |
| Confluence.TruthPrevails | src/engine/reconciler.ts:110-203 | when both records changed, under source of truth the delivery of either event leaves in both what the configured system's record held, and the second event changes nothing |
| Confluence.LatestPrevails | src/engine/reconciler.ts:110-203 | under last write wins likewise what the later record held |
| Confluence.OwnerPrevails | src/engine/reconciler.ts:110-203 | under field merge both records agree, and an owned field has the value of the owner named by the last rule, if it has one |
| Confluence.FirstContact | src/engine/reconciler.ts:110-203 | a record that meets the only other record of its key for the first time is resolved against it, since no digest is recorded yet |
| Previews.PreviewPredicts | src/engine/reconciler.ts:214-344 | for an unknown record "create" means exactly one new record, "match" and "skip" mean none and the only candidate linked, "ambiguous" a refusal before any write; all unless the run would leave a required field blank, which refuses it |
| Previews.LinkedReport | src/engine/reconciler.ts:214-285 | for a record with a live linked record the plan is "skip" exactly when both hold the same fields, otherwise "conflict" exactly when a digest is recorded for that record and is not its present one, else "update"; the differences are listed field by field, source first |
| Previews.MatchedReport | src/engine/reconciler.ts:214-285 | the same for a record known by a link without a live target and matched by its key, where "match" replaces "update" if the link names no record; the plan announces the link |
| Previews.FirstMatchReport | src/engine/reconciler.ts:214-285 | a record no link knows that matches one other is a match, or already the same |
| Previews.UnmatchedReport | src/engine/reconciler.ts:214-285 | with no match the plan creates a record and lists every field of the source, warning if there is no key; several matches make it ambiguous and are counted |
| Previews.ConflictMeansContention | src/engine/reconciler.ts:110-147 | so a preview says "conflict" exactly when a reconciliation would resolve against the linked record and the two are not the same already |
| Previews.PreviewAfterReconcile | src/engine/reconciler.ts:214-285 | after a successful run a fresh preview is "skip" exactly when the pair's canonical records are identical, and otherwise "update" |
| Previews.PreviewUpdates | src/core/conflict.ts:77-99 | and an update happens: a merge that takes an empty text over a null |
| Echoes.EchoExactly | src/engine/reconciler.ts:98-107 | the event of the engine's own write is dropped as an echo if and only if the target reads the written record with the digest of what was written, for any tables |
| Echoes.CarriedIsEcho | src/engine/reconciler.ts:98-107 | so it always is when the target carries what was written |
| Echoes.EchoByFields | src/core/mapping.ts:113-130 | where the digest can be trusted, if and only if the target already held the text of every field that it was not sent |
| Echoes.LostEchoOverwrites | src/engine/reconciler.ts:110-203 | when it is no echo and the source has not changed, what the target reads is written over the source under every strategy, unless a required field would be left blank |
| Echoes.FieldSurvivesExactly | src/core/mapping.ts:113-130 | and a field that was not sent keeps its text in the source if and only if the target already held it |
| ReadOnlyFields.ReadOnlyErases | src/core/mapping.ts:113-130 | with a field that one system only reads, creating a record on the other side leads to two engine writes and the value the user entered is gone |
| ReadOnlyFields.ReadOnlyReverts | src/core/defaultObjects.ts:39-47 | and an edit of that field in a linked record is undone, likewise with two engine writes |
| EventStore.VendorIdsTell | src/engine/syncEventStore.ts:156-165 | events that carry a vendor's id have one identity if and only if they share system and id |
| EventStore.DigestsTell | src/engine/syncEventStore.ts:156-165 | events without one that agree on all but one thing they say have one identity if and only if they are the same, unless the digest collides on them |
| EventStore.OneJobPerIdentity | src/engine/syncEventStore.ts:55-78 | jobs and event identities correspond one to one |
| EventStore.EnqueueKeeps | src/engine/syncEventStore.ts:55-78 | a batch keeps that correspondence, forgets no job and adds only new ids |
| EventStore.EnqueueCovers | src/engine/syncEventStore.ts:55-78 | every event of a batch has a job afterwards, and it is the one answered |
| EventStore.EnqueueMakes | src/engine/syncEventStore.ts:55-78 | every job after a batch is an earlier one, unchanged, or says what one of the events says under that event's identity and is queued, due at once, with no attempt made |
| EventStore.NewEventsGetJobs | src/engine/syncEventStore.ts:55-78 | an event whose identity is new to the queue and to the batch before it gets such a job of its own |
| EventStore.BatchesCompose | src/engine/syncEventStore.ts:55-78 | two batches in a row are one concatenated batch |
| EventStore.EnqueueIdempotent | src/engine/syncEventStore.ts:55-78 | enqueueing events that all have jobs changes nothing |
| EventStore.ClaimTakesTurns | src/engine/syncEventStore.ts:80-95 | a claim takes as many due jobs as the limit allows, oldest first and in arrival order among equals, and leaves none behind that should have come first |
| EventStore.ClaimedWereDue | src/engine/syncEventStore.ts:80-95 | a claim takes only jobs that are queued or wait for a retry whose time has come |
| EventStore.InMemorySyncEventStore.Enqueue | src/engine/syncEventStore.ts:55-78 | the enqueue loop has the specified effect and answers |
| EventStore.InMemorySyncEventStore.ClaimJobs | src/engine/syncEventStore.ts:80-95 | claimed jobs are in processing with one attempt more, all others unchanged |
| EventStore.InMemorySyncEventStore.CountJobs | src/engine/syncEventStore.ts:145-149 | each figure is the number of jobs in that status |
| SyncEngine.SyncEngineService.ProcessJob | src/engine/syncEngine.ts:130-187 | handling a claimed job has the specified effect on the world and on the job; what that effect is, is stated in the rows of the JobOutcomes module |
| JobOutcomes.ChangeOutcome | src/engine/syncEngine.ts:166-187 | a vanished or unreachable record leaves both systems alone and the job waits for its retry or is dead-lettered; otherwise the record is reconciled, the job is in review if and only if no link knows the record and several others have its key, and completed if and only if the run was not refused and nothing after it failed |
| JobOutcomes.CompletedIsInStep | src/engine/syncEngine.ts:166-172 | a completed job leaves the record its event names in step with a live counterpart |
| JobOutcomes.DeleteOutcome | src/engine/syncEngine.ts:141-164 | a delete waits for an operator, is ignored, or is completed with the linked counterpart, and only that, removed |
| JobOutcomes.ApprovalOutcome | src/engine/syncEngine.ts:57-65 | approving a delete that awaits review removes exactly the linked counterpart and completes the job |
| JobOutcomes.SkippedOutcome | src/engine/syncEngine.ts:131-140 | an event that the settings leave out is completed and changes nothing |
| EngineRuns.CompletedMeansConverged | src/engine/syncEngine.ts:130-187 | over any run of users, events, claims, retries, replays and dismissals, once every change has been heard of and every job completed, every record has a counterpart with the same digest |
| EngineRuns.RunMirrors | src/engine/syncEngine.ts:130-187 | every run of the engine is a run of the protocol, with the same worlds and user writes |
| EngineRuns.EngineWritesBounded | src/engine/syncEngine.ts:130-187 | so from empty systems the engine never writes more often than users do, however often jobs are retried or replayed, and with every job completed all is in step |
| SyncEngine.SyncEngineService.PumpLoop | src/engine/syncEngine.ts:111-128 | the pump's loop stops, after turns that each claimed something, at a claim that finds nothing |
| SyncEngine.SyncEngineService.Approve | src/engine/syncEngine.ts:57-65 | refused unless the job is a delete awaiting review; then the counterpart is removed and the job completed |
| SyncEngine.SyncEngineService.DismissJob | src/engine/syncEngine.ts:69-79 | refused unless the job is dead-lettered, in review or waiting for a retry |
| SyncEngine.PumpStops | src/engine/syncEngine.ts:111-128 | the pump cannot take more turns than there is work, and leaves no job half-handled, whatever handling events does |
| SyncEngine.NothingDue | src/engine/syncEngine.ts:111-128 | when a pump's claim comes back empty, no job is due |
| SyncEngine.NoWorkMeansFinal | src/engine/syncEngine.ts:130-187 | nothing is left to do if and only if every job is completed, dead-lettered, in review or dismissed |
| SyncEngine.WorkCanGoOn | src/engine/syncEventStore.ts:80-95 | while work is left there is a job in hand or a late enough claim takes one |
| SyncEngine.EveryJobEnds | src/engine/syncEngine.ts:111-187 | with nothing in hand, rounds that claim late enough bring every job to a final status within as many rounds as there is work, whatever handling events does |
| SyncEngine.AttemptBound | src/engine/syncEngine.ts:173-183 | in any run without replays a job is claimed at most maxAttempts times (at least once), plus once per expired lease |
| SyncEngine.AlwaysFailing | src/engine/syncEngine.ts:173-183 | an always-failing job is retried after the scheduled waits and dead-lettered exactly when its attempts are used up |
| SyncEngine.ReplayStartsOver | src/engine/syncEventStore.ts:117-125 | a replayed job is due at once and has all its attempts and waits again |
| SyncEngine.TotalWaitClosed | src/engine/syncEngine.ts:181-183 | those waits total 500(2^(m-1)-1) ms up to eight attempts and 63500+60000(m-8) ms beyond |
| DeleteSafety.RemovalsAreApprovals | src/engine/syncEngine.ts:57-65 | unless deletes cascade, the records removed in any run are exactly, and in order, the counterparts named by approvals of deletes awaiting review, replays included |
| DeleteSafety.IgnoredNeverRemoved | src/engine/syncEngine.ts:141-164 | when deletes are ignored no run ever removes a record |
| DeleteSafety.DeleteHitsCounterpart | src/engine/reconciler.ts:287-298 | a propagated delete removes the linked counterpart and nothing else |
| Poller.PollCoverage | src/engine/syncPoller.ts:191-261 | over any run in which nothing is passed over, with edits mid-poll and polls failing before commit, every matching record whose version lies between the first window and the cursor has a job whose event says that this record of the polled system and type was updated at just that version's time, the cursor's own instant included if writes in a poll's first instant are timely; the cursor never moves back |
| Poller.StartReaches | src/engine/syncPoller.ts:199-204 | a poll goes through every matching record changed since the cursor, its instant included, and the first one through those of the look-back days |
| Poller.EnqueueTells | src/engine/syncPoller.ts:211-225 | enqueueing what a poll has found leaves, for each version, a job whose event tells of it, and no earlier job says anything else than before |
| Poller.TieMissed | src/engine/syncPoller.ts:191-261 | a concrete run in which an edit in the instant the poll began has no job yet |
| Poller.KeepOrSkip | src/engine/syncPoller.ts:191-261 | a write or removal keeps the invariant if and only if no record on a page already read leaves the listing, or none waits in the place that is then skipped; and, for the cursor's own instant, a write in a poll's first instant concerns a version that has a job or that the poll has read or still will |
| Poller.SkippedForGood | src/engine/syncPoller.ts:211-261 | after such a departure, however many pages are left, the poll commits a window in which one version has no job |
| Poller.SkipHappens | src/connectors/mock/mockConnector.ts:69-87 | and it happens, with one record more than fits a page |
| Poller.SyncPoller.CollectVersions | src/engine/syncPoller.ts:211-228 | the paging loop collects every listed version exactly once, in listing order |
| Poller.SyncPoller.PollOne | src/engine/syncPoller.ts:191-261 | one event for every listed version is enqueued, then the time the poll began is committed; every new job tells of a version found, and every version found then has a job that tells of it |
| CdcWorker.PersistBeforeCommit | src/connectors/salesforce/cdcWorker.ts:66-83 | over any crashes and reconnections every envelope up to the committed replay id has a job that says what the envelope says, and none has two |
| CdcWorker.EnvelopesDiffer | src/connectors/salesforce/cdcWorker.ts:72-76 | different envelopes of a topic are different events to the queue |
| CdcWorker.SalesforceCdcWorker.Consume | src/connectors/salesforce/cdcWorker.ts:66-83 | every delivered envelope has been enqueued and the last one's replay id committed; every new job says what one of the envelopes says |
| Migration.RunBalances | src/engine/migrationEngine.ts:88-135 | read = reconciled + errors, the action figures add up to the reconciled records, and each figure is the number of reported plans with that action |
| Migration.DryRunWritesNothing | src/engine/migrationEngine.ts:104-108 | a dry run leaves both systems and the links as they were |
| Migration.DryOutcome | src/engine/migrationEngine.ts:104-108 | a dry run reports exactly the preview of each record that can be looked up |
| Migration.DownOutcome | src/engine/migrationEngine.ts:114-131 | with the target out of reach a record is reported as failed and nothing changes |
| Migration.AmbiguousOutcome | src/engine/migrationEngine.ts:104-131 | a real run leaves a record that several match alone and reports it as failed, saying how many |
| Migration.ReconciledOutcome | src/engine/migrationEngine.ts:104-131 | every other record is reconciled, reported by its preview when that goes through and as failed with the refusal when not |
| Migration.MigrationKeepsListing | src/engine/migrationEngine.ts:88-135 | previewing or migrating records never changes which records the source lists, or in what order |
| Migration.MigrationEngine.RunType | src/engine/migrationEngine.ts:79-138 | the paging loop reads the source's records in order, each exactly once and as it is when its page is fetched, as many as the limit says or all there are, and stores exactly the plans it reports |
| Migration.MigrationEngine.Run | src/engine/migrationEngine.ts:60-151 | over all types the stored plans are the reported ones, every type reads its whole listing up to the limit, its figures balance, and for distinct types they account for every plan |
| Migration.TypesReady | src/engine/migrationEngine.ts:88-135 | what a run asks of its handlers holds for dry and real runs alike |
| FrozenExecution.StopsAtFirstFailure | src/engine/migrationEngine.ts:257-271 | records are processed in frozen order up to the first that fails, with figures equal to that prefix and the world that prefix leaves |
| FrozenExecution.FingerprintsTell | src/engine/migrationEngine.ts:286-298 | two plans have one fingerprint if and only if they differ in the internal id at most |
| FrozenExecution.FrozenEngine.Verify | src/engine/migrationEngine.ts:210-231 | the first phase accepts if and only if every frozen plan equals, but for the internal id, a preview of the record as it is now; a rejection says why, and names the first plan that differs or whose record is gone |
| FrozenExecution.FrozenEngine.ExecutePreview | src/engine/migrationEngine.ts:210-283 | rejected with both systems and the links untouched, for the reason given, or all plans equal to previews taken before the first write and the frozen prefix processed |
| FrozenExecution.ExecutedInStep | src/engine/migrationEngine.ts:257-271 | once every frozen record has had its turn and its write went through, each of them is in step with a live counterpart |
| PlanStore.ReachablePlans | src/engine/migrationPlanStore.ts:104-184 | in every reachable store a preview or canary belongs to the current revision, and a save for it with no update since stands behind it |
| PlanStore.StartsOnlyPreviewed | src/engine/migrationPlanStore.ts:178-184 | an execution starts only at a revision that was previewed and not updated since |
| PlanStore.StaleWritesRejected | src/engine/migrationPlanStore.ts:125-184 | once a plan has been updated, every later write that carries a revision seen before the update changes nothing |
| PlanStore.RevisionsGrow | src/engine/migrationPlanStore.ts:104-123 | a plan's revision grows by one with every update and by nothing else |
| PlanStore.LastSetStands | src/engine/migrationPlanStore.ts:104-190 | in every reachable store each part of a plan is what the last accepted write to that part set |
| PlanStore.PlanHolds | src/engine/migrationPlanStore.ts:104-190 | so it has the input last given, the status of the last step taken, the schema digests, preview and outcome saved since, and a canary verified only by a run finished since it was previewed |
| RateLimiter.GrantClosedForm | src/core/rateLimiter.ts:11-18 | the k-th grant is the maximum over j of arrival j plus k - j intervals |
| RateLimiter.WindowBound | src/core/rateLimiter.ts:11-18 | a window of length w contains at most floor(w / interval) + 1 grants |
| RateLimiter.NoLaterThanNeeded | src/core/rateLimiter.ts:11-18 | every schedule that serves nobody early and keeps the spacing is at least as late |
| RateLimiter.RateLimiter.Serve | src/core/rateLimiter.ts:11-18 | a fresh limiter grants requests at the scheduled times |
| ObjectRegistry.BaseKeyWellShaped | src/core/objectRegistry.ts:78-84 | a base key is non-empty lower-case text with single underscores and none at either end |
| ObjectRegistry.KeyCharacters | src/core/objectRegistry.ts:78-84 | keys are made of small letters and digits besides the underscores |
| ObjectRegistry.BaseKeyKeeps | src/core/objectRegistry.ts:78-84 | it keeps every letter and digit of the name, in order and in lower case; a name without any is called object |
| ObjectRegistry.KeyIsItsKey | src/core/objectRegistry.ts:78-84 | a name that is a key already is its own key |
| ObjectRegistry.LastStands | src/core/objectRegistry.ts:19-24 | after configuring a list of registrations the last one of each key stands |
| ObjectRegistry.DecimalInjective | src/core/objectRegistry.ts:85-87 | different suffix numbers are written differently |
| ObjectRegistry.DecimalReads | src/core/objectRegistry.ts:85-87 | and in the decimal digits that stand for it |
| ObjectRegistry.Registry.FreeSuffix | src/core/objectRegistry.ts:85-87 | the suffix loop stops within as many probes as there are entries, at the least free suffix |
| ObjectRegistry.Registry.Slugify | src/core/objectRegistry.ts:78-88 | the key is unregistered: the base itself, or the base with the least free suffix |
| ObjectRegistry.Registry.RegisterAll | src/core/objectRegistry.ts:26-28 | registering any labels under the keys they are given never overwrites an entry |

## Left out

- Poller.PollCoverage: for runs in which no step passes a record over; KeepOrSkip says exactly which steps do.
- CrashRetry.CrashRetryEquivalence: asks that the write's clock is not behind either record, and that a link or a key that survives the merge leads back to the target; OneTargetExactly and MergeChangesKey say what happens otherwise.
- SyncRuns.Convergence: for runs whose deliveries pass the match check and in which nothing is deleted, because a deleted and re-created record is not recognized by the code.
- EngineRuns.CompletedMeansConverged: for runs without propagated deletes, in which every handled record passes the match check, as in the protocol; that all jobs do get completed, rather than parked, is an assumption there.
- Connector.MockConnector.FindByNaturalKey: follows the connector contract (all candidates), where the in-memory CRM looks at its first page only.
- Migration.MigrationEngine.RunType: works on values for the two systems and the links, and on the store object for the recorded plans; a listing that throws, which fails the run, is not modelled.
- FrozenExecution.FrozenEngine.ExecutePreview: likewise takes and returns the systems as values.
- One canonical object type at a time: the type is part of several index keys in the source and is constant here, except in the loop of a migration over types.
- Links are copied when looked up, as the PostgreSQL store does; the file store hands out its own object, so that changes made before a failed write are already visible there.
- Natural and stored texts are lower-cased in ASCII and field names sorted by code point; URL, date and number parsing and number formatting are uninterpreted.
- Dotted native paths read as null, since stored records are flat; other non-scalar native values do not occur.
- A pump handles the jobs of one claim one after another, where the source starts them together; store operations are atomic.
- A failed event handler stands for every thrown error; the vendor's error texts and their translation are not part of this model.
- Polled deletions, the poller's schedule, its history of the last twenty runs and its guard against overlapping polls.
- Runs of the protocol contain rejected writes but no healed ones: SelfHeals covers a single run, after which the old id stays in the source index.
- Fields that one system only reads are outside the runs of the protocol; the echo lemmas say what they do to one exchange.
- Preparing a one-record canary preview, the schema cache and its lifetime, association syncing beyond its failing, governance and activity logs.
- HTTP routes, dashboards, OAuth, the real connectors, PostgreSQL repositories, encryption, email and the Copilot.
