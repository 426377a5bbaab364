# FunHouse sync, entitlement, auth and load: a verified model

This project models the offline-first core of the FunHouse Operating System and
proves what it is built for: a browser queue whose every write reaches the server
once, a metered balance that is never overdrawn or double-drawn, logins that never
overwrite newer ones, and a batch load that can be repeated.

`dafny verify dfyconfig.toml` checks everything.

## How it is organised

| module | what it holds |
|---|---|
| `Basics`, `Calendar`, `Schema` | text normalisation and string order; dates, months and weekly periods; tables, audit log, wire messages and the database connection |
| `Rbac`, `Mapping`, `Dedup`, `Resolution` | scopes; natural keys; player identity and the batch resolver |
| `Engine`, `EagerReset`, `ConcurrentDraws` | entitlement units, windows and draws; the lazy reset against an eager reference; draws as interleaved transactions |
| `Service`, `Admission`, `Effects`, `Accounting` | the sync service, action by action and batch by batch; which actions it takes, skips and turns away; what an acknowledged action wrote and where; what a batch costs |
| `Replay`, `Idempotence`, `Arrivals`, `LastWrite` | what no action undoes; why sending again is harmless; exactly when the order of arrival does not matter |
| `LocalStore`, `SyncEngine`, `Drain` | the guarded device queue; one flush; how flushes drain it |
| `EndToEnd`, `FlushRuns`, `Verdicts` | the whole protocol as a state machine over client and server; the flush procedure as one of its runs; the queue's marks as the server's answers |
| `Calculator` | the optimistic balance and the promise it makes |
| `Auth`, `AuthProgress` | logins, restores and revocations across tabs: what no run can do, and what each brings about |
| `Quarantine` | legacy plaintext rows on their way into sealed storage |
| `Loader`, `LoadedRows` | the idempotent batch load; what a loaded row says |

Code that computes a value is a function; code that changes a connection, a store,
a manager or a result is a class with methods. Each such method is proved against
a specification function of the old state (`DrawEntitlement` against `Drawn`,
`ApplyBatch` against `BatchApplied`, `Flush` against `Flushed`, `LoadCleanRecords`
against `Loaded`), and the theorems are about those functions and about runs of
them. Protocols (`EndToEnd`, `ConcurrentDraws`, `Auth`, `Quarantine`) are state
machines whose steps are the source's atomic turns: between two awaits, or one
transaction.

## Modelling choices

- A table is a sequence whose rows are never removed; a row's id is its index. The
  four natural-key tables are one sequence, each row carrying its entity.
- A connection holds what is committed and what the open transaction sees; commit
  and rollback copy one over the other, and a savepoint is a saved copy.
- SHA-256 is injective, so a key is the text that would be hashed. Random ids
  (client ids, session markers) are fresh. Encryption is a sealed value; a sealed
  tuple that cannot be read back is `Garbled`.
- An instant is an integer together with the calendar day it falls on at the
  location. Text normalisation is over ASCII letters and blanks.
- How the audit append behaves is an input of each action: it works, the signature
  fails inside its savepoint, or it breaks and raises.
- The server applies actions one at a time, in any order over all requests. Draws
  are also modelled as concurrent transactions, because the source locks their row.
- In `EndToEnd` a tab's flush is the set of rows it has read, answers it has
  received and ids it has learned, and it may act on any of them at any moment
  while its login is current; the order the engine really takes is one of these
  runs (`FlushRuns.FlushIsARun`). Other devices are steps that serve any action under any scope.
- In `Auth` waiting for an earlier cleanup before a login or restore begins is not
  enforced, so the runs proved safe include all the real ones and more.

## Where code and documentation differ

- `funhouse_api/sync/service.py:136-140` calls the winner order order-independent.
  The comparison is; the row is not always. An action whose insert is possible but
  whose edit is not (attendance without `present`), or the other way round (a school,
  lesson or product nobody knows), is stored or rejected depending on when it
  arrives, and a session's reference that the winner omits is whatever was there
  (`LastWrite.OrdersAgreeIff`, `LastWrite.OrdersAgreeOnRowIff`; inputs in
  `LastWrite.OmittedPresentDiverges`, `LastWrite.UnknownSchoolDiverges` and
  `LastWrite.OmittedReferenceDiverges`).
- A facilitator's edit is not tested against the school the stored row is filed under
  (`Effects.SchoolScopeIff`, `Effects.ForeignSchoolEdited`).
- A registration is found again by its name prefix, and a name may contain the key
  separator; then an acknowledged registration that is sent again can be rejected
  (`EndToEnd.AcknowledgedIsFinal`, `Idempotence.SeparatorBreaksReplay`), and a batch
  that is loaded again can flag a player it resolved the first time
  (`Loader.LoadAgain`, `Loader.SeparatorLoadedTwice`). Natural keys have the same gap
  between neighbouring fields (`Mapping.SeparatorMovesBetweenFields`).
- The loader promises idempotence for every table; consent records in the batch are
  appended again (`Loader.ConsentLoadedTwice`).
- The client permits a draw of any amount on an unlimited balance; the server
  refuses amounts that are not positive (`Calculator.UnlimitedHonouredIffPositive`).
- `web/src/domain/authManager.ts:489-490` says that a change of lifecycle during any await
  of a restore wins. It does everywhere but where the stored scope turns out forged: that
  branch (440-449) signs the tab out without comparing lifecycles, so a login begun in the
  meantime is overtaken (`AuthProgress.LateRestoreTouches`).
- Migration out of quarantine does not look whether its target key is free
  (`Quarantine.LosesIff`, `Quarantine.LateWriteIsLost`).

## Model

| member | source | states |
|---|---|---|
| `EndToEnd.EveryRun` | web/src/domain/syncEngine.ts:205-414 | Over every run of any number of tabs, requests, losses, retries, crashes, logins and other devices: no captured action leaves the queue; a pending row changes only under a growing revision, keeps its owner, client id, capture time and kind, and differs only in resolved references; a row with an answer never changes again; an acknowledged row is held by the server; every row is the captured action with local references replaced only by the server's own row of that very local action; each client id draws at most once; consents, entitlements, natural keys and receipts stay unique; a committed id mapping is never lost or changed |
| `EndToEnd.StepKeepsInv` | web/src/domain/syncEngine.ts:329-414 | Each of the eighteen steps keeps the joint client and server invariant and only moves forward (tables extend, pending rows change only under a revision guard) |
| `EndToEnd.AcknowledgedIsFinal` | funhouse_api/sync/service.py:210-291 | At any moment of any run, an acknowledged row sent again under its owner's token is answered skipped and changes no business table; a registration does so if and only if no other key of the players table starts with its name and the separator, and otherwise it is rejected with the tables as they were |
| `EndToEnd.OnlyOwnRows` | web/src/domain/syncEngine.ts:329-370 | Through logout, expiry and account replacement: every batch holds only rows of the owner whose token it is sent under, and a queue row changes only at the hands of a tab signed in as that row's owner |
| `Verdicts.MarkedAsAnswered` | web/src/domain/syncEngine.ts:389-414 | Over every run: a row marked applied, skipped or rejected was answered in just that way by the server, at an earlier step of the run, to the very action the row holds and under its owner's token; a rejected row carries the server's reason |
| `EndToEnd.OrphanStays` | web/src/domain/syncEngine.ts:389-414 | A row that was marked answered while no map and no flush still signed in knows its server id is never learned by any later step |
| `EndToEnd.EndingBeforeSavingOrphans` | web/src/domain/syncEngine.ts:253-256 | A flush that ends, or whose tab signs out or signs in as another, between marking a row and saving its id leaves such a row, unless another flush or map has the id |
| `EndToEnd.OrphanForever` | web/src/domain/syncEngine.ts:471-509 | A queued row that refers to such an orphan refers to it for ever: no run resolves the reference |
| `FlushRuns.OrphanIffNeverMapped` | web/src/domain/syncEngine.ts:389-414 | The id of an answered row gets into a stored map in some continuation if and only if the row is not such an orphan |
| `EndToEnd.ServedStep` | funhouse_api/sync/service.py:247-291 | Serving one action from any device: uniqueness kept, nothing undone, an acknowledgement names the row that holds the action, an applied draw is that client id's first |
| `EndToEnd.DrawnRecords` | funhouse_api/sync/service.py:447-489 | The draws on record are exactly those the server has answered as applied |
| `EndToEnd.WorldIsFree` | web/src/domain/syncEngine.ts:205-414 | Nothing in the protocol holds the world back: sign-ins, sign-outs, captures, flushes, losses and other devices are possible at any moment, and do just that |
| `EndToEnd.SaveSteps` | web/src/store/localStore.ts:970-989 | A metadata write guarded by the revision it read keeps every mapping committed in between, with its value |
| `FlushRuns.FlushIsARun` | web/src/domain/syncEngine.ts:205-305 | The flush procedure refines the protocol: from any state of a run a signed-in tab may flush undisturbed, and the queue, id maps and server tables the engine then leaves are reached by the protocol's own steps; each request that is made meets the server as the one before left it, and is answered exactly as the server's batch procedure answers it or fails after any number of its rows were served |
| `FlushRuns.Exchange` | web/src/domain/syncEngine.ts:329-414 | One request, served row by row and reconciled answer by answer, leaves the queue, the learned ids and the server as transmitting the batch does |
| `FlushRuns.LostExchange` | web/src/domain/syncEngine.ts:425-431 | One request of which the server serves any number of rows and the device hears nothing leaves every row of the batch unsynced with one more attempt |
| `FlushRuns.ServerDrains` | web/src/domain/syncEngine.ts:205-305 | Two undisturbed flushes against the modelled server, none of whose answers is a rejection, leave every unsynced row of the owner applied or skipped |
| `LocalStore.Store.EnqueueAction` | web/src/store/localStore.ts:519-534 | A capture adds one unsynced row at revision 1 under its fresh client id and changes no other row |
| `LocalStore.Store.CommitPreparedCapture` | web/src/store/localStore.ts:831-851 | Local records and their queue rows are committed together exactly when the owner is still current at every check, and otherwise nothing is written |
| `LocalStore.CapturedMeaning` | web/src/store/localStore.ts:831-851 | Each capture is queued once, as it was made, and no other row is touched |
| `LocalStore.Store.PutAction` | web/src/store/localStore.ts:641-665 | The row is replaced, one revision on, exactly when owner and revision are still those that were read; otherwise nothing changes |
| `LocalStore.Store.BumpActionAttempt` | web/src/store/localStore.ts:671-685 | The attempt is counted exactly when the stored row is the owner's, unsynced and at the expected revision, so a stale write never overwrites an answered row |
| `LocalStore.Store.UpdateActionStatus` | web/src/store/localStore.ts:687-703 | The answer lands, one revision on, exactly on the row version it was asked for; the row is then applied, skipped or rejected if and only if the answer was, with the answer's reason if rejected |
| `LocalStore.Store.MergePlayers` | web/src/store/localStore.ts:1027-1044 | However many rival merges commit first, the retrying merge ends with all of them and its own additions in the map |
| `LocalStore.Store.MergeSessions` | web/src/store/localStore.ts:1027-1044 | The same for the session map |
| `LocalStore.MergesKeepEveryMapping` | web/src/store/localStore.ts:1027-1044 | After any sequence of merges every key ever merged is present |
| `LocalStore.ResolvingKeepsTheRest` | web/src/domain/syncEngine.ts:471-509 | Rewriting a resolved reference changes nothing of the action but that reference |
| `SyncEngine.Engine.ReadPending` | web/src/store/localStore.ts:583-586 | The batch source is exactly the owner's unsynced rows in capture order |
| `SyncEngine.SortOrdered` | web/src/store/localStore.ts:364-366 | The order really is by capture time, then client id |
| `SyncEngine.Engine.ApplyStoredResolutions` | web/src/domain/syncEngine.ts:471-489 | Exactly the owner's unsynced rows whose player is in the stored map are rewritten, to the mapped id |
| `SyncEngine.Engine.ApplyStoredSessionResolutions` | web/src/domain/syncEngine.ts:491-509 | The same for attendance rows and the session map |
| `SyncEngine.Engine.Partition` | web/src/domain/syncEngine.ts:221-245 | The snapshot splits into rows that may go now and rows that name a player or session still unsynced in it |
| `SyncEngine.Engine.Transmit` | web/src/domain/syncEngine.ts:329-414 | One request: every row of the batch is marked as the answer to it says, or has one more attempt if there was none; a failed request changes attempt counters only, and the tallies count exactly the rows that became applied, skipped and rejected |
| `SyncEngine.TransmitMeaning` | web/src/domain/syncEngine.ts:389-431 | After a request a row of the batch is applied, skipped or rejected if and only if the response has exactly that status for it, with the server's reason if rejected, and otherwise unsynced with one more attempt; nothing else of it changes, and no other row |
| `SyncEngine.TalliesCountRows` | web/src/domain/syncEngine.ts:389-414 | The three tallies are the numbers of rows that became applied, skipped and rejected |
| `SyncEngine.LearnedMeaning` | web/src/domain/syncEngine.ts:396-404 | The ids learned of one kind are exactly those that acknowledgements issue for rows of that kind |
| `SyncEngine.ReportMeaning` | web/src/domain/syncEngine.ts:205-305 | A flush reports unauthorized, or cut off, if and only if its last request was, and empty if and only if nothing was pending |
| `SyncEngine.Engine.RetainAll` | web/src/domain/syncEngine.ts:425-431 | After a failure every row of the batch is still unsynced with one more attempt |
| `SyncEngine.Engine.Flush` | web/src/domain/syncEngine.ts:205-305 | A whole flush leaves the device and the report that the two-phase specification gives for the two responses |
| `SyncEngine.TalliesAddUp` | web/src/domain/syncEngine.ts:368-414 | Every row attempted is counted exactly once: applied, skipped, rejected, or left for a retry |
| `Drain.NothingWaitingIsSent` | web/src/domain/syncEngine.ts:219-283 | No row of either batch refers to a player or session that is unsynced in the flush's snapshot, whatever the responses |
| `Drain.OneFlush` | web/src/domain/syncEngine.ts:205-305 | After one flush against a server that acknowledges everything only attendance can still be pending, and whatever is no longer pending is applied or skipped |
| `Drain.TwoFlushesDrain` | web/src/domain/syncEngine.ts:205-305 | Two flushes whose batches are acknowledged drain any player to session to attendance queue, in any capture order: every row is still in the queue, every pending one is applied or skipped, every other one as it was |
| `Service.ApplyBatch` | funhouse_api/sync/service.py:210-244 | Each action runs in its own transaction in order; an exception becomes that action's rejection and its partial work is rolled back |
| `Service.ApplyAction` | funhouse_api/sync/service.py:247-291 | Role and entity refusals come before any table is read; every other action is committed as its handler specifies |
| `Admission.CaptureAnswer` | funhouse_api/sync/service.py:588-693 | The whole answer to a capture, in terms of scope, payload and rows alone: rejected (and without effect), skipped (and only logged) or applied, each if and only if |
| `Admission.RegistrationAnswer` | funhouse_api/sync/service.py:299-370 | The whole answer to a registration: which are turned away, which find their person, and which add one |
| `Admission.ConsentAnswer` | funhouse_api/sync/service.py:378-439 | The whole answer to a consent |
| `Admission.SaleAnswer` | funhouse_api/sync/service.py:490-526 | The whole answer to a sale |
| `Admission.DrawAnswerMeaning` | funhouse_api/sync/service.py:447-489 | The whole answer to a draw, with the reason of every refusal |
| `Admission.LaterMeaning` | funhouse_api/sync/service.py:128-152 | The later action wins by time, on a tie the greater client id; any time is later than none |
| `Admission.RoleMeaning` | funhouse_api/sync/service.py:247-291 | A facilitator may send attendance, metrics and three of the four session types and nothing else; nobody may send an unknown entity |
| `Admission.ScopeMeaning` | funhouse_api/rbac.py:119-141 | A founder reaches everything, a manager the own location, a facilitator the own school of the own location |
| `Admission.DeriveMeaning` | funhouse_api/rbac.py:67-96 | Which claims give which scope, and which none |
| `Admission.StampMeaning` | funhouse_api/rbac.py:143-157 | A new row is stamped with the scope's own location and school where the scope has one |
| `Service.ApplyPlayer` | funhouse_api/sync/service.py:299-370 | Registration through dedup: stamped, scoped, committed with its audit entry or not at all |
| `Service.ApplyConsent` | funhouse_api/sync/service.py:378-439 | A re-sent consent is found by client id; a new one is appended with its audit entry or not at all |
| `Service.AppendConsent` | funhouse_pipeline/load/consent.py:107-197 | The ledger row and its audit entry are appended together or neither is |
| `Service.ApplyEntitlement` | funhouse_api/sync/service.py:447-526 | A draw or a create, each under the scope of the row it touches |
| `Service.ApplyNaturalKey` | funhouse_api/sync/service.py:588-693 | Insert, update or skip by natural key and winner order, after all refusals |
| `Service.InsertNatural` | funhouse_api/sync/service.py:696-752 | The insert and its audit entry commit together; a constraint violation commits neither |
| `Service.UpdateNatural` | funhouse_api/sync/service.py:755-790 | Only the mutable columns and the winner pair change, together with the audit entry |
| `Effects.ConsentEffect` | funhouse_api/sync/service.py:378-439 | An applied consent is exactly one more ledger row, with the payload's player, type, method, the default grant, and its client id, and one log entry |
| `Effects.RegistrationEffect` | funhouse_api/sync/service.py:299-370 | An applied registration is exactly one more player row: its key spelled from the payload's names and birth date, each column from its own field, the caller's stamp, inside the caller's scope; a skipped one fills exactly the null columns of the row with that key; either is logged as what it was |
| `Effects.SaleEffect` | funhouse_api/entitlements/engine.py:347-442 | An applied create is exactly one more active entitlement, with 60 units for each hour of the rule's hours per week, else of its hours, else its units, else its sessions, unlimited only without any of them; starting today or on the reset day by name, ending as the rule says; logged and receipted under its client id |
| `Effects.DrawEffect` | funhouse_api/entitlements/engine.py:573-673 | An applied draw takes exactly its amount from the balance of its period (the stored one, or the units a period grants if a reset day has passed), leaves every other row, and appends exactly one entry: a signature if it decremented, a skip if unlimited |
| `Effects.CaptureEffect` | funhouse_api/sync/service.py:696-752 | A first capture becomes exactly one row, column by column from its payload: duration and reference, the mark with its default, amount and method, metric and value, lesson and identity fields; attached to the player it names and to a session of that same player, at the player's location and inherited school, and logged as an insert |
| `Effects.EditEffect` | funhouse_api/sync/service.py:755-790 | An edit changes the editable columns to the payload's (a session keeps the reference it does not mention) and the winner pair, nothing else of the row and no other row, and is logged as an update |
| `Effects.WritesStayInScope` | funhouse_api/rbac.py:119-157 | Every consent, entitlement or natural-key row an action adds or changes, by an edit too, lies at a location the author's scope covers |
| `Effects.PlacedStep` | funhouse_api/sync/service.py:696-790 | Every action keeps every record keyed under its own table and player, and at its player's location |
| `Effects.KeyNamesPlayer` | funhouse_api/sync/mapping.py:168-210 | A natural key names one table and one player, so an edit only ever reaches a record of the player the action names |
| `Effects.NaturalInScope` | funhouse_api/sync/service.py:588-693 | Each record a natural-key action writes is of a player inside the author's scope; a facilitator's new session or attendance row is in the facilitator's school, an edited one stays in the school it was filed under |
| `Effects.SchoolScopeIff` | funhouse_api/sync/service.py:665-684 | All rows a facilitator's capture writes are in the facilitator's school if and only if no row of that key was filed under another school before |
| `Effects.ForeignSchoolEdited` | funhouse_api/sync/service.py:755-790 | The concrete run in which a facilitator edits a session the founder filed under another school |
| `Accounting.BatchAccounted` | funhouse_api/sync/service.py:210-244 | One answer per action in order; the log grows by exactly the number of applied plus skipped answers |
| `Accounting.ActionAccounted` | funhouse_api/sync/service.py:247-291 | A rejected action changes no business row, except that a rejected draw may leave its entitlement's due reset |
| `Rbac.StampedIsWritable` | funhouse_api/rbac.py:143-157 | A stamped row is always inside the scope that stamped it |
| `Rbac.CanWriteMonotone` | funhouse_api/rbac.py:119-141 | Filling in a missing school never takes a write permission away |
| `Schema.Connection.Append` | funhouse_pipeline/load/audit.py:50-127 | An audit entry is appended exactly when the audit works and the client-id receipt is not taken |
| `Replay.ActionStep` | funhouse_api/sync/service.py:299-790 | Every action of every kind, whatever comes of it, keeps the uniqueness of receipts, dedup keys, client ids and natural keys, and undoes nothing: rows stay, filled columns stay, winners only improve, ledger and log grow |
| `Replay.PrefersAsymmetric` | funhouse_api/sync/service.py:128-152 | The winner order is irreflexive and never prefers both ways |
| `Replay.NotPreferredTransitive` | funhouse_api/sync/service.py:128-152 | A row that has been overtaken is never preferred again |
| `Idempotence.ReplayIsNoOp` | funhouse_api/sync/service.py:299-693 | Once applied or skipped, an action resubmitted under the same scope after any further actions is skipped, changes no business table (not even by a due reset) and logs exactly one skip; for a player, when the names in play are free of the key separator |
| `Idempotence.PlayerReplayIff` | funhouse_pipeline/load/dedup.py:292-326 | A settled registration is skipped again exactly when its key is alone under its name; otherwise it is rejected and nothing changes |
| `Idempotence.SeparatorConfusesNames` | funhouse_pipeline/load/dedup.py:235-245 | Concrete names, one containing the separator, for which the prefix lookup confuses two people, so the condition is needed |
| `Idempotence.SeparatorBreaksReplay` | funhouse_pipeline/load/dedup.py:292-326 | The run from an empty table: two such people register, and the first one's registration, acknowledged before, is rejected when it is sent again |
| `Idempotence.AcknowledgedSettles` | funhouse_api/sync/service.py:299-790 | An acknowledgement leaves a durable row or receipt, and leaves the action admitted for its own scope |
| `Idempotence.DurableStays` | funhouse_api/sync/service.py:299-790 | No later action of anybody removes that trace |
| `Idempotence.AnswerNamesTrace` | funhouse_api/sync/service.py:104-117 | The record id in an acknowledgement is the id of the row that holds the action |
| `Idempotence.TraceStays` | funhouse_api/sync/service.py:104-117 | That id never changes |
| `Idempotence.DrawAppliesOnce` | funhouse_api/entitlements/engine.py:527-571 | A draw that takes effect had no receipt before and has one after |
| `LastWrite.OrdersAgreeIff` | funhouse_api/sync/service.py:665-790 | For any finite set of actions that pass the checks, on a key without a row: every order, with any repetitions, leaves the same winner and columns if and only if the strongest action able to make the row may also edit it (or alone can make it), beats every action that may edit it, and, if it omits a session's reference, no other action can have put one there before it |
| `LastWrite.OrdersAgreeOnRowIff` | funhouse_api/sync/service.py:679-790 | On a key with a row: if and only if the strongest action that may edit it supplies the reference or no other one changes it |
| `LastWrite.OrderIndependent` | funhouse_api/sync/service.py:128-152 | Under that condition any two such sequences store the same columns, those the strongest action would insert by itself |
| `LastWrite.WinnerIsStored` | funhouse_api/sync/service.py:679-693 | After any run of any actions by anyone, the row of a key loses to no acknowledged action on that key, and is the work of an applied one or the row that was there |
| `LastWrite.ArrivalMeaning` | funhouse_api/sync/service.py:679-790 | What one arrival does to the row and when it is rejected, exactly, the constraint violations included |
| `LastWrite.RunIsArrivals` | funhouse_api/sync/service.py:665-790 | The tables after any sequence of actions on a key follow the arrivals one by one |
| `LastWrite.FirstInsertFixes` | funhouse_api/sync/service.py:696-752 | The columns no edit touches are those of the first action whose insert is possible, whoever wins |
| `Arrivals.FreshOrdersAgreeIff` | funhouse_api/sync/service.py:128-152 | The condition for agreement on a fresh key, over sets of arrivals |
| `Arrivals.StoredOrdersAgreeIff` | funhouse_api/sync/service.py:128-152 | The condition for agreement on a stored row |
| `LastWrite.TwoOrdersAgreeIff` | funhouse_api/sync/service.py:679-790 | For two actions on a fresh key: if both can insert, both orders agree if and only if the winner may edit and does not omit a reference its rival carried; if only the loser can insert, if and only if the winner may not edit; otherwise always |
| `LastWrite.OmittedReferenceDiverges` | funhouse_api/sync/service.py:561-566 | The family of runs in which the stored reference depends on the order |
| `LastWrite.OmittedPresentDiverges` | funhouse_api/sync/service.py:755-773 | A concrete pair of attendance actions, the later without present, of which the one that arrives first stays |
| `LastWrite.UnknownSchoolDiverges` | funhouse_api/sync/service.py:755-773 | A concrete pair of sessions, the later naming an unknown school, of which the later wins only if it arrives second |
| `Mapping.KeysCollideIff` | funhouse_api/sync/mapping.py:168-210 | As soon as the identifying fields of one of them are free of the separator, two captures share a natural key exactly when they are of one table and agree, up to case and spacing, on every identifying field |
| `Mapping.SameKeyIffSameThing` | funhouse_api/sync/mapping.py:168-210 | Two captures share a key exactly when they are the same session, attendance, payment or metric: which fields count for which, the time of a metric and the cents of a payment among them |
| `Mapping.KeyText` | funhouse_api/sync/mapping.py:168-210 | The key of each table spelled out: table, identifying fields in order, source |
| `Mapping.SeparatorMovesBetweenFields` | funhouse_api/sync/mapping.py:184-210 | Two different sessions, both with the separator in a field, that do share a key |
| `Engine.DrawEntitlement` | funhouse_api/entitlements/engine.py:445-673 | The locked draw with its savepoint leaves committed exactly what the draw specification says, in every branch, including a reset kept by a rejected draw |
| `Engine.CreateEntitlement` | funhouse_api/entitlements/engine.py:347-442 | The row and its receipt are committed together or not at all |
| `Engine.WindowMeaning` | funhouse_api/entitlements/engine.py:203-243 | A recurring window starts on the named reset day, at most six days back, any other today; it ends the given number of days or calendar months after its start, clamped to the month, or never, as the rules say; the units are spelled out from the rule's fields |
| `Engine.ResetMeaning` | funhouse_api/entitlements/engine.py:255-296 | An aligned period start stays aligned, never moves back, and is due exactly when seven days have passed, restoring exactly the units of a period, spelled out from the rule's fields |
| `Engine.ResetIff` | funhouse_api/entitlements/engine.py:255-296 | For any stored start, aligned or not: a reset is due exactly when a period has begun since, restores the units of one whatever was left, and moves the start to the running period's |
| `Engine.AllowanceMeaning` | funhouse_api/entitlements/engine.py:106-146 | The units of a period in the rule's own fields (60 for each hour), and which rules recur |
| `Engine.ResetDayMeaning` | funhouse_api/entitlements/engine.py:149-175 | A period begins exactly on the weekday the rule names, on Sunday if it names none or no weekday |
| `EagerReset.LazyRefinesEager` | funhouse_api/entitlements/engine.py:573-673 | For any sequence of draws, even out of order in time, the lazy engine answers exactly as a reference account that restores its allowance at midnight of every reset day |
| `EagerReset.LiveUntilMeaning` | funhouse_api/entitlements/engine.py:255-296 | What living through any number of midnights does to the reference account |
| `EagerReset.MidnightMeaning` | funhouse_api/entitlements/engine.py:255-296 | The night before a day that begins a period restores exactly the units of one, spelled out, and no other night changes anything but the date |
| `EagerReset.NullStartNeverResets` | funhouse_api/entitlements/engine.py:289-291 | A null period start is reported as adopted but never stored, so such a row never resets |
| `ConcurrentDraws.DrawsAreSafe` | funhouse_api/entitlements/engine.py:505-673 | For every interleaving of lock, check, write and commit steps: units never negative, no client id draws twice even across entitlements, each period's start equals what remains plus what was taken, and decrements and signatures match one to one |
| `ConcurrentDraws.UninterruptedIsDraw` | funhouse_api/entitlements/engine.py:573-673 | Run without interruption, the interleaved steps commit exactly what the procedure commits |
| `ConcurrentDraws.DrawEntersBooks` | funhouse_api/entitlements/engine.py:573-673 | Such a draw enters the books exactly if it is applied, once, with its amount, client id and log entry, in the period it falls into; a period a reset opens starts with the units it grants, spelled out |
| `Calendar.PeriodStartUnique` | funhouse_api/entitlements/engine.py:161-175 | The period start is the only day with the anchor weekday among the seven ending today |
| `Calendar.WeekdayMeaning` | funhouse_api/entitlements/engine.py:161-175 | Weekdays follow each other, and a known date has its known weekday |
| `Calendar.MonthLengths` | funhouse_api/entitlements/engine.py:178-189 | The length of every month of the Gregorian calendar, leap years included |
| `Calendar.PeriodStartMonotone` | funhouse_api/entitlements/engine.py:161-175 | A later day never has an earlier period start |
| `Calendar.AddMonthsMeaning` | funhouse_api/entitlements/engine.py:178-189 | Adding months always gives a real Gregorian date in the right month, on the anchor day or the last day of a shorter month |
| `Calendar.PreviousDayIsOneEarlier` | funhouse_api/entitlements/engine.py:178-189 | The day before any date, which gives a month its last day, is the date one day number earlier |
| `Calendar.DateRoundTrip` | funhouse_api/entitlements/engine.py:161-189 | Dates and day numbers are two forms of the same thing |
| `Calendar.AddMonthsMonotone` | funhouse_api/entitlements/engine.py:178-189 | A later anchor never gives an earlier result |
| `Calendar.AddMonthsSpan` | funhouse_api/entitlements/engine.py:178-189 | Non-negative months span between 28 and 31 days each |
| `Calendar.AddMonthsComposes` | funhouse_api/entitlements/engine.py:178-189 | The exact condition under which adding in two parts equals adding at once |
| `Calendar.AddMonthsComposesUpTo28` | funhouse_api/entitlements/engine.py:178-189 | For anchor days up to 28 it always does |
| `Resolution.ResolvePlayers` | funhouse_pipeline/load/dedup.py:248-328 | The batch procedure leaves the table and the result its specification gives, or raises where that does |
| `Resolution.ResolveKeepsOneRowPerName` | funhouse_pipeline/load/dedup.py:248-328 | From a table with at most one row per name, resolving any batch of plain names keeps it so |
| `Basics.SlugPlain` | funhouse_pipeline/load/dedup.py:101-105 | Normalising never introduces the key separator, so a name written without it is plain |
| `Basics.SlugIgnoresCase` | funhouse_pipeline/load/dedup.py:101-105 | Texts that differ in the case of letters only normalise alike |
| `Basics.SlugIgnoresBlanks` | funhouse_pipeline/load/dedup.py:101-105 | Any run of blanks counts as one space, and blanks at the ends for nothing |
| `Basics.SlugKeepsWords` | funhouse_pipeline/load/dedup.py:101-105 | Small words with single spaces between them are left as they are |
| `Basics.StrLessMeaning` | funhouse_api/sync/service.py:152 | The order of client ids: the first character that differs decides, and a proper prefix comes first |
| `Resolution.LookupExact` | funhouse_pipeline/load/dedup.py:235-245 | For plain names the prefix lookup finds exactly the keys of that name |
| `Resolution.ResolveAgain` | funhouse_pipeline/load/dedup.py:248-328 | Resolving a batch again on any later table that has one row per name creates nothing, changes no row, and resolves and flags exactly as before |
| `Resolution.ResolvedForGood` | funhouse_pipeline/load/dedup.py:248-328 | Over any run of batches of plain names from a table with one row per name: resolving any earlier batch once more at the end creates nothing, changes no row, and gives the same ids and flags as the first time |
| `Resolution.ResolveTwice` | funhouse_pipeline/load/dedup.py:248-328 | For any names, with no record id given to two of them: resolving a batch again, at once or in any later table, resolves and flags as before if and only if every record it resolved is alone under its name among the stored keys; what it still resolves, it resolves to the same row |
| `Resolution.ResolveLater` | funhouse_pipeline/load/dedup.py:248-328 | For any batch at all, in any later table: nothing is created, no row is changed, and the ids and flags are as before if and only if every group was ambiguous or has got no rival |
| `Resolution.ResolveTwicePlain` | funhouse_pipeline/load/dedup.py:248-328 | A batch of plain names resolved once more before anything else, from any table, gets the same ids and flags |
| `Resolution.SeparatorSplitsBatch` | funhouse_pipeline/load/dedup.py:235-245 | Two names, one containing the separator, that both become rows and after which the first is no longer alone under its name |
| `Resolution.ResolveOne` | funhouse_pipeline/load/dedup.py:248-328 | The four ways one candidate can end, exactly |
| `Resolution.GroupExtends` | funhouse_pipeline/load/dedup.py:331-378 | A resolved group adds at most one row, of its own key, and only fills null columns of existing rows |
| `Resolution.GroupEffect` | funhouse_pipeline/load/dedup.py:331-378 | One name of a batch: ambiguous if and only if its records or a stored row of the name have different keys; otherwise every null column of the row with its key is filled from the merged attributes, or they become the next row, column by column |
| `Resolution.FlagsMeaning` | funhouse_pipeline/load/dedup.py:248-328 | The flags of a batch are exactly the nameless records and the records of ambiguous names, each with its key and reason |
| `Resolution.MergedSpellsKey` | funhouse_pipeline/load/dedup.py:206-226 | Merging records of one key yields attributes that spell that very key |
| `Dedup.SupplierMeaning` | funhouse_pipeline/load/dedup.py:206-226 | Each merged attribute comes from the most confident record that supplies it, the earliest on a tie, and is missing only when none does |
| `Dedup.MergedMeaning` | funhouse_pipeline/load/dedup.py:206-226 | Column by column: each merged value is that of the most confident record that has one, and is missing only if none has |
| `Dedup.GroupByGrouped` | funhouse_pipeline/load/dedup.py:273-285 | Grouping loses and duplicates no record and makes one group per key |
| `Loader.LoadAgain` | funhouse_pipeline/load/loader.py:389-504 | Loading any batch twice: the second load inserts no row, leaves the record tables and, with no record id given to two names, the players as they were, and skips everything loaded or skipped before; it resolves and flags as the first did if and only if every player the first resolved is alone under its name among the stored keys; the business tables are untouched if and only if also every consent of the batch is refused |
| `Loader.LoadPlainAgain` | funhouse_pipeline/load/loader.py:389-504 | For plain names the second load always resolves and flags as the first did |
| `Loader.SeparatorLoadedTwice` | funhouse_pipeline/load/dedup.py:292-308 | A concrete batch of two people, one with the separator in the name, that is flagged by the second load and not by the first |
| `Loader.ConsentLoadedTwice` | funhouse_pipeline/load/consent.py:234-326 | A concrete batch of one consent that is in the ledger twice after two loads |
| `Loader.IndexMeaning` | funhouse_pipeline/load/loader.py:264-295 | A name resolves exactly when one row alone answers to it; two different rows make it ambiguous, none makes it unknown |
| `Loader.NeverGuesses` | funhouse_pipeline/load/loader.py:661-760 | No reference of an inserted row is guessed: its player, school and product are each the only row that answers to the name in the record, an absent optional name is null, and a lesson link is a lesson |
| `LoadedRows.LoadedRowMeaning` | funhouse_pipeline/load/loader.py:554-732 | A record is inserted if and only if its names resolve, its types and amount are valid, its key is free and the location is known; the row then has each column from its own field; with the key taken it is skipped, otherwise flagged, and each is logged as what it was |
| `LoadedRows.FlagReason` | funhouse_pipeline/load/loader.py:661-743 | The reason of every flag |
| `LoadedRows.SameKeyIffSameRecord` | funhouse_pipeline/load/loader.py:236-261 | Two records share a key exactly when they are the same record of the same file, field by field, as soon as one is free of the separator |
| `LoadedRows.ConsentRecordMeaning` | funhouse_pipeline/load/consent.py:234-326 | A consent record appends one grant of the one player who answers to its name, in its own words, or nothing |
| `LoadedRows.SchoolRecordMeaning` | funhouse_pipeline/load/loader.py:507-551 | A player's null school is filled by the one school of that name; an unknown or ambiguous name is flagged |
| `LoadedRows.EveryRecordOnce` | funhouse_pipeline/load/loader.py:426-504 | Every record of a batch is loaded as exactly one of player, row and consent |
| `LoadedRows.MergedIdsMeaning` | funhouse_pipeline/load/loader.py:449-461 | The merges that are logged are those of the batch's own candidates, each row once |
| `LoadedRows.TrimmedMeaning` | funhouse_pipeline/load/loader.py:681-686 | Trimming takes away the blanks at both ends and nothing else, then the case |
| `Loader.NameIndex.Add` | funhouse_pipeline/load/loader.py:277-287 | Adding a name updates the dictionary as the index specification says |
| `Loader.BuildPlayersIndex` | funhouse_pipeline/load/loader.py:297-309 | The index is over every full name and bare first name of the table |
| `Loader.LoadKeepsKeysUnique` | funhouse_pipeline/load/loader.py:600-640 | Each natural key has at most one row, whatever is loaded |
| `Loader.BuildAlike` | funhouse_pipeline/load/loader.py:661-732 | Whether building a record's columns flags it depends on the names alone, never on what has been loaded |
| `Loader.Loading.LoadOne` | funhouse_pipeline/load/loader.py:554-649 | One record in its own transaction: flagged, skipped on a key conflict, or inserted, with its audit entry |
| `Loader.Loading.ResolvePlayerSchools` | funhouse_pipeline/load/loader.py:507-551 | Schools fill null columns only, and unresolvable ones are flagged |
| `Loader.Loading.LoadConsentRecords` | funhouse_pipeline/load/consent.py:234-326 | Each consent record is flagged with its reason or appended |
| `Loader.Loading.LoadCleanRecords` | funhouse_pipeline/load/loader.py:389-504 | The whole load ends as its specification gives: players, schools, other records, consents, in that order |
| `Calculator.SumPendingDraws` | web/src/domain/entitlementCalculator.ts:44-55 | The loop totals exactly the unsynced draws of the entitlement |
| `Calculator.CanDrawIff` | web/src/domain/entitlementCalculator.ts:78-82 | An unlimited entitlement permits any draw, a limited one exactly the positive draws that fit, with those pending, in the cached balance, the whole of it included |
| `Calculator.PendingSumMeaning` | web/src/domain/entitlementCalculator.ts:44-55 | A queued row weighs its amount exactly while it is an unsynced draw of this very entitlement |
| `Calculator.OfflinePromise` | web/src/domain/entitlementCalculator.ts:78-82 | Every draw permitted offline from a fresh cache is honoured by the server, however often and in whatever order it arrives, among any other actions and through any resets, if this device is the only drawer and the cached balance does not exceed the allowance |
| `Calculator.BalancePredicted` | web/src/domain/entitlementCalculator.ts:61-67 | Within a period the server ends on the balance the device showed, however large the cached balance is; until the cache is refreshed the balance recomputed after reconciliation overstates by exactly what has been delivered |
| `Calculator.PermittedFit` | web/src/domain/entitlementCalculator.ts:78-82 | Permitted draws are positive and together never exceed the cached balance |
| `Calculator.UnlimitedHonouredIffPositive` | web/src/domain/entitlementCalculator.ts:78-79 | Against an unlimited balance the device permits any amount, but the server honours exactly the positive ones |
| `Calculator.ShortAllowanceRefuses` | web/src/domain/entitlementCalculator.ts:78-82 | A permitted draw above the allowance is refused once a reset falls due before it, so the proviso is needed |
| `Calculator.ServedApart` | funhouse_api/sync/service.py:247-291 | An action about anything else leaves the entitlement alone and logs at most under its own client id |
| `Auth.OneToken` | web/src/domain/authManager.ts:603-610 | With or without Web Locks, at every moment of every interleaving, all tabs that can supply a bearer token supply the same one |
| `Auth.StepKeeps` | web/src/domain/authManager.ts:377-809 | Each of the thirty-two turns of logins, restores, cleanups and events keeps the joint invariant of marker, tuple, tabs and jobs in flight |
| `Auth.RevokeWins` | web/src/domain/authManager.ts:634-809 | A login revoked after it started and before it published is never published in any continuation |
| `Auth.RevokeOvertakes` | web/src/domain/authManager.ts:847-872 | Any revoke of the tab puts every login it has in flight in that position |
| `Auth.OvertakenNeverPublishes` | web/src/domain/authManager.ts:742-786 | An overtaken login's own turns change neither marker, tabs nor publications |
| `Auth.OvertakenForGood` | web/src/domain/authManager.ts:742-786 | A login overtaken at any point, before or after it marked itself, marks and publishes nothing for as long as it runs |
| `Auth.GoneForGood` | web/src/domain/authManager.ts:108-134 | A marker once removed or replaced never returns, and no tab supplies its token again |
| `Auth.LateUnauthorized` | web/src/domain/authManager.ts:861-872 | However late a 401 arrives it revokes only the login whose token the request carried |
| `Auth.InstalledLasts` | web/src/domain/authManager.ts:634-809 | Under the cross-tab lock, from the first moment of any run, an installed login's marker and tuple survive every turn but these: the marking of a live login that read this very marker when it began, the cleanup of a marker whose removal was asked for, a restore finding the login expired or forged, or corruption; an older login takes all its turns in vain |
| `Auth.ObservedEarlier` | web/src/domain/authManager.ts:634-757 | The marker a login compares with is one it read in a turn of its own, earlier in the run |
| `Auth.HoldersHold` | web/src/domain/authManager.ts:377-809 | Under the lock, at every moment of every run, whoever holds it may rely on what it has read |
| `Auth.PublishFindsInstalled` | web/src/domain/authManager.ts:742-786 | A login that publishes under the lock leaves marker and tuple in place and its capability current |
| `Auth.OnlyOwnRevocation` | web/src/domain/authManager.ts:825-855 | Once published, only a tab signed in under a marker can have its cleanup queued |
| `Auth.RestoreFailsClosed` | web/src/domain/authManager.ts:410-413 | In any run, a restore that saw a marker and then read a tuple of another owner only ends: its next turn changes no tab, marker, tuple or publication, whatever happened meanwhile |
| `AuthProgress.RestoreOutcome` | web/src/domain/authManager.ts:377-517 | A restore that may begin and is left alone comes to its end, and signs its tab in if and only if the shared marker has a tuple of its own holding a readable, unexpired session whose scope is not another's: with that token, under that marker, as current owner of the local data, and with the scope stored; a worthless login, or a leftover tuple without marker, is erased, and a tuple of another owner left alone |
| `AuthProgress.LateRestoreYields` | web/src/domain/authManager.ts:489-517 | Whatever else runs: in its last turn a restore publishes if and only if its lifecycle and marker still stand and its session is unexpired, and otherwise changes no tab |
| `AuthProgress.PublishedWasRead` | web/src/domain/authManager.ts:377-517 | In any run, a restore that signs its tab in has read that marker and that marker's own tuple in turns of its own, and publishes the session it found there |
| `AuthProgress.LateRestoreTouches` | web/src/domain/authManager.ts:394-449 | A restore whose tab has moved on to another lifecycle touches that tab if and only if it finds the stored scope forged, and then signs it out |
| `AuthProgress.NewMarkerSpared` | web/src/domain/authManager.ts:398-408 | A restore that found no marker leaves everything alone if there is one by the time it looks again |
| `AuthProgress.RestoringIsARun` | web/src/domain/authManager.ts:377-517 | The turns of a restore left alone are a run of enabled steps of that restore |
| `AuthProgress.ReopenedTabSignsIn` | web/src/domain/authManager.ts:377-517 | The run from an empty browser in which a login's tab is closed, opened again and signed in by a restore with the login's token |
| `AuthProgress.LoginOutcome` | web/src/domain/authManager.ts:634-787 | A login answered with an unexpired session and left alone signs its tab in under a new marker, in the place of whatever marker and tuple were there |
| `AuthProgress.LoginProceedsIff` | web/src/domain/authManager.ts:634-756 | After each await a login goes on if and only if lifecycle, observed marker and expiry still stand, as asked there |
| `AuthProgress.PublishedIff` | web/src/domain/authManager.ts:762-795 | A login is published if and only if its lifecycle and its marker still stand, and otherwise given up with its cleanup queued |
| `AuthProgress.FailingLoginQueuesCleanup` | web/src/domain/authManager.ts:789-795 | A login that fails after marking itself queues its own cleanup, and one that fails before it has nothing to clean up |
| `AuthProgress.GivenUpErases` | web/src/domain/authManager.ts:825-838 | That cleanup, left alone, erases what the login had shared, and nobody else's marker or tuple |
| `AuthProgress.LogoutErases` | web/src/domain/authManager.ts:825-877 | A logout signs its tab out at once, and its cleanup takes the own login's marker and tuple away and no other's |
| `AuthProgress.UnauthorizedMeaning` | web/src/domain/authManager.ts:861-873 | A 401 is a logout if it answers a request of the tab's present login, and nothing otherwise |
| `AuthProgress.GivingUpMeaning` | web/src/domain/authManager.ts:796-807 | A login that fails by itself signs its tab out, one that was overtaken leaves it alone |
| `AuthProgress.ExternalEvents` | web/src/domain/authManager.ts:563-585 | A tab is signed out by the removal of its own marker and by finding another shared marker, and by no other removal |
| `AuthProgress.DroppedJobs` | web/src/domain/authManager.ts:656-683 | A login whose scope cannot be told signs its tab out; a refused login and an error in a restore or cleanup change nothing |
| `AuthProgress.WorldIsFree` | web/src/domain/authManager.ts:377-383 | Nothing in the protocol holds the world back: time may pass, the store be damaged, tabs reopened, logins and restores begun at any moment |
| `Auth.OlderWriteLandsLast` | web/src/domain/authManager.ts:742-764 | Without the lock: a concrete run in which an older login's tuple lands after a newer login has published |
| `Auth.LateTupleReopens` | web/src/domain/authManager.ts:377-413 | That state, with the newer tab reopened |
| `Auth.LateTupleSignsOut` | web/src/domain/authManager.ts:377-413 | The reopened tab restores nothing: it is signed out under the standing marker and the older session is not used |
| `Auth.OlderLogin` | web/src/domain/authManager.ts:634-757 | The first part of that run |
| `Auth.NewerLogin` | web/src/domain/authManager.ts:634-757 | Its second part |
| `Auth.NewerPublishes` | web/src/domain/authManager.ts:757-786 | Its third part |
| `Auth.AuthManager.GetToken` | web/src/domain/authManager.ts:603-610 | A token is supplied exactly when the tab's login still owns the shared marker and has not expired |
| `Auth.AuthManager.GetAuthRequestSnapshot` | web/src/domain/authManager.ts:552-557 | Token and generation are captured together |
| `Auth.AuthManager.HandleUnauthorized` | web/src/domain/authManager.ts:861-872 | It revokes exactly when the snapshot is of the present lifecycle, and then queues the cleanup of the marker that was active |
| `Auth.AuthManager.Logout` | web/src/domain/authManager.ts:875-877 | It always revokes |
| `Auth.AuthManager.InvalidateLocalLifecycle` | web/src/domain/authManager.ts:817-823 | A new generation with no session, marker or capability |
| `Auth.AuthManager.RevokePersistedSession` | web/src/domain/authManager.ts:847-855 | In-memory revocation first, cleanup of the old marker queued after |
| `Auth.AuthManager.HandleExternalMarkerRemoval` | web/src/domain/authManager.ts:563-567 | A removal event touches only the lifecycle that owned the removed marker, and queues no cleanup |
| `Auth.AuthManager.HandleExternalMarkerInvalidation` | web/src/domain/authManager.ts:570-580 | A session whose marker is no longer the shared one is invalidated, any other is left |
| `Auth.AuthManager.MarkLogin` | web/src/domain/authManager.ts:746-757 | The marking turn of a login, without an await inside |
| `Auth.AuthManager.PublishLogin` | web/src/domain/authManager.ts:763-786 | Publish exactly if the lifecycle and the marker still stand, else queue the attempt's own cleanup |
| `Auth.AuthManager.PublishRestore` | web/src/domain/authManager.ts:491-517 | Compare and commit under a new generation |
| `Auth.AuthManager.IsLocalDataOwnerCurrent` | web/src/domain/authManager.ts:538-549 | A capability is current only in the generation it was published under |
| `Quarantine.ExactlyOnePlace` | web/src/store/localStore.ts:213-280 | At every transaction boundary each legacy row is in exactly one place with its original content, and a row recorded in the table or in quarantine really is there; a merged map has every key in the owner's map; nothing but a last-sync timestamp is dropped |
| `Quarantine.LosesIff` | web/src/store/localStore.ts:1230-1282 | A step loses a row if and only if it is a migration taking effect over an occupied key |
| `Quarantine.LateWriteIsLost` | web/src/store/localStore.ts:1230-1282 | The run from an empty store on which it happens: write, seal, write again, migrate |
| `Quarantine.RunConserves` | web/src/store/localStore.ts:1171-1282 | Over every interleaving of old tabs, quarantine passes and migrations onto free keys nothing is lost |
| `Quarantine.StepKeeps` | web/src/store/localStore.ts:213-280 | Every transaction, committed or aborted by its compare, keeps every row's place and content |
| `Quarantine.LegacyStore.QuarantineLegacyRows` | web/src/store/localStore.ts:213-280 | Normal return of the sixteen-pass loop leaves no plaintext; the error means somebody wrote in every pass but the last |
| `Quarantine.LegacyStore.SealOne` | web/src/store/localStore.ts:259-277 | Only the very source that was scanned is moved |
| `Quarantine.LegacyStore.MigrateScoped` | web/src/store/localStore.ts:1171-1282 | Field by field: a queue or record row leaves the quarantine exactly if it says this scope and can be read, and is then sealed under its own key for this owner; a map exactly if it stands under a key of this scope, and is then merged into the owner's; a timestamp of this scope is dropped; every other held row stays as it was, and so do all rows and maps of others; on free keys nothing is lost |
| `Quarantine.AttributableMeaning` | web/src/store/localStore.ts:1171-1282 | What makes a held row, map or timestamp this scope's own |
| `Quarantine.LegacyStore.MergeOne` | web/src/store/localStore.ts:1104-1169 | A legacy map is merged into the owner's with existing entries winning |

## Left out

- Concurrent natural-key writes: the source reads and then writes without a lock (`funhouse_api/sync/service.py:665-684`), so convergence is claimed for serially applied actions only, and the branch that loses an insert race (730-744) is unreachable here.
- HTTP routes, database connections, SQL text, migrations and seeding: state the model holds as tables.
- WebCrypto, bcrypt and JWT signing, and the claim decoders: a session is its token, expiry and whether its stored scope matches its claims.
- The single-flight guard of `flush` (`web/src/domain/syncEngine.ts:180-187`): a tab has at most one running flush in every model here.
- React screens, service worker, background-sync registration and the 30-second scheduler: a flush trigger is a step that may happen at any time.
- Read queries, balances, rosters, alerts and reports: each is settled by one query.
- `device_id`, `updated_at`, `granted_at` and guardian columns, the last-successful-sync marker and the foreign key of `logged_by`: written, never read by the modelled code.
- The client's capture order compares ISO timestamps and ids with `localeCompare`; here it is time, then code points.
- Unicode case folding, non-ASCII blanks, and the parsing of dates, amounts and POPIA keys: payloads arrive as typed values.
- Dates before the first full week of year 1 and after year 9999: the source raises there, as the model does for months and terms.
- EndToEnd.EveryRun: client ids are assumed fresh at capture and the server-side steps are serial.
- LastWrite.OrdersAgreeIff: is about actions that pass every refusal, with a working audit log; a refused one changes nothing, and the refusals do not depend on the other actions of the key.
- LastWrite.WinnerIsStored: speaks of acknowledged actions, since a rejected one may well be later than the row.
- Idempotence.ReplayIsNoOp: needs a working audit log at the replay, since a failed audit append rejects any action.
- Calculator.OfflinePromise: needs a working audit log for this device's draws, since a failed signature rejects a draw for good.
- Auth.InstalledLasts: a tab that closes inside its critical section releases the lock, and a write it had already issued is taken to have landed before or not at all.
- Quarantine.LegacyStore.QuarantineLegacyRows: rows without a primary key, which abort the pass at once, are not modelled; the final scan is atomic, as the source assumes no writer during it.
- Quarantine.RunConserves: an old tab's put over a row that has already been sealed for its owner is not modelled.
- Quarantine.LegacyStore.SealOne: the source compares the scanned row by content, the model by write, so a row rewritten with equal content between scan and seal is scanned once more here and sealed at once there.
- Loader.LoadAgain: where one record id is given to two names the second load may fill in a school for the name that keeps it, so the players table is then claimed unchanged only if the flags are the same (`funhouse_pipeline/extract/records.py:230` derives distinct ids).
- Loader.LoadPlainAgain: a database or audit failure in the middle of a batch is not modelled beyond constraint violations, and audit entries of merged players are listed in batch order.
