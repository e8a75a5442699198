# Meta Loop: a model of the durable core

Meta Loop keeps its work in keyed ledgers: tasks and their event histories, a lease queue, intakes and
sources, artifacts, runner sessions, worker results, workspaces, publications, approvals, publication
effects and check observations. Application services write to these ledgers inside a copy-on-write unit
of work and drive a multi-step protocol that has to survive crashes, retries and interleavings. This
project states what the core promises and proves it of a model that follows the code branch by branch.

The layers, from the bottom:

| files | what they hold |
|---|---|
| `Json`, `JsonInjective`, `CanonicalForms`, `Twins` | the canonical JSON text records are compared by, and which records share a text |
| `Domain`, `TaskLifecycle`, `Records` | the Task state machine, the records and their constructor checks |
| `Queue`, `QueueLease`, `QueueSql` | the lease queue, its leases over time, and the SQL queue it refines |
| `Ledgers`, `Database`, `LedgerInvariants`, `Provenance`, `SqlLedgers`, `SqlStores` | every ledger operation, runs of them, what every run keeps, the SQL repositories next to them |
| `Services`, `Publication`, `ServiceSteps`, `Coupling`, `ServiceRuns`, `Blocks` | each service call as a function of the database, runs of calls, and blocks of several calls |
| `PublicationOutcomes`, `ResultOutcomes`, `ServiceGuards`, `QueueGuards`, `IngestGuards` | when each service call returns, condition by condition in the records' fields, what it answers and what it writes |
| `ServiceOutcomes`, `WorkspaceOutcomes`, `FuseFreeze`, `Ingestion`, `IngestReplays`, `RetryBudget`, `Unpublishable`, `ApprovalReplay` | results about outcomes of calls and about whole runs of calls |
| `GitHub`, `Reconciliation`, `Publisher`, `Recovery`, `CheckGate`, `RefMigration` | the remote, request by request; what an attempt needs and leaves; interleaved publishers; retries; the check gate; the ref migration |
| `SampleNames`, `Samples`, `SamplePublication`, `ReleasedWorkspace`, `MovedBase` | concrete records and runs that show a property to fail |
| `Heap`, `Memory`, `UnitOfWork` | the in-memory adapter: dictionaries on the heap shared by fifteen stores, and the unit of work |
| `ServiceMethods`, `WorkspaceMethods`, `PublicationMethods`, `ServiceBlocks`, `PublisherMethods` | the services, blocks, publisher and publish call as statements over the heap |

The specification of a store or a service is a function from a database to a database; the same
operation as the program runs it is a method on heap objects, proved to do what the function says. For
the methods of `Memory`, `ServiceMethods`, `WorkspaceMethods` and `PublicationMethods` that refinement,
through shared dictionaries and frames, is the whole content: the function states the same branches.
What the services promise is proved about the functions and their runs, and `ServiceBlocks.ServeAll`,
`ServiceBlocks.ServeBlocks` and `PublisherMethods.PublishIsARun` carry it over to the heap.

Strings are sequences of code points, lone surrogates included, as in Python. Times are integers.
Random ids, clocks, governance answers, runner answers, stored blobs, prepared heads and verifier
answers are inputs. A call that raises leaves its partial writes in the working copy, as the code does;
whether they are committed is decided by the block around it.

## Model

| member | source | states |
|---|---|---|
| `TaskLifecycle.StatusesAreGoverned` | src/meta_loop/domain/task.py:75-123 | After any calls on a new task, the implementation statuses mean a non-R3 risk with a governance revision, PROPOSAL_READY means R3, COMPLETED is never reached, and identity, source, repository and risk never change. |
| `TaskLifecycle.AtMostTwoReworks` | src/meta_loop/domain/task.py:103-118 | Over any calls, blocking and unblocking included, at most two put the task in REWORK_REQUIRED. |
| `TaskLifecycle.OnlyReworkLeavesFailed` | src/meta_loop/domain/task.py:103-108 | A call takes a task out of FAILED exactly when it is a rework request by a reviewer role. |
| `TaskLifecycle.ReadyMeansReviewed` | src/meta_loop/domain/task.py:46-91 | The accepted calls of any run at READY_TO_PUBLISH end with the five role-checked steps from PLANNED, in order, with nothing but artifact attachments in between. |
| `TaskLifecycle.CallsExactly` | src/meta_loop/domain/task.py:46-123 | Which call by which role takes a task from which status to which: nothing else is accepted, and no status is reached otherwise. |
| `TaskLifecycle.VersionsCount` | src/meta_loop/domain/task.py:75-123 | After any calls on a new task its version is the number of accepted calls that were not attachments plus the number of attached artifacts. |
| `QueueSql.MemoryRefinesSql` | src/meta_loop/infrastructure/memory.py:101-155 | For every command sequence there is a run of the SQL statements with the same replies that ends with the same rows. |
| `QueueSql.SqlDecides` | src/meta_loop/infrastructure/postgres.py:109-162 | Any SQL step on the same rows gives the in-memory reply and rows; a claim may only pick another ready row of the same priority and availability. |
| `QueueSql.AttemptFilterIsRedundant` | src/meta_loop/infrastructure/postgres.py:120-125 | The filter on attempts, which memory leaves out, excludes no ready row of a reachable queue. |
| `QueueLease.LeasesAreExclusive` | src/meta_loop/infrastructure/memory.py:110-155 | With a clock that does not go back, between two claims of a row the first holder gave it up before its expiry or a recovery found it expired. |
| `QueueLease.UsableOrRecoverable` | src/meta_loop/infrastructure/memory.py:119-137 | At any instant a claimed row is usable by exactly one holder or recoverable, never both and never neither. |
| `QueueLease.ExpiredLeaseNeverRevives` | src/meta_loop/infrastructure/memory.py:131-155 | A worker whose lease has run out gets a lost-lease error from every later use, until it is granted the row again. |
| `QueueLease.BackoffIs30Or60` | src/meta_loop/infrastructure/memory.py:146-155 | A reachable queue delays a failed row by 30 or 60 seconds or removes it: the cap of 900 never binds. |
| `QueueLease.BoundedWork` | src/meta_loop/infrastructure/memory.py:101-155 | Claims, failures, completions and recovered rows together are at most six for each created row. |
| `RetryBudget.TaskBudget` | src/meta_loop/application/services.py:36-57 | Over any run of service calls from empty, a task is claimed at most three times and its failures delay it by at most 90 seconds in all. |
| `LedgerInvariants.RunGood` | src/meta_loop/infrastructure/memory.py:35-465 | Any run of store operations, raising or not, keeps the cross-ledger invariant, including gapless histories indexed exactly by event id, and only extends every ledger. |
| `Provenance.TwoFieldMatchIsExact` | src/meta_loop/infrastructure/memory.py:405-419 | In consistent ledgers an approval matching on publication, head and decision exists exactly when one matching on all six fields of publish does. |
| `Provenance.ReceiptsHaveProvenance` | src/meta_loop/infrastructure/memory.py:309-443 | After any run, every effect's publication passed verification at that head, has an exact approval by a successful patch-review session and a successful implementer result owning the patch, and any receipt shows its base, tree and head. |
| `Provenance.FailedVerificationIsFinal` | src/meta_loop/infrastructure/memory.py:354-443 | A publication whose recorded verification failed is in state VERIFIED, never changes again and never gets an approval, effect or receipt. |
| `Provenance.PublicationsOnlyAdvance` | src/meta_loop/infrastructure/memory.py:330-362 | Over any run a publication is RESERVED/0, PREPARED/1 or VERIFIED/2 with exactly the parts of that stage, moves only forward and keeps each part. |
| `Provenance.EffectsAreWriteOnce` | src/meta_loop/infrastructure/memory.py:405-443 | A publication has at most one effect, its intent never changes, and its receipt is written once. |
| `Provenance.ConstructorsNeverRefuse` | src/meta_loop/application/models.py:560-607 | The checks publication and effect records make of themselves refuse nothing the ledger guards let through. |
| `JsonInjective.EncodeInjective` | src/meta_loop/application/models.py:108-122 | Two JSON values print the same canonical text exactly when they agree after every string is read as UTF-16 units. |
| `CanonicalForms.IntentsDetermined` | src/meta_loop/application/models.py:335-366 | Accepted publication intents print the same text exactly when they are equal, so replay accepts exactly the same intent. |
| `CanonicalForms.HeadsDetermined` | src/meta_loop/application/models.py:369-391 | The same for prepared heads. |
| `CanonicalForms.EffectsDetermined` | src/meta_loop/application/models.py:577-596 | The same for effect intents. |
| `CanonicalForms.ReceiptsDetermined` | src/meta_loop/application/models.py:457-506 | The same for receipts with their pull requests. |
| `CanonicalForms.DecisionsDetermined` | src/meta_loop/application/models.py:422-454 | Accepted review decisions print the same text exactly when they agree on everything but the logical name and media type of the approval artifact. |
| `CanonicalForms.ObservationsDetermined` | src/meta_loop/application/models.py:508-533 | Accepted check observations print the same text exactly when they are equal. |
| `CanonicalForms.WorkspacesDetermined` | src/meta_loop/application/models.py:200-239 | Workspace requests print the same text exactly when they agree after every string is read as UTF-16 units. |
| `CanonicalForms.CandidatesDetermined` | src/meta_loop/application/ingestion.py:79-101 | Issue candidates print the same text exactly when all their fields agree as UTF-16, the objective, criteria, revision and risk of the specification included. |
| `CanonicalForms.IntakesDetermined` | src/meta_loop/application/controller.py:15-36 | The same for intake requests. |
| `Twins.PlainResultsDetermined` | src/meta_loop/application/models.py:161-179 | Worker results without surrogate code points print the same text exactly when they are equal. |
| `Twins.ResultTwins` | src/meta_loop/application/models.py:161-179 | An accepted worker result shares its text with another accepted one exactly when an id contains an astral code point or a surrogate pair, or the summary a pair, or an astral code point and room for one more. |
| `Twins.ResultsCollide` | src/meta_loop/application/models.py:161-179 | Two accepted results that differ only in how U+1F600 is spelled in the summary print the same text. |
| `Twins.PlainRequestsDetermined` | src/meta_loop/application/models.py:89-122 | Runner requests without surrogate code points print the same text exactly when they are equal. |
| `Twins.RequestTwins` | src/meta_loop/application/models.py:89-122 | A constructible runner request shares its text with another one exactly when an id or an input's media type contains an astral code point or a surrogate pair. |
| `Twins.RequestsCollide` | src/meta_loop/application/models.py:89-122 | Two accepted requests that differ only in the spelling of the correlation id print the same text. |
| `Twins.WorkspaceTwins` | src/meta_loop/application/models.py:200-239 | An accepted workspace request shares its text with another accepted one exactly when an id or its governance revision contains an astral code point or a surrogate pair; its source revision never does. |
| `Twins.WorkspacesCollide` | src/meta_loop/application/models.py:200-239 | Two accepted workspace requests that differ only in the spelling of the correlation id print the same text. |
| `SqlLedgers.AppendsAgree` | src/meta_loop/infrastructure/postgres.py:74-97 | On reachable histories the SQL event store accepts exactly what memory accepts for an existing task, and besides that a twin of a stored event; both store the same rows. |
| `SqlLedgers.ReservationsAgree` | src/meta_loop/infrastructure/postgres.py:441-480 | The SQL reservation, which compares artifact digests, accepts and answers as the in-memory one, which compares whole references. |
| `SqlLedgers.ApprovalsAgree` | src/meta_loop/infrastructure/postgres.py:517-558 | On consistent ledgers the two approval stores accept the same decisions and leave the same rows, the SQL ones by digest; their answers are equal exactly when the id is new or the stored decision names its artifact as the catalogue the SQL answer is joined with. |
| `ApprovalReplay.ServicesAnswerAlike` | src/meta_loop/application/publication.py:149-175 | After any run of service calls on a database whose approvals are named as catalogued, the two stores answer every decision alike, because approve passes the catalogue's own reference; which decision that is, `PublicationOutcomes.ApproveExactly` says. |
| `ApprovalReplay.AnswersDiffer` | src/meta_loop/infrastructure/postgres.py:517-537 | A run of the stores after which an accepted decision is replayed in memory as it came, and from SQL under the catalogue's artifact name. |
| `SqlLedgers.RequestsAgree` | src/meta_loop/infrastructure/postgres.py:585-618 | The stronger SQL guard on effect requests accepts the same intents, whichever row its lookup finds. |
| `SqlLedgers.ReceiptsAgree` | src/meta_loop/infrastructure/postgres.py:626-648 | The two effect stores reconcile alike. |
| `SqlStores.SourcesAgree` | src/meta_loop/infrastructure/postgres.py:198-277 | On consistent ledgers the SQL intake, source and artifact stores accept, answer and store alike, the unique index on triggers included. |
| `SqlStores.SessionsAgree` | src/meta_loop/infrastructure/postgres.py:301-354 | Sessions and results are stored alike; a second outcome is taken by SQL and refused in memory exactly when it is another UTF-16 spelling of the stored one. |
| `SqlStores.WorkspacesAgreeIf` | src/meta_loop/infrastructure/postgres.py:375-388 | A new workspace record is accepted and answered alike, and the rows agree exactly when it is refused or active; a known request is answered alike exactly unless it comes with other access or another repository. |
| `SqlStores.PublicationsAgree` | src/meta_loop/infrastructure/postgres.py:488-515 | Prepared heads and verifications are recorded alike, although the SQL row rebuilds patch and base from the intent. |
| `SqlStores.ObservationsAgree` | src/meta_loop/infrastructure/postgres.py:654-676 | Check observations are appended and answered alike. |
| `ReleasedWorkspace.SqlRowStandsActive` | src/meta_loop/infrastructure/postgres.py:375-388 | After the run of `ReleasedWorkspace.ReleasedButCreated` the two ledgers take the released record, and its SQL row stands active for a workspace the manager will not release again. |
| `UnitOfWork.InMemoryUnitOfWork.Enter` | src/meta_loop/infrastructure/memory.py:510-529 | Entering binds the stores to fresh copies, apart from everything committed, that stand for the committed database. |
| `UnitOfWork.InMemoryUnitOfWork.AbandonedBlock` | src/meta_loop/infrastructure/memory.py:510-548 | A block of any store calls that never commits leaves every committed dictionary and event list as it was. |
| `UnitOfWork.InMemoryUnitOfWork.CommittedBlock` | src/meta_loop/infrastructure/memory.py:510-548 | A block whose last store action is commit installs exactly its working state. |
| `UnitOfWork.InMemoryUnitOfWork.WritesAfterCommit` | src/meta_loop/infrastructure/memory.py:531-545 | Store calls after commit in the same block write the committed state, rollback or not. |
| `Memory.InMemoryTaskQueue.RecoverExpired` | src/meta_loop/infrastructure/memory.py:119-129 | The loop that deletes and replaces rows while it walks them recovers exactly the expired ones, in order. |
| `Memory.InMemoryPublicationLedger.Reserve` | src/meta_loop/infrastructure/memory.py:330-339 | Reading tasks and events through shared dictionaries, a reservation changes the publications and nothing else. |
| `ServiceBlocks.ServeBlock` | src/meta_loop/infrastructure/memory.py:510-548 | A block around any service call on the heap commits exactly that call's database, or nothing when the call raises part of the way. |
| `ServiceBlocks.ServeAll` | src/meta_loop/infrastructure/memory.py:468-548 | Blocks one after another on the heap end in the database of the run of calls, so every result about runs holds of the heap. |
| `ServiceBlocks.SharedBlock` | src/meta_loop/infrastructure/memory.py:510-548 | A block on the heap around any calls, returning or raising, ends in the database of those calls if it is committed and in the one it found if it is dropped, while the workspace manager keeps what it did. |
| `ServiceBlocks.ServeBlocks` | src/meta_loop/infrastructure/memory.py:468-548 | Blocks of any calls one after another on the heap end in the world of the run of blocks. |
| `Blocks.SharedIsSeparate` | src/meta_loop/infrastructure/memory.py:510-548 | A committed block around calls that all return commits what a block around each of them would. |
| `Blocks.BlocksKeepLedgers` | src/meta_loop/infrastructure/memory.py:510-548 | Over any run of blocks, committed or dropped and whatever the calls in them raised, the cross-ledger invariant holds and every ledger only grows. |
| `ServiceRuns.RunOnward` | src/meta_loop/application/services.py:12-57 | Over any run of service calls every queue row's task exists and has not failed, a failed task stays failed, each version of a task is covered by an event, and every ledger only grows. |
| `ServiceRuns.RowsAreBornOnce` | src/meta_loop/application/controller.py:57-65 | Over any run from empty a task gets a queue row at most once. |
| `ServiceOutcomes.FailureReport` | src/meta_loop/application/services.py:37-45 | A failure report that returns fails the task with one appended event on the third attempt, and otherwise puts the row back after its backoff. |
| `ServiceOutcomes.RecoveryReport` | src/meta_loop/application/services.py:47-57 | A recovery that returns fails exactly the tasks of expired rows on their third attempt, each with its own event, and touches no other task or history. |
| `ServiceOutcomes.ResultRefusals` | src/meta_loop/application/workers.py:46-53 | After the staleness guard a result is refused exactly for secrets, an incompatible artifact, an impossible target or a lost lease: neither task update, neither append and not the result ledger can conflict. |
| `ResultOutcomes.ResultExactly` | src/meta_loop/application/workers.py:32-53 | A worker result is accepted exactly if it is a known one in the same spelling, or new with a session that succeeded for its task and role, an unmoved task, a possible step, a clean and compatible artifact and the lease; and exactly what it then writes. |
| `ResultOutcomes.ResultsHaveSessions` | src/meta_loop/application/workers.py:38-42 | Over any run of service calls from empty every stored result names a session that succeeded, for its task and its worker's role. |
| `ServiceGuards.TransitionExactly` | src/meta_loop/application/services.py:13-33 | A transition returns exactly with evidence, at the version and sequence the caller saw, on a step that exists or blocks; it writes one version and one event. |
| `ServiceGuards.FailureExactly` | src/meta_loop/application/services.py:37-45 | A failure is reported exactly by the holder of the lease with the next event, and on the third attempt of a live task; the answer is a retry after 30 or 60 seconds, or final. |
| `QueueGuards.RecoverExactly` | src/meta_loop/application/services.py:47-57 | A recovery returns exactly if the task of every exhausted row lives and its event comes next, and reports exactly the rows whose lease has run out. |
| `QueueGuards.ClaimExactly` | src/meta_loop/infrastructure/memory.py:110-117 | A claim returns exactly while the fuse is off, with the first ready row by priority, time and insertion, one attempt further, or with nothing if none is ready. |
| `ServiceGuards.RegisterExactly` | src/meta_loop/application/artifacts.py:29-43 | A registration returns exactly for a clean artifact that fits the catalogue and a task that stands as the caller saw it; an artifact the task has already asks no version. |
| `ServiceGuards.RequestExactly` | src/meta_loop/application/runners.py:21-50 | A session is requested exactly if it is a known one in the same spelling, or new with the fuse off, no R3 implementer, an unmoved task and inputs the task has. |
| `ServiceGuards.CancelExactly` | src/meta_loop/application/workers.py:55-72 | An execution is cancelled exactly under a granted governance by the holder of the lease while the task lives; the task is blocked and the row gone. |
| `ServiceGuards.StartExactly` | src/meta_loop/application/controller.py:43-65 | A new intake returns exactly with the fuse off for a constructible task under an unused id, and leaves the task, its record, its first event and, if asked, its row. |
| `ServiceGuards.AllocateExactly` | src/meta_loop/application/workspaces.py:39-61 | An allocation returns exactly if it is a known one in the same spelling, or new with the fuse off, an unmoved task, a purpose its role is permitted, no conflict at the manager and no active workspace of the purpose; and exactly what it records. |
| `ServiceGuards.ReleaseExactly` | src/meta_loop/application/workspaces.py:63-72 | A release never fails and releases exactly a workspace that ledger and manager both have active, in both, with one event. |
| `Unpublishable.PublishedStatus` | src/meta_loop/application/workers.py:37-53 | The whole publish call leaves its task BLOCKED exactly when the result was aimed at IMPLEMENTING or READY_TO_PUBLISH, and otherwise at the target. |
| `Unpublishable.NothingIsPublished` | src/meta_loop/application/publication.py:55-88 | Over any run of service calls from empty, a task with a result aimed at IMPLEMENTING or READY_TO_PUBLISH is BLOCKED or FAILED, and there is no publication, approval, effect or observation. |
| `Unpublishable.NoBlockPublishes` | src/meta_loop/application/publication.py:55-88 | The same over any run of blocks of service calls, even where a caller commits what a call left when it raised. |
| `Unpublishable.GuardedResultBlocks` | src/meta_loop/application/workers.py:37-53 | A run of five calls on accepted records that publishes an implementer's result aimed at READY_TO_PUBLISH and leaves the task BLOCKED. |
| `FuseFreeze.EngagedFuseFreezes` | src/meta_loop/application/controller.py:43-84 | Through any run of calls while the fuse is engaged, task ids, intakes, sources, sessions with outcomes, publications, approvals, effect ids and observations stand still, leases and active workspaces only go, and effects only gain receipts. |
| `Ingestion.FreshIngestion` | src/meta_loop/application/ingestion.py:122-143 | A new source is ingested exactly when its task is constructible and its artifact fits the catalog, and leaves version 1, three events in order and one unclaimed row. |
| `Ingestion.ExactlyOnce` | src/meta_loop/application/ingestion.py:122-143 | Over any run with direct intakes under other ids, a source is created exactly once if it is stored, names its own task, and trigger ids are injective. |
| `IngestGuards.IngestExactly` | src/meta_loop/application/ingestion.py:122-143 | A source with an unused key is taken exactly under a governance that is given and granted, with the fuse off, an unused trigger, a well-formed task and a fitting artifact, and leaves exactly this task. |
| `IngestGuards.JoinExactly` | src/meta_loop/application/ingestion.py:122-143 | A source whose key an intake has used joins that intake's task exactly if the stored request is the candidate's, besides the other conditions. |
| `IngestReplays.SourceReplay` | src/meta_loop/application/ingestion.py:127-131 | After any run from empty, a known source that comes again is answered with its task exactly if its candidate agrees field by field with the one that created it, and is a conflict otherwise. |
| `IngestReplays.IntakeReplay` | src/meta_loop/application/controller.py:49-56 | The same for an intake request under a known id. |
| `WorkspaceOutcomes.ManagerAlwaysAgrees` | src/meta_loop/application/workspaces.py:39-63 | Over runs of allocations and releases, compensated failures included, manager and ledger agree on every workspace. |
| `WorkspaceOutcomes.CreatedMeansActive` | src/meta_loop/application/workspaces.py:51-61 | A workspace reported as created is active exactly when the manager had never heard of its id. |
| `ReleasedWorkspace.ReleasedButCreated` | src/meta_loop/application/workspaces.py:17-61 | From an empty system, every record accepted and every event id new: two allocations of one purpose share a block, the second is refused and compensated, the block is dropped, another block adds an event to the task, and the second request sent again is answered as created in a released workspace. |
| `ReleasedWorkspace.StrandedOnce` | src/meta_loop/application/workspaces.py:63-70 | From an empty system: a task, an allocation, and a dropped release, after which the ledger has the allocation active and the manager has released it. |
| `WorkspaceOutcomes.RefusedForGood` | src/meta_loop/application/workspaces.py:39-61 | With new event ids and every returned call committed, a request the ledger refused once is refused whenever it is sent again. |
| `WorkspaceOutcomes.StrandedForGood` | src/meta_loop/application/workspaces.py:56-70 | With calls dropped before commit, an allocation active in the ledger and released by the manager stays so through every later call. |
| `WorkspaceOutcomes.DroppedReleaseStrands` | src/meta_loop/application/workspaces.py:63-70 | One dropped release strands an allocation exactly when the ledger had it active. |
| `GitHub.AttemptDecides` | src/meta_loop/infrastructure/github.py:142-200 | From whatever earlier attempts left, an undisturbed reconcile ends with the receipt of the one pull request exactly when Completes holds, and otherwise stops. |
| `GitHub.MovedBaseSticks` | src/meta_loop/infrastructure/github.py:274-299 | A pull request opened against another base stops every attempt. |
| `Reconciliation.AttemptExactly` | src/meta_loop/infrastructure/github.py:142-200 | An attempt completes exactly for one exact head on the publication's own branch in a configured repository, a local head and a base that stand, at most one fitting pull request, and a branch at the head or objects the local repository spells; then branch, commit and pull request are there, and nothing else of the remote has moved. |
| `Publisher.RemoteIsExact` | src/meta_loop/infrastructure/github.py:142-200 | Under any interleaving of publishers, transactions, base moves and crashes between requests, every ref is a publication's own at its prepared head whose commit has the prepared tree, each pull request stands on such a ref, and no branch has two. |
| `Publisher.RefsNeverChange` | src/meta_loop/infrastructure/github.py:162-169 | Refs, commits and pull requests on the remote are never changed or removed. |
| `Publisher.PublishAgrees` | src/meta_loop/application/publication.py:188-255 | All publish calls that return for one effect return the same receipt, the stored one. |
| `Publisher.EffectsNeverDrift` | src/meta_loop/application/publication.py:242-246 | The guard against a drifted effect never fires. |
| `Publisher.SettlingNeverFails` | src/meta_loop/application/publication.py:242-255 | If only publishers write receipts, no second transaction is ever rejected. |
| `PublicationOutcomes.PrepareExactly` | src/meta_loop/application/publication.py:33-97 | Over consistent ledgers prepare returns exactly with the fuse off, a waiting task as the intent saw it, a granted governance, a successful implementer result owning the catalogued diff, an intact patch, the candidate's own branch and an id that is new or reserved by this intent. |
| `PublicationOutcomes.VerifyExactly` | src/meta_loop/cli/runtime.py:164-170 | The transaction that prepares and verifies returns exactly then, for an answer about the prepared head and a publication not verified yet, and leaves it VERIFIED with the answer. |
| `PublicationOutcomes.ApproveExactly` | src/meta_loop/application/publication.py:113-178 | Approve returns exactly for a passed head of a waiting task, a successful patch-review result whose session was given the patch, an artifact that result owns, well-formed names, and an id that is new or holds this decision; a new id stores the APPROVED decision in these fields, after which the head is approved as publish asks. |
| `PublicationOutcomes.BeginExactly` | src/meta_loop/application/publication.py:188-238 | The first transaction of publish returns exactly with the fuse off, a passed head, a task that is READY_TO_PUBLISH, not R3, on the intent's repository and revision, the publication's own branch, an exact approval, and an effect id that is this publication's or both unused; otherwise it changes nothing. |
| `PublicationOutcomes.SettleExactly` | src/meta_loop/application/publication.py:243-255 | The second transaction settles a receipt exactly if the durable effect is still the job's and has this receipt, or none and the receipt shows the prepared head. |
| `PublicationOutcomes.ReceiptMeans` | src/meta_loop/application/publication.py:257-269 | Whatever a publisher answers, the validation passes exactly the receipts about the effect that show the prepared head, which is what the ledger asks, so a validated receipt is refused only for another one stored meanwhile. |
| `Recovery.RetryNeeds` | src/meta_loop/infrastructure/github.py:142-200 | In a reachable system a retry completes exactly when the local repository spells the head, no commit object contradicts it, and the base stands and stood when the pull request was opened. |
| `Recovery.RetryRecovers` | src/meta_loop/application/publication.py:239-255 | After any run of actions in which publishers alone write receipts, such a retry ends with the receipt of the one pull request and the ledger takes it; any other stops. |
| `Recovery.StuckForGood` | src/meta_loop/infrastructure/github.py:274-299 | A pull request on another base stops every attempt in every later state. |
| `MovedBase.MovedBaseStrands` | src/meta_loop/infrastructure/github.py:142-200 | From ledgers a run of the stores filled and an untouched remote on which the attempt would complete, the run of its requests with the base moved before the last one opens a pull request against another base and stops. |
| `MovedBase.StrandedForever` | src/meta_loop/infrastructure/github.py:274-299 | After that run, whatever actions follow, every undisturbed attempt at the publication stops. |
| `PublisherMethods.GitHubPublicationPublisher.Reconcile` | src/meta_loop/infrastructure/github.py:142-200 | The ordered requests and loops of reconcile leave the remote and the answer of the request-by-request attempt run alone. |
| `PublisherMethods.Publish` | src/meta_loop/application/publication.py:188-255 | The whole call on the heap, two blocks around the remote work, does what the interleaving model says of a publisher left alone; it returns exactly under the conditions of `PublisherMethods.PublishExactly`, and where the first transaction may not begin it fails with database and remote as they were. |
| `PublisherMethods.PublishIsARun` | src/meta_loop/application/publication.py:188-255 | The whole call is a run of single actions of that model, so what every interleaving keeps, it keeps. |
| `PublisherMethods.PublishExactly` | src/meta_loop/application/publication.py:188-255 | Over consistent ledgers the whole call returns exactly if the first transaction does and the effect has its receipt already or the attempt completes; then the head is delivered and the receipt stored, and the remote gains at most this publication's branch, commit and pull request. |
| `CheckGate.Collect` | src/meta_loop/application/publication.py:297-307 | The loop over fetched observations computes the one-pass fold, refusals included. |
| `CheckGate.AcceptedExactly` | src/meta_loop/application/publication.py:297-307 | The pass is accepted exactly when every observation is at the head and none ties with the maximum its name had reached before it. |
| `CheckGate.GateMeaning` | src/meta_loop/application/publication.py:309-314 | An accepted pass is green exactly when each required name's strictly latest observation is a completed success. |
| `CheckGate.OrderDoesNotDecide` | src/meta_loop/application/publication.py:297-314 | Two accepted orders of the same observations give the same summary and so the same verdict. |
| `CheckGate.OrderDecidesAcceptance` | src/meta_loop/application/publication.py:303-307 | Two orders of the same accepted observations, one refused and one accepted. |
| `CheckGate.NothingDrifts` | src/meta_loop/application/publication.py:316-319 | Whatever ran in between, the second transaction finds the validated publication and effect unchanged, or the fuse engaged. |
| `CheckGate.AppendsExactly` | src/meta_loop/infrastructure/memory.py:452-465 | For observations of known heads the append loop gets through exactly when none has the key and another text of a stored one or of one before it. |
| `CheckGate.OnlyFuseOrConflict` | src/meta_loop/application/publication.py:316-324 | After a successful first transaction and pass, the call fails exactly for the fuse, or for an observation that has the key and another text of a stored one or of one fetched before it. |
| `CheckGate.FetchedConflict` | src/meta_loop/application/publication.py:303-324 | For every published head there are three accepted observations that pass the fold and are refused by the ledger whatever it holds. |
| `PublicationOutcomes.CheckAnswers` | src/meta_loop/application/publication.py:286-324 | A check that returns answers for the publication, head and names it was asked about, passed exactly when each required name's latest fetched observation is a completed success, with the same head and effect in both transactions, and adds each fetched observation and nothing else. |
| `PublicationOutcomes.CheckExactly` | src/meta_loop/application/publication.py:286-324 | Whatever was committed in between, a check returns exactly for a published publication, the fuse still off, every observation at the head, none tied with the maximum its name had reached and none contradicting another. |
| `PublicationMethods.CheckPublication` | src/meta_loop/application/publication.py:286-324 | The whole check call on the heap commits the observations and answers as the two transactions and the fold say; an answer is about the publication, the prepared head and the required names, is passed exactly when each name's latest observation is green, and the ledger gains the fetched observations and nothing else. |
| `RefMigration.MigrationKeepsLedgers` | migrations/0009_phase8_github_branch_refs.sql:11-23 | The rewrite keeps the whole ledger invariant, so each effect's ref still equals its publication's and publications have one effect. |
| `RefMigration.TriggerWouldRefuse` | migrations/0009_phase8_github_branch_refs.sql:9-27 | The immutability trigger would accept the rewrite exactly when no effect has a legacy ref, which is why it is dropped first. |
| `RefMigration.MigrationChangesOnlyRefs` | migrations/0009_phase8_github_branch_refs.sql:11-23 | Keys, intents, shas, verifications, states, versions and receipts come through the rewrite as they were; only refs change. |
| `RefMigration.LegacyHeadsBecomePublishable` | src/meta_loop/application/publication.py:205-211 | A legacy head is refused by publish before the migration; after it publish begins exactly if everything it asks but the branch held before. |

## Findings

Properties one might expect that the code does not have: what it does instead, an input that shows it, and
the exact condition.

| locator | as written | input | intended |
|---|---|---|---|
| src/meta_loop/domain/task.py:103-108 | A rework request has no terminal check, so FAILED is not final. | `TaskLifecycle.FailedCanLeave` | A failed task is left exactly by a reviewer's rework request (`TaskLifecycle.OnlyReworkLeavesFailed`); no service makes one, so FAILED is final over runs (`ServiceRuns.RunOnward`). |
| src/meta_loop/application/models.py:178-179 | A code point outside the basic plane and its two surrogates print alike, so replay takes two different results for one. | `Twins.ResultsCollide` | Exactly the results of `Twins.ResultTwins`; between results without surrogates there are none (`Twins.PlainResultsDetermined`). |
| src/meta_loop/application/models.py:121-122 | The same for runner requests. | `Twins.RequestsCollide` | Exactly the requests of `Twins.RequestTwins`. |
| src/meta_loop/application/ingestion.py:100-101 | The same for issue candidates, so an issue ingested again in another spelling is taken for a replay. | `Twins.CandidatesCollide` | Texts agree exactly when the candidates agree as UTF-16 (`CanonicalForms.CandidatesDetermined`), and replays with them (`IngestReplays.SourceReplay`). |
| src/meta_loop/infrastructure/postgres.py:323-337 | SQL compares outcomes by text and memory compares them as they are. | `Twins.OutcomesCollide` | They differ exactly for another spelling of the stored summary (`SqlStores.SessionsAgree`). |
| src/meta_loop/application/models.py:449-453 | The approval artifact's logical name and media type are not printed. | `ApprovalReplay.DecisionsCollide` | Texts agree exactly when the decisions agree up to the artifact's digest (`CanonicalForms.DecisionsDetermined`). |
| src/meta_loop/application/models.py:225-239 | The same for workspace requests. | `Twins.WorkspacesCollide` | Exactly the requests of `Twins.WorkspaceTwins`. |
| src/meta_loop/infrastructure/postgres.py:517-537 | A replayed approval is answered with the catalogue's name and media type of its artifact, and in memory with the decision's own. | `ApprovalReplay.AnswersDiffer` | Acceptance and rows always agree, and answers exactly when the stored decision is named as catalogued (`SqlLedgers.ApprovalsAgree`); decisions that approve makes always are (`ApprovalReplay.ServicesAnswerAlike`). |
| src/meta_loop/application/publication.py:303-307 | A tie is seen only against the running maximum, so acceptance depends on the order. | `CheckGate.OrderDecidesAcceptance` | Refused exactly for such a tie or a wrong head (`CheckGate.AcceptedExactly`); accepted orders agree (`CheckGate.OrderDoesNotDecide`). |
| src/meta_loop/application/publication.py:303-324 | Two fetched observations of one check at one time, below its latest, pass the fold and then conflict with each other, though nothing is stored. | `CheckGate.FetchedConflict` | Refused exactly for the fuse, a conflict with a stored observation or one among the fetched (`CheckGate.OnlyFuseOrConflict`). |
| src/meta_loop/application/workspaces.py:17-61 | A compensated allocation is handed out again as created, already released. | `ReleasedWorkspace.ReleasedButCreated` | Created means active exactly for ids new to the manager (`WorkspaceOutcomes.CreatedMeansActive`); with new event ids and every call that returns committed, resending a refused request never gets there (`WorkspaceOutcomes.RefusedForGood`). |
| src/meta_loop/infrastructure/postgres.py:375-388 | A new workspace row is inserted as active whatever the record says, so a workspace the manager has released stands active. | `ReleasedWorkspace.SqlRowStandsActive` | The rows agree with memory exactly for records that are refused or active (`SqlStores.WorkspacesAgreeIf`). |
| src/meta_loop/application/workspaces.py:63-70 | A release that is not committed leaves the allocation active in the ledger for good. | `ReleasedWorkspace.StrandedOnce` | Exactly `WorkspaceOutcomes.DroppedReleaseStrands`; it never recovers (`WorkspaceOutcomes.StrandedForGood`). |
| src/meta_loop/infrastructure/github.py:171-188 | A base that moves after it was checked leaves an open pull request that stops every retry. | `MovedBase.MovedBaseStrands` | Retries complete exactly under `Recovery.RetryNeeds`; this one never does again (`MovedBase.StrandedForever`). |
| src/meta_loop/infrastructure/memory.py:354-362 | A failed verification is recorded in state VERIFIED. | `SamplePublication.FailedButVerified` | Nothing later treats it as passed (`Provenance.FailedVerificationIsFinal`). |
| src/meta_loop/application/workers.py:51 | A result is published without governance authority, so a guarded target blocks the task, no service takes a task out of BLOCKED except to FAILED, and prepare asks for such a result on a task that is READY_TO_PUBLISH. | `Unpublishable.GuardedResultBlocks` | The task is blocked exactly for a guarded target (`Unpublishable.PublishedStatus`), and no run of services ever publishes anything (`Unpublishable.NothingIsPublished`, `Unpublishable.NoBlockPublishes`), so the results about publications start from ledgers the stores filled. |
| src/meta_loop/infrastructure/memory.py:75-78 | A refused append leaves an empty history for a new task id. | `SqlLedgers.EmptyHistoryLeft` | No history changes its contents (`SqlLedgers.AppendsAgree`). |

## Left out

- HTTP, issue scanning and parsing, check fetching, the command line, configuration and diagnostics: composition and provider plumbing.
- Git, Docker and the file system: preparing, verifying and reading blobs are inputs, and so is what the local repository answers about a prepared head.
- PostgreSQL locking, isolation and unique-violation races: only the sequential guards and updates are modelled, and `next` over stored rows is taken to find some matching row.
- PublicationOutcomes.VerifyExactly: takes a verifier answer about the publication it was asked about, as the verifier builds it; an answer about another one could be recorded there.
- What PostgreSQL makes of stored JSON texts: a row is taken to hold the record it was written from, where JSONB joins a surrogate pair and refuses a lone surrogate.
- Exact error classes across adapters: the SQL comparisons relate acceptance, answers and rows.
- Governance documents: an answer that is granted or not; an unavailable policy is not granted.
- Calendar dates: `isoformat` is stood in for by an injective decimal text.
- Third parties changing refs, closing pull requests or deleting objects: the remote only takes what publishers send, and base branches may move.
- Whether the base tree and the blobs of unchanged files exist remotely: POST of a tree is refused only for entries the remote does not know.
- Malformed remote answers: they stop a publisher as a refusal does.
- Path, secret-marker and patch filters, branch-name and schema-version checks: single-function checks without a part in the protocol.
- The verifier profile of a verification result, and getters that list, query or read for display.
- Publisher.SettlingNeverFails: assumes that only publishers write receipts; another writer may store a different pull request number for the effect, and the conflicting-receipt guard then fires.
- Recovery.RetryRecovers: under the same assumption, without which an undisturbed retry still ends as `GitHub.AttemptDecides` says but the ledger may hold another receipt.
- WorkspaceOutcomes.RefusedForGood: other activity between the calls is taken to extend histories and leave workspaces alone, which `ServiceRuns.RunOnward` grants for the histories.
