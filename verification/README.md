# PassHub verification

Machine-checked Dafny models of the parts of PassHub in which no single function
holds the property that matters: the transactional access store, the recovery of
commits with unknown outcome, admission accounting, keyset pagination, the
duplicate-key JSON scanner with the JSON copy, and the write authority up to the
opening of the service gate. `dafny verify dfyconfig.toml` checks everything.

## How the files follow the program

| files | part |
|---|---|
| `Domain`, `Store`, `UseCases` | pure decisions; what each transaction does to the documents; the use cases over them |
| `Adapter`, `Scopes` | the same operations as classes that update fields, caches and documents step by step, each proved to end in the state the functions give |
| `StoreInvariants`, `StoreSafety`, `Reachable` | what every store of every run satisfies, and that internal checks never fire |
| `Effects`, `Histories`, `ExitTimes` | what one commit may change; the log determines the state; finality; replay; exits received before their entry |
| `Outcomes` | what each use case leaves behind, field by field; exactly when it succeeds, and with which error it fails otherwise |
| `Serializability` | snapshot isolation plus the guard documents is serial |
| `JsonText`, `JsonStrings`, `JsonScanner`, `JsonLayout`, `JsonTheorem` | an RFC 8259 syntax, the ways of writing a string, the scanner, and the theorem relating them |
| `JsonCopy` | the cycle-safe copy of an object graph, on a heap |
| `Pagination`, `QueryLists` | following cursors over a changing collection; one list call; paging the store |
| `RateLedger`, `ResourceLedger`, `ResponseOwner`, `AdmissionFlows` | admission accounting with re-entrant and concurrent callers; requests that do not write |
| `WriteCoordinator`, `WriterFlows` | the queue of write operations, and all writers of one handler over it and over the ledger |
| `RecoveryBridge`, `RecoveryScheduler`, `RecoverySessions`, `RecoverySystem` | lease, handoff and ticket; one method per stretch between awaits; the adapter's retained sessions; the whole system under any event order |
| `WriteAuthority`, `Bootstrap`, `Deployment` | the once-only ticket and the compare-and-set claim as steps of a world; the gate and its tokens; both together |
| `Base` | Option, Result, a queue operation and opaque identifiers |

The main results are `RunKeepsValid`, `NoInternalFailure`, `LogReplaysToState`,
`UpdateLeaves` with `UpdateAnswers`, `RevokedForGood`, `RecognizeLeaves`,
`SnapshotHistoriesAreSerial`, `ScannerTheorem` with `DecodeIff`, `CopyTheorem`,
`RunSystem`, `RunDeployment`, `Allow` with `WindowBound`, `Live`, `Serve`, `Run` with
`WriterLeases`, `NoneMissed` and `OneClaimPerReset` with `AppliedInItsEpoch`. Short
concrete runs show that the hypotheses can be met: `ConfirmedDrains`,
`OneComposition`, `UndisturbedClaim`, `ExitBeforeEntryHappens`.

## Where the code does less than one might expect

- Idempotent replay holds at the adapter (`RestagingReplays`). One layer up,
  `ReplyAnswersRequest` shows that a retry with a new receive time replays an event
  the event invariant then rejects, because it compares the stored receive time.
- The recovery bridge may refuse the transaction of a commit whose outcome is unknown:
  then nothing holds the lease, and the system can drain with that outcome unproved
  (`RefusedHandoffDrains`). `CommitRejects` gives the exact condition at the failed
  reply, and `RunSystem` shows that, once drainable, unknown outcomes are exactly the
  commits refused so or still in flight.
- An origin lease goes back only when a known outcome is told for an operation whose
  lease was recorded (`WriterLeases`). It stays out for good after an unknown effect, for
  an operation stranded in the queue by another one's unknown effect or by a throwing
  hook, about which the observer is never told (`StrandedBehindUnknown`), and when
  `bindOperationIdentity` throws, because the lease is recorded only after it.
- A proved pause reopens the queue even if a hook has failed closed in the meantime:
  one flag serves both fences (`FinalizeRecovered`).
- An UPDATE with mode REMOVE raises the face guard even if nothing was bound.
- A CLAIMED answer can reach its process after a later reset (`ClaimMayArriveLate`): a
  process told CLAIMED made the current claim iff no reset came after its
  compare-and-set (`ClaimedHoldsIff`). `OneClaimPerReset` and `RunDeployment` therefore
  count by the reset generation in which the compare-and-set was applied.
- `markCompositionComplete` and `authorizeReady` overwrite the gate state after
  calling back. A gate that is SHUTDOWN after the callback becomes AUTHORIZABLE or OPEN
  iff the callback still answers "current" (`ShutdownLost`, and the contracts of both
  methods); in every run without such a callback ended gates stay ended
  (`RunDeployment`). The composed program has none.
- `decideExit` does not look at the clock: an exit is stored before its entry iff it was
  received before it (`ExitFirstIff`, over runs `RunExitFirstIff`), which happens
  (`ExitBeforeEntryHappens`). The log is ordered by commit, not by time.

## Assumptions

- The database reads one committed snapshot per transaction, aborts on a write to a
  document somebody else wrote since, enforces the unique indexes on
  (provider, subject), bound qualificationId, QR digest, (sourceId, externalEventId)
  and `_id`, and performs a single-document update atomically. Every document update
  increments a version or a guard, so a written document differs.
- Freshly generated UUIDs do not occur in the store yet where a lemma says so;
  UUIDs, digests, HMACs and tokens are opaque values compared for equality, and
  `_id` order is some fixed total order.
- An unspecific `findOne` may return any matching slot: the choice is a parameter.
- Clocks, timers, the renderer, the response, other requests and every `await` are
  adversaries: they answer or throw as they like, and re-enter where the code lets
  them.
- Lifecycle hooks, gates and observers may throw at any call: each throw is an input.
- COMMIT_CONFIRMED and MATCHED are only answered for an outcome that is a fact.
- A power loss keeps synced directory entries and any subset of the others.

## Model

| member | source | states |
|---|---|---|
| Domain.EntryAgreesWithExpiration | src/access/domain/access-decision.ts:97-133 | ENTRY terminalizes a qualification and frees its face iff decideQualificationExpiration does; it admits iff the qualification is unused, not terminal and its half-open window contains the instant |
| Domain.RefusedAsExpiredIsTerminalizable | src/access/domain/qualification.ts:189-277 | an update or revocation of an overdue unused qualification is refused as expired; a refusal as expired means it is terminal already or must be terminalized now |
| Domain.OneStanding | src/access/domain/qualification.ts:82-163 | a state that assertQualificationState lets through has at most one standing (inside, used, revoked, expired), with exactly the times and reason that belong to it |
| Domain.EntryReasons | src/access/domain/access-decision.ts:97-133 | each answer to an ENTRY attempt has its own condition on state and time: revoked, already inside, already used, not yet valid (even if expired before its window), expired, granted |
| Domain.ExitReasons | src/access/domain/access-decision.ts:135-149 | an EXIT attempt goes by the presence only: not inside, already exited, or recorded, and only then the face goes back |
| Domain.IdentityReasons | src/access/domain/access-decision.ts:151-181 | an inactive source is reported before anything else, then a missing identity by its medium; neither has any effect |
| Domain.MutableReasons | src/access/domain/qualification.ts:189-212 | a qualification can be changed iff it was never used, is neither revoked nor expired, and its window has not ended; each refusal iff its own condition |
| Domain.ManagementReasons | src/access/domain/qualification.ts:165-258 | a window is accepted iff it is not empty and has not ended; an update or revocation is refused for the qualification before it is refused for window or reason |
| StoreInvariants.CurrentSlotFinds | src/infrastructure/mongo/g04b-persistence-adapter.ts:1193-1214 | under the unique index the two-row query finds exactly the owned slot; "multiple mappings" cannot occur |
| StoreInvariants.ReleaseFrees | src/infrastructure/mongo/g04b-persistence-adapter.ts:1193-1207 | release frees exactly the slot of that qualification, keeps its subject and touches no other slot |
| StoreInvariants.BindOutcome | src/infrastructure/mongo/g04b-persistence-adapter.ts:1150-1191 | binding fails ALREADY_BOUND iff a bound slot holds the subject, else CAPACITY_EXHAUSTED iff 4096 slots exist and none is empty, else succeeds, whichever empty slot the server returns |
| StoreInvariants.BindKeeps | src/infrastructure/mongo/g04b-persistence-adapter.ts:1150-1191 | a successful bind claims one empty or new slot for the owner, changes no other slot and keeps subject and owner unique, the counter exact and within 4096 |
| StoreSafety.ReplacingNeverExhausts | src/infrastructure/mongo/g04b-persistence-adapter.ts:946-958 | replacing an existing mapping never fails on capacity; it fails iff somebody else holds the face |
| StoreSafety.CreateKeepsValid | src/infrastructure/mongo/g04b-persistence-adapter.ts:852-877 | CREATE keeps every store invariant |
| StoreSafety.UpdateKeepsValid | src/infrastructure/mongo/g04b-persistence-adapter.ts:929-969 | UPDATE in each mapping mode keeps every store invariant, given the window checks the use case makes |
| StoreSafety.RevokeKeepsValid | src/infrastructure/mongo/g04b-persistence-adapter.ts:914-927 | REVOKE keeps every store invariant and leaves no slot bound to the revoked qualification |
| StoreSafety.ExpireKeepsValid | src/infrastructure/mongo/g04b-persistence-adapter.ts:897-912 | EXPIRE keeps every store invariant and leaves no slot bound to the expired qualification |
| Reachable.DecideFits | src/access/application/access-scopes.ts:273-337 | inside one snapshot the handle checks never fire, and the plan let through is the decision on the stored document |
| Reachable.ArrivalSound | src/infrastructure/mongo/g04b-persistence-adapter.ts:1132-1148 | applying a decision to the state it was made on keeps the state sound and extends its accepted history by exactly the recorded event |
| Reachable.QualificationStepKeeps | src/infrastructure/mongo/g04b-persistence-adapter.ts:1095-1107 | the qualification moves by exactly what will be logged, and no slot stays bound to an ended qualification |
| Reachable.UpdateOutcome | src/access/application/use-cases.ts:140-200 | a committed update call either applied its plan or expired its overdue qualification |
| Reachable.StepKeepsValid | src/access/application/use-cases.ts:109-357 | every use case on every valid store commits a valid store or nothing |
| Reachable.RunKeepsValid | src/access/domain/qualification.ts:82-163 | every store of every run satisfies assertQualificationState for each qualification, unique subjects and owners, live same-incarnation owners, slotCount = slots <= 4096, sound events and a log that determines the state |
| Reachable.NoInternalFailure | src/infrastructure/mongo/g04b-persistence-adapter.ts:1193-1222 | on a valid store no use case ends in an internal check: stale provenance, expiry and presence guards, multiple or stale mapping, slot recount |
| Effects.ManagementEffect | src/infrastructure/mongo/g04b-persistence-adapter.ts:843-970 | a committed management plan moved at most its own qualification and slot; only an UPDATE without a mapping change leaves the metadata untouched |
| Effects.RecordEffect | src/infrastructure/mongo/g04b-persistence-adapter.ts:1065-1130 | a recorded attempt raises a guard, appends its one event and moves at most its own qualification |
| Effects.RunGrows | src/infrastructure/mongo/g04b-persistence-adapter.ts:843-1130 | along every run the log only grows, identities stay and the state of a terminal qualification never changes |
| Outcomes.CreateLeaves | src/infrastructure/mongo/g04b-persistence-adapter.ts:852-877 | a CREATE that succeeds inserted exactly the new document with the given name and window, bound a given face to it in one empty or new slot, raised the guards and changed nothing else |
| Outcomes.CreateAnswers | src/access/application/use-cases.ts:109-138 | it succeeds iff it has a name and a window that has not ended and its face, if given, can be bound |
| Outcomes.CreateRefuses | src/access/application/use-cases.ts:109-138 | otherwise each error iff its own condition: the window, the name, a face held by somebody, no slot left |
| Outcomes.UpdateLeaves | src/infrastructure/mongo/g04b-persistence-adapter.ts:929-969 | an UPDATE answered "changed" wrote exactly the given name and window bounds and kept the others; an omitted face kept its slot, null freed it, a given one is bound to this qualification; nothing else changed |
| Outcomes.UpdateBinds | src/infrastructure/mongo/g04b-persistence-adapter.ts:929-969 | after an UPDATE answered "changed" the qualification owns what it owned, nothing, or exactly one slot with the given face, as asked; nobody else is affected |
| Outcomes.UpdateAnswers | src/access/application/use-cases.ts:140-200 | it is answered "changed" iff it gives a field, the qualification is still changeable, the resulting window has not ended, the resulting name is not empty and a given face is bound already or can be |
| Outcomes.UpdateRefuses | src/access/application/use-cases.ts:140-233 | each refusal iff its own condition: no field, unknown qualification, or the reason of the rule unless an overdue qualification is expired instead |
| Outcomes.UpdateFails | src/infrastructure/mongo/g04b-persistence-adapter.ts:929-969 | an allowed UPDATE fails iff the resulting name is empty, the given face is held by somebody else, or there is no slot for it |
| Outcomes.RevokeLeaves | src/infrastructure/mongo/g04b-persistence-adapter.ts:914-927 | a REVOKE answered "changed" recorded exactly its receive time and reason, freed the face and changed nothing else |
| Outcomes.RevokeAnswers | src/access/application/use-cases.ts:235-276 | it is answered "changed" iff the qualification is still changeable and a reason is given |
| Outcomes.RevokeRefuses | src/access/application/use-cases.ts:235-276 | each refusal iff its own condition, unless an overdue qualification is expired instead |
| Outcomes.ExpireLeaves | src/infrastructure/mongo/g04b-persistence-adapter.ts:897-912 | a change answered "expired" found the qualification overdue, recorded the expiry at its own receive time, freed the face and changed nothing else |
| Outcomes.RevokedForGood | src/access/domain/access-decision.ts:101-102 | in every run after a successful REVOKE the qualification stays revoked with that time and reason, was never accepted and never will be, and holds no face |
| Outcomes.RevokedIsRefused | src/access/domain/access-decision.ts:101-102 | a scan of its credential at any later point is recorded as rejected: revoked at an entrance, not inside at an exit |
| Outcomes.RecognizeLeaves | src/infrastructure/mongo/g04b-persistence-adapter.ts:1032-1130 | a recorded attempt appended exactly its event, about exactly the qualification that carries the digest or holds the face, with the decision on the stored state; it moved that qualification accordingly, freed its face exactly when it left or was found overdue, and raised one guard and the source version |
| Outcomes.RecognizeAnswers | src/infrastructure/mongo/g04b-persistence-adapter.ts:1032-1094 | an attempt is answered iff its source exists and its key is stored already or its comparison reference is the store's; a new key is recorded, a stored one decides alone |
| Histories.LogReplaysToState | src/infrastructure/mongo/g04b-persistence-adapter.ts:1095-1148 | in every run presence, enteredAt and exitedAt equal the fold of the accepted events in commit order |
| Histories.AtMostOneVisit | src/access/domain/access-decision.ts:97-149 | a qualification is accepted at most twice: one ENTRY_GRANTED inside the stored window, then one EXIT_RECORDED |
| Histories.TerminalIsFinal | src/access/domain/access-decision.ts:97-149 | a used, revoked or expired qualification keeps its state and accepted history in every later run |
| Histories.OverdueIsExpired | src/access/application/use-cases.ts:202-233 | a change of an overdue unused qualification is refused yet commits the expiry at its receive time, frees the face and logs nothing; the adapter guard never rejects it |
| Histories.RestagingReplays | src/infrastructure/mongo/g04b-persistence-adapter.ts:1043-1063 | after any run, staging a stored key again returns the first event if the artifact matches and a conflict otherwise, and changes nothing |
| Histories.LoserAgreesWithRestaging | src/infrastructure/mongo/g04b-persistence-adapter.ts:517-553 | whoever loses the unique-key race is answered at any later point exactly as a late re-staging would be |
| Histories.ReplyAnswersRequest | src/composition/internal/recognition-event-invariants.ts:24-88 | a committed event passes the event invariant of its own request; a replayed one passes iff its kind and receive time are the request's |
| Histories.FaceMatchedAcceptedIff | src/access/application/query-application.ts:228-260 | FACE_MATCHED at t at an active source is accepted iff the face has a holder that the query view at t reports faceBound and that is enterable (ENTRY, window begun) or inside (EXIT) |
| Histories.SeedRunsAreValid | src/deployment/internal/g11d-reset-seed.ts:73-92 | the reset seed is valid, so every run from it is |
| ExitTimes.ExitFirstIff | src/access/domain/access-decision.ts:135-149 | an attempt that ends the stay of an INSIDE qualification stores an exit before the entry iff it was received before the entry |
| ExitTimes.RunExitFirstIff | src/infrastructure/mongo/g04b-persistence-adapter.ts:1032-1149 | in every run a stay is stored with its exit first iff the log holds its exit with the earlier receive time |
| ExitTimes.ExitBeforeEntryHappens | src/access/domain/access-decision.ts:135-149 | from every reset seed, an entry and an exit attempt received earlier store exactly that |
| Serializability.GuardedSerializes | src/infrastructure/mongo/g04b-persistence-adapter.ts:1224-1230 | a transaction that bumped a guard without conflict does at commit what it did on its snapshot |
| Serializability.KeepUpdateSerializes | src/infrastructure/mongo/g04b-persistence-adapter.ts:929-969 | an UPDATE without a mapping change commutes with whatever did not write its qualification |
| Serializability.ReplaySerializes | src/infrastructure/mongo/g04b-persistence-adapter.ts:1043-1063 | a replayed attempt answers at commit what it answered on its snapshot |
| Serializability.CommitSerializes | src/infrastructure/mongo/g04b-persistence-adapter.ts:843-1130 | any transaction that survives the write-write check does, and answers, what it would have done alone at commit |
| Serializability.SnapshotHistoriesAreSerial | src/infrastructure/mongo/g04b-persistence-adapter.ts:843-1130 | every snapshot-isolated history equals the serial run in commit order, state by state and reply by reply |
| Serializability.SerialRunsAreHistories | src/infrastructure/mongo/g04b-persistence-adapter.ts:843-1130 | conversely, every serial run of succeeding transactions is such a history: the definition admits them all |
| Adapter.Transaction.FindOwned | src/infrastructure/mongo/g04b-persistence-adapter.ts:1193-1198 | the two-row query returns nothing, the one owned slot, or two different ones |
| Adapter.Transaction.ReleaseFaceForQualification | src/infrastructure/mongo/g04b-persistence-adapter.ts:1193-1207 | the documents end as the release specification says, on success and on each failure |
| Adapter.Transaction.BindNewFace | src/infrastructure/mongo/g04b-persistence-adapter.ts:1150-1191 | the documents end as the bind specification says for the slot the server returned |
| Adapter.Transaction.RecountSlots | src/infrastructure/mongo/g04b-persistence-adapter.ts:1216-1222 | succeeds iff the counter of this epoch's metadata equals the number of slot documents |
| Adapter.Transaction.BumpGuard | src/infrastructure/mongo/g04b-persistence-adapter.ts:1224-1230 | raises the guard of the medium by one and nothing else |
| Adapter.Transaction.CurrentQualification | src/infrastructure/mongo/g04b-persistence-adapter.ts:879-895 | returns the document iff id, incarnation and version are those the plan was decided on |
| Adapter.Transaction.Create | src/infrastructure/mongo/g04b-persistence-adapter.ts:852-877 | step by step the same state and outcome as the CREATE specification |
| Adapter.Transaction.Expire | src/infrastructure/mongo/g04b-persistence-adapter.ts:897-912 | the same for EXPIRE, including its guard |
| Adapter.Transaction.Revoke | src/infrastructure/mongo/g04b-persistence-adapter.ts:914-927 | step by step the same state and outcome as the REVOKE specification, whose final state RevokeLeaves gives field by field |
| Adapter.Transaction.CurrentSlotOf | src/infrastructure/mongo/g04b-persistence-adapter.ts:932-945 | finds the current slot, cross-checked with what the scope read before |
| Adapter.Transaction.Rebind | src/infrastructure/mongo/g04b-persistence-adapter.ts:950-958 | frees the current slot if any and binds the requested face if any |
| Adapter.Transaction.Update | src/infrastructure/mongo/g04b-persistence-adapter.ts:929-969 | step by step the same state and outcome as the UPDATE specification in each mapping mode, whose final state UpdateLeaves gives field by field |
| Adapter.Transaction.ApplyManagementChange | src/infrastructure/mongo/g04b-persistence-adapter.ts:843-970 | every plan ends in the specified state, or fails with the specified error |
| Adapter.Transaction.ReadSourceFacts | src/infrastructure/mongo/g04b-persistence-adapter.ts:382-394 | reads the source and remembers exactly the guard it was read at |
| Adapter.Transaction.ReadQualification | src/infrastructure/mongo/g04b-persistence-adapter.ts:402-422 | reads, asserts and caches the qualification |
| Adapter.Transaction.ReadMapping | src/infrastructure/mongo/g04b-persistence-adapter.ts:424-435 | reads and caches the redacted mapping, or fails on a stale or multiple one |
| Adapter.Transaction.ResolveQr | src/infrastructure/mongo/g04b-persistence-adapter.ts:437-449 | resolves a digest to the snapshot claims of the qualification that carries it, and remembers what it read for staging |
| Adapter.Transaction.ResolveFace | src/infrastructure/mongo/g04b-persistence-adapter.ts:451-471 | resolves a face to the snapshot claims of its current holder, and remembers what it read for staging |
| Adapter.Transaction.ApplyQualificationEffect | src/infrastructure/mongo/g04b-persistence-adapter.ts:1132-1148 | presence, entry, exit and expiry fields end as the decision says; a stale presence is refused |
| Adapter.Transaction.MoveQualification | src/infrastructure/mongo/g04b-persistence-adapter.ts:1095-1107 | moves the plan's own qualification and then frees its face iff asked |
| Adapter.Transaction.GuardSource | src/infrastructure/mongo/g04b-persistence-adapter.ts:1065-1094 | the source is unchanged since it was read, has the decided direction and reference, and gains a version |
| Adapter.Transaction.LogEvent | src/infrastructure/mongo/g04b-persistence-adapter.ts:1108-1129 | bumps the medium's guard, inserts the event and recounts |
| Adapter.Transaction.ApplyRecognitionResult | src/infrastructure/mongo/g04b-persistence-adapter.ts:1032-1130 | an existing event decides alone; otherwise source, qualification, guard and event end as specified |
| Scopes.AccessScope.Close | src/access/application/access-scopes.ts:113-128 | closes the scope and retires its context; a transaction that staging has not ended is aborted, an ended one is left as it is |
| Scopes.AccessScope.ReadSourceFacts | src/access/application/access-scopes.ts:213-220 | source facts come first and decide whether resolution may read |
| Scopes.AccessScope.ResolveInput | src/access/application/access-scopes.ts:222-271 | an inactive source resolves nothing; otherwise a handle of this scope with the claims of the snapshot |
| Scopes.AccessScope.ReadResolved | src/access/application/access-scopes.ts:273-294 | a handle of another scope is refused; this scope's is re-read and must name the same identity |
| Scopes.AccessScope.CheckPlan | src/access/application/access-scopes.ts:296-337 | a plan passes iff the handle is this scope's, the plan carries the handle's claims, an identity without a qualification has no effects, and the claims still agree with the snapshot; each refusal has its own error |
| Scopes.AccessScope.StageRecognition | src/access/application/access-scopes.ts:296-337 | checks handle and plan, then applies exactly the recognition specification; the transaction is committed iff that succeeds |
| Scopes.AccessScope.StageManagement | src/access/application/access-scopes.ts:182-189 | applies exactly the management specification; the transaction is committed iff that succeeds |
| Scopes.PassHub.Create | src/access/application/use-cases.ts:109-138 | the committed store becomes exactly the specified one (CreateLeaves), or stays; the scope is closed on every path |
| Scopes.PassHub.RefuseOrExpireIn | src/access/application/use-cases.ts:202-233 | a refusal first expires an overdue qualification in the same scope |
| Scopes.PassHub.Update | src/access/application/use-cases.ts:140-200 | the committed store becomes exactly the specified one (UpdateLeaves), or stays; the scope is closed on every path |
| Scopes.PassHub.Revoke | src/access/application/use-cases.ts:235-276 | the committed store becomes exactly the specified one (RevokeLeaves), or stays; the scope is closed on every path |
| Scopes.PassHub.Recognize | src/access/application/use-cases.ts:317-357 | the committed store and reply are exactly the specified ones (RecognizeLeaves), or the store stays; the scope is closed on every path |
| JsonScanner.Scanner.Scan | src/deployment/internal/g11b-run-ticket-wire.ts:82-87 | accepts iff the recursive specification of the scan does; it terminates on every text |
| JsonScanner.Scanner.Value | src/deployment/internal/g11b-run-ticket-wire.ts:89-98 | stops at the specified offset, or fails |
| JsonScanner.Scanner.ObjectBody | src/deployment/internal/g11b-run-ticket-wire.ts:100-121 | scans members with a growing key set, as specified |
| JsonScanner.Scanner.ArrayBody | src/deployment/internal/g11b-run-ticket-wire.ts:123-135 | scans elements to the closing bracket, as specified |
| JsonScanner.Scanner.StringToken | src/deployment/internal/g11b-run-ticket-wire.ts:137-150 | the closing quote is found by escape parity and the slice decoded; what it decodes to is DecodeIff |
| JsonTheorem.ScanOfPrint | src/deployment/internal/g11b-run-ticket-wire.ts:77-167 | scanning a printed RFC 8259 document, with any whitespace and lexemes, accepts iff no object at any depth has two names equal after decoding |
| JsonTheorem.AcceptedIsPrint | src/deployment/internal/g11b-run-ticket-wire.ts:77-167 | an accepted text prints such a document |
| JsonTheorem.ScannerTheorem | src/deployment/internal/g11b-run-ticket-wire.ts:77-167 | accepted iff it is a JSON text (sections 2 to 7 of RFC 8259) without duplicate names at any depth |
| JsonStrings.ElementReadsBack | src/deployment/internal/g11b-run-ticket-wire.ts:137-150 | every unit 0..0xFFFF written with four hex digits of either case, every two-character escape of section 7 of RFC 8259 and every plain unit is read as the unit it stands for, whatever follows |
| JsonStrings.WritingsDecode | src/deployment/internal/g11b-run-ticket-wire.ts:137-150 | however a text is written, its writing decodes to it |
| JsonStrings.DecodeIff | src/deployment/internal/g11b-run-ticket-wire.ts:137-150 | a slice decodes to a text iff it is one of the ways of writing that text |
| JsonStrings.DecodeDistributes | src/deployment/internal/g11b-run-ticket-wire.ts:137-150 | decoding one writing after another gives one text after the other |
| JsonTheorem.SameNameRefused | src/deployment/internal/g11b-run-ticket-wire.ts:100-121 | an object two of whose names write the same text, anywhere in its list, is refused |
| JsonTheorem.TwoMembersAccepted | src/deployment/internal/g11b-run-ticket-wire.ts:100-121 | an object with two members is accepted iff their names stand for different texts, however written |
| JsonTheorem.EscapedNames | src/deployment/internal/g11b-run-ticket-wire.ts:100-121 | "a" and its four-digit escape are the same name; "a" and the escape of "b" are not |
| JsonCopy.ForbiddenInAnyCase | src/composition/internal/http-response-plan.ts:55-60 | the forbidden property names are refused in any case, the Kelvin sign lower-casing to k; longer names are not |
| JsonCopy.CopySound | src/composition/internal/http-response-plan.ts:222-266 | what the walk builds is the value's own finite unfolding, within the depth left |
| JsonCopy.CopyComplete | src/composition/internal/http-response-plan.ts:222-266 | a value with a finite, permitted unfolding that is shallow enough is copied, whatever its ancestors |
| JsonCopy.CopyTheorem | src/composition/internal/http-response-plan.ts:222-266 | the copy succeeds iff the value unfolds to a finite tree of permitted leaves and names no deeper than 32, and then is that tree |
| JsonCopy.CycleRefused | src/composition/internal/http-response-plan.ts:237-238 | a payload with a cycle anywhere below it is refused |
| JsonCopy.Copier.Copy | src/composition/internal/http-response-plan.ts:222-266 | same outcome and refusal as specified; ancestors restored on every exit; the copy unfolds to the same tree through objects allocated by this call only |
| Pagination.NoRowRepeats | src/infrastructure/mongo/g04b-persistence-adapter.ts:1536-1542 | whatever changes between requests, the rows shown descend strictly: none repeats |
| Pagination.NoneMissed | src/access/application/query-application.ts:149-184 | a row that matched at every request is shown exactly once when the cursors end |
| Pagination.FixedCollection | src/access/application/query-application.ts:149-184 | over a fixed collection any page sizes show exactly its rows once each, descending, in at most the number of rows + 1 requests |
| Pagination.FetchAnswers | src/infrastructure/mongo/g04b-persistence-adapter.ts:683-724 | the page query has an answer on every finite collection, cursor and limit |
| QueryLists.RunList | src/access/application/query-application.ts:149-184 | an acquired lease is released exactly once on every path; the page is the first rows with the cursor of the last visible one; too many rows, an unrenderable row or a cursor that cannot be encoded fail the whole call |
| QueryLists.AnswerIff | src/access/application/query-application.ts:149-184 | a call is answered iff at most limit + 1 rows were read, all visible ones render and a needed cursor can be encoded; then with the first limit rows, and with the cursor of the last one iff a row is left |
| QueryLists.FiltersNarrow | src/infrastructure/mongo/g04b-persistence-adapter.ts:707-717 | event filters apply independently of each other, each to one field, and no filter lets every event through |
| QueryLists.LogPagingIsComplete | src/infrastructure/mongo/g04b-persistence-adapter.ts:707-724 | paging events while use cases commit shows every event matching at the start exactly once and none twice |
| QueryLists.QualificationPagingIsComplete | src/infrastructure/mongo/g04b-persistence-adapter.ts:683-693 | the same for qualifications, however their state moves meanwhile |
| QueryLists.EntryTimeStays | src/infrastructure/mongo/g04b-persistence-adapter.ts:1032-1149 | whoever is INSIDE keeps its entry time for as long as it stays, in every run |
| QueryLists.InsidePagingIsComplete | src/infrastructure/mongo/g04b-persistence-adapter.ts:695-705 | paging the INSIDE list while use cases commit shows a visitor who is inside throughout exactly once and nobody twice |
| QueryLists.QuietLogPaging | src/infrastructure/mongo/g04b-persistence-adapter.ts:707-724 | over an unchanging valid store any page sizes show exactly the matching events, and the cursors end |
| QueryLists.PagesExist | src/infrastructure/mongo/g04b-persistence-adapter.ts:683-724 | every page of every list over a valid store exists: its sort keys are unique |
| RateLedger.Ledger.Enter | src/composition/internal/fixed-minute-rate-ledger.ts:117-125 | frozen is permanent; a request made while the clock is read freezes the ledger |
| RateLedger.Ledger.ReadGuardedClock | src/composition/internal/fixed-minute-rate-ledger.ts:184-206 | the reading is accepted iff the clock neither re-entered, threw, nor ran backwards; otherwise the ledger freezes |
| RateLedger.Ledger.Allow | src/composition/internal/fixed-minute-rate-ledger.ts:117-147 | a request is allowed iff its category, its key and the number of keys are below their limits in the log of this minute, and exactly allowed requests are logged |
| RateLedger.Ledger.StartMinute | src/composition/internal/fixed-minute-rate-ledger.ts:124-134 | a passed minute clears the counter; the minute-rollback branch is dead |
| RateLedger.RecountIs | src/composition/internal/fixed-minute-rate-ledger.ts:134-146 | deciding on the counters is deciding on the log |
| RateLedger.AllowedIffBelow | src/composition/internal/fixed-minute-rate-ledger.ts:134-146 | the recount allows a request iff strictly fewer were allowed this minute than each limit permits, counted as sets of logged requests |
| RateLedger.WindowBound | src/composition/internal/fixed-minute-rate-ledger.ts:134-146 | any window of n minutes holds at most (n+1) times the global and per-key limits |
| RateLedger.AnyMinute | src/composition/internal/fixed-minute-rate-ledger.ts:134-146 | with the built-in limits, what any 60 seconds can hold of each category and key |
| ResponseOwner.Owner.Handle | src/composition/internal/http-response-owner.ts:129-204 | under any re-entrant, throwing callbacks an event moves only an open owner, and then ends it settled: released once; a response or deadline writes the given plan iff it renders, and ends the response iff no write throws |
| ResponseOwner.Owner.ClaimAndRespond | src/composition/internal/http-response-owner.ts:167-204 | succeeds iff open; claims before it renders, writes the given plan iff it renders, ends iff no write throws, and closes |
| ResponseOwner.Owner.CloseWithoutResponse | src/composition/internal/http-response-owner.ts:129-139 | closes an open owner without an answer, defers while claiming, else nothing |
| ResponseOwner.Owner.Construct | src/composition/internal/http-response-owner.ts:213-247 | returns an armed open owner or a settled one; a throwing construction never released and never answered; without re-entrance it opens iff the clock is usable, nothing throws and the response is not closed; the delay is at most 5000 ms |
| ResponseOwner.Live | src/composition/internal/http-response-owner.ts:55-250 | over a whole life at most one answer, exactly one release once closed, none if construction throws; undisturbed, it is answered iff it opened and its first event responds |
| ResourceLedger.Reservations | src/composition/internal/admission-resource-ledger.ts:3-16 | status retrieval and each kind of validation have pools of their own, only writers take an origin lease, and there are 32 origins for 28 + 4 responses |
| ResourceLedger.Ledger.Mint | src/composition/internal/admission-resource-ledger.ts:140-148 | a new active lease; the pool's count stays the number of its active leases |
| ResourceLedger.Ledger.Release | src/composition/internal/admission-resource-ledger.ts:150-163 | succeeds iff the lease is active and of an expected pool, once |
| ResourceLedger.Ledger.TryAcquire | src/composition/internal/admission-resource-ledger.ts:177-190 | grants all leases of the class or none; every pool stays within its limit |
| AdmissionFlows.Deliver | src/composition/internal/g07b-admission-handler.ts:1631-1639 | an event closes an open response owner, and the http lease goes back exactly in its one release |
| AdmissionFlows.Request.RunLogin | src/composition/internal/g07b-admission-handler.ts:1396-1455 | every path returns the http, validation and scrypt leases; scrypt is taken iff peer, rate and pool allow, and the work is done iff it was and the login is valid |
| AdmissionFlows.Request.RunQuery | src/composition/internal/g07b-admission-handler.ts:1457-1552 | the same with the query database lease; while no other request acts, taken iff both vetoes, validation, rate and pool allow; the work is done iff it was and the permission is given |
| AdmissionFlows.Request.RunExistingOnly | src/composition/internal/g07b-admission-handler.ts:1554-1617 | the same for status retrieval; while no other request acts, a canonicalReplay lease is taken iff the request is valid, allowed, a replay, and the pool has one |
| AdmissionFlows.Request.HandleReplay | src/composition/internal/g07b-admission-handler.ts:1036-1057 | one canonicalReplay lease spans the answer iff the pool has one, and goes back |
| AdmissionFlows.StartNonWriter | src/composition/internal/g07b-admission-handler.ts:1334-1375 | with a bad clock or a throwing owner construction both leases go straight back; otherwise the http lease is out until the owner closes; the exact condition of an open owner |
| AdmissionFlows.Serve | src/composition/internal/g07b-admission-handler.ts:1121-1145 | from TryAcquire to the end, on every path: admitted iff both pools have a lease, and the only leases out that were not issued before are other requests' |
| WriteCoordinator.Coordinator.Register | src/access/application/internal/write-operation-coordinator.ts:666-727 | refused behind the fence or with a bad clock; a throwing observer ends the operation and strands the queue |
| WriteCoordinator.Coordinator.Activate | src/access/application/internal/write-operation-coordinator.ts:731-743 | decides once; a throwing observer ends the operation untold and strands the queue |
| WriteCoordinator.Coordinator.RejectBeforeStart | src/access/application/internal/write-operation-coordinator.ts:744-760 | tells PRESTART_REJECTED iff undecided and still queued |
| WriteCoordinator.Coordinator.SettleMaintenance | src/access/application/internal/write-operation-coordinator.ts:766-779 | tells KNOWN_NO_EFFECT iff undecided and still queued; others stay as they are |
| WriteCoordinator.Coordinator.Start | src/access/application/internal/write-operation-coordinator.ts:628-664 | starts the head iff nothing runs or is fenced off, it is validated and the gate allows; then every earlier operation has ended |
| WriteCoordinator.Coordinator.Record | src/access/application/internal/write-operation-coordinator.ts:344-350 | the first settlement is the candidate, a second makes the operation invalid |
| WriteCoordinator.Coordinator.RequestPause | src/access/application/internal/write-operation-coordinator.ts:313-333 | possible iff the operation is current and has settled nothing |
| WriteCoordinator.Coordinator.Complete | src/access/application/internal/write-operation-coordinator.ts:424-449 | exactly one legal settlement is published as it is, a well-formed pause holds the queue, anything else is published as unknown and strands the queue |
| WriteCoordinator.Coordinator.Finalize | src/access/application/internal/write-operation-coordinator.ts:451-511 | the observer is told once; unknown, or a throwing observer, closes the fence and strands the queue |
| WriteCoordinator.Coordinator.FinalizeRecovered | src/access/application/internal/write-operation-coordinator.ts:541-560 | a proved pause is told as persisted and reopens the queue, unless the observer throws |
| WriteCoordinator.Coordinator.FailClosed | src/access/application/internal/write-operation-coordinator.ts:370-394 | the operation and everyone queued end untold, behind the fence |
| WriteCoordinator.StrandedBehindUnknown | src/access/application/internal/write-operation-coordinator.ts:473-487 | a run in which an operation waiting behind an unknown effect ends without the observer being told |
| WriterFlows.EndsOk | src/composition/internal/g07b-admission-handler.ts:711-975 | an executor settles once, pauses, or is published as unknown: as known iff the work retained nothing and returned just that (and a recognition's registry took it), paused iff a commit was retained and the pause succeeded |
| WriterFlows.BeginsIff | src/composition/internal/g07b-admission-handler.ts:711-861 | work is issued iff the rate allows it, nothing throws on the way and a recognition is the original of its key; what is settled instead is unknown iff the registry or the context failed, or a rejected reservation could not be released |
| WriterFlows.ValidationIff | src/composition/internal/g07b-admission-handler.ts:1219-1332 | a validated writer is activated, told KNOWN_NO_EFFECT for maintenance, told PRESTART_REJECTED, or failed untold, each iff its own condition on result, cancellation and what threw |
| WriterFlows.Handler.Settled | src/composition/internal/g07b-admission-handler.ts:638-662 | a known outcome returns the recorded origin lease, an unknown one keeps it |
| WriterFlows.Handler.Admit | src/composition/internal/g07b-admission-handler.ts:1148-1217 | the exact condition of a registered writer; a refused one leaves nothing behind; one whose identity cannot be bound or whose owner throws is told PRESTART_REJECTED; the rest await validation |
| WriterFlows.Handler.ValidationReturns | src/composition/internal/g07b-admission-handler.ts:1219-1332 | the validation lease goes back, the operation becomes exactly what ValidationIff describes, and the request is answered iff it was neither activated nor settled |
| WriterFlows.Handler.Drain | src/composition/internal/g07b-admission-handler.ts:711-861 | the head starts iff it may; what its executor settles before any work is issued, and that otherwise the work is issued |
| WriterFlows.Handler.HandleReplay | src/composition/internal/g07b-admission-handler.ts:1036-1057 | the canonicalReplay lease of a writer's replay is taken iff the pool has one, the request answered, and the lease returned |
| WriterFlows.Handler.WorkReturns | src/composition/internal/g07b-admission-handler.ts:711-975 | leaves exactly the settlement, pause or failure of EndsOk in the operation, and answers unless a management pause failed |
| WriterFlows.Handler.ExecutorReturns | src/access/application/internal/write-operation-coordinator.ts:424-449 | publishes or pauses by that, with the origin lease following |
| WriterFlows.Handler.RecoveryReturns | src/access/application/internal/write-operation-coordinator.ts:600-620 | a paused operation ends as persisted iff its commit was proved, otherwise as unknown |
| WriterFlows.Handler.SettleReady | src/access/application/internal/write-operation-coordinator.ts:835-859 | exactly the validated operations before the first one whose cleanup or observer throws are told KNOWN_NO_EFFECT and leave the queue; it stops iff there is such a one |
| WriterFlows.Handler.Step | src/composition/internal/g07b-admission-handler.ts:638-711 | every event keeps all writers' leases and settlements in order, does to its operation and writer what Moves says, and never changes what the observer was told |
| WriterFlows.WriterLeases | src/composition/internal/g07b-admission-handler.ts:638-662 | per writer: http is out iff its response is open, validation iff it is awaited, origin until a known outcome is told to a handler that recorded it; a known outcome is what the work returned, or no work was issued, or its commit was proved |
| WriterFlows.OriginPool | src/composition/internal/admission-resource-ledger.ts:177-190 | the origin pool holds exactly one lease for each unsettled writer |
| WriterFlows.Run | src/composition/internal/g07b-admission-handler.ts:638-711 | all this over any events of any number of writers and other requests, with the trace of states between them; at most 32 writers are unsettled; behind a published unknown nothing runs or waits |
| RecoveryBridge.OperationBridge.Bind | src/composition/internal/g10b-operation-bridge.ts:143-159 | scope and admission are bound once and one to one |
| RecoveryBridge.Bridge.BeginIssuedPersistence | src/composition/internal/g10c-g07-recovery-bridge.ts:306-336 | begins only when no writer is active and an owner is bound |
| RecoveryBridge.Bridge.ObserveRetained | src/composition/internal/g10c-g07-recovery-bridge.ts:153-164 | accepts a handoff iff it is the first of the active unfinished writer and of that writer's own open scope |
| RecoveryBridge.Bridge.FinishIssuedPersistence | src/composition/internal/g10c-g07-recovery-bridge.ts:337-348 | returns the lease iff nothing was retained |
| RecoveryBridge.Bridge.PausePostCommitUnknown | src/composition/internal/g10c-g07-recovery-bridge.ts:349-404 | queues the one ticket of the retained writer; any fault keeps the writer active and its lease held |
| RecoveryBridge.Bridge.Claim | src/composition/internal/g10c-g07-recovery-bridge.ts:207-215 | claims exactly a queued ticket, once |
| RecoveryBridge.Bridge.StartConfirmed | src/composition/internal/g10c-g07-recovery-bridge.ts:235-262 | starts only for a current claimed ticket whose outcome is proved; a premature call changes nothing |
| RecoveryBridge.Bridge.FinishConfirmed | src/composition/internal/g10c-g07-recovery-bridge.ts:263-283 | the lease goes back iff cleanup and publication succeeded; otherwise it stays as a fence |
| RecoveryBridge.Bridge.FailClosed | src/composition/internal/g10c-g07-recovery-bridge.ts:284-293 | ends the ticket and keeps invocation and lease |
| RecoveryBridge.Bridge.Guarantees | src/composition/internal/g10c-g07-recovery-bridge.ts:149-200 | lease released iff not the active one: at most one lease and one live ticket, handoffs of the own scope, no lease of an accepted handoff back before its outcome is proved; refused handoffs are the subject of RecoverySystem |
| RecoveryScheduler.Scheduler.Arm | src/composition/internal/g10c-recovery-scheduler.ts:133-149 | a timer with the given delay iff the clock is trusted and the timer arms; otherwise failed closed |
| RecoveryScheduler.Scheduler.Drive | src/composition/internal/g10c-recovery-scheduler.ts:160-173 | fails closed iff the clock is not trusted or the command of a present ticket does not start; otherwise sends the command of the ticket, claiming the first queued one, or goes idle with an empty queue |
| RecoveryScheduler.Scheduler.Send | src/composition/internal/g10c-recovery-scheduler.ts:174-190 | sends the next of the strictly alternating commands iff it starts, otherwise fails closed |
| RecoveryScheduler.Scheduler.CommitReturns | src/composition/internal/g10c-recovery-scheduler.ts:175-186 | confirmation is awaited iff the answer is COMMIT_CONFIRMED and registry and cleaner allow; the read is armed, after 1000 ms the first time and 2000 ms later, iff the answer is a proper non-confirmation, the clock trusted and the timer arms; it fails closed in exactly the other cases |
| RecoveryScheduler.Scheduler.ReadReturns | src/composition/internal/g10c-recovery-scheduler.ts:188-198 | confirmation is awaited iff the answer is MATCHED and registry and cleaner allow; the original commit is armed after 2000 ms iff the outcome stays unknown, the clock is trusted and the timer arms; it fails closed in exactly the other cases |
| RecoveryScheduler.Scheduler.ConfirmationReturns | src/composition/internal/g10c-recovery-scheduler.ts:121-131 | the lease goes back iff cleaned and published, and it is idle iff the clock is trusted then too; otherwise failed closed, with the lease held if not cleaned or published |
| RecoveryScheduler.Scheduler.FailClosed | src/composition/internal/g10c-recovery-scheduler.ts:106-119 | absorbing: no timer, no work, the claimed ticket ended unsafely |
| RecoveryScheduler.Scheduler.Wake | src/composition/internal/g10c-recovery-scheduler.ts:205-208 | does nothing while busy or failed; from idle it fails closed iff the clock is not trusted or the command does not start, commits for the first queued ticket, or stays idle with an empty queue |
| RecoverySessions.Adapter.SendCommit | src/infrastructure/mongo/g04b-persistence-adapter.ts:1355-1383 | a commit is sent once per transaction; from then on its session is kept for its outcome |
| RecoverySessions.Adapter.Reject | src/infrastructure/mongo/g04b-persistence-adapter.ts:1384-1435 | a failed commit is offered for recovery iff its scope never was and its budget can start a confirmation; the session stays unless ending it threw |
| RecoverySessions.Adapter.Discard | src/infrastructure/mongo/g04b-persistence-adapter.ts:281-301 | ends a transaction only before its commit was sent |
| RecoverySessions.Adapter.ReleaseConfirmed | src/infrastructure/mongo/g04b-persistence-adapter.ts:310-346 | ends exactly the session of the handoff, once inactive, and never retries |
| RecoverySystem.System.CommitRejects | src/infrastructure/mongo/internal/g10c-post-commit-unknown-handoff.ts:408-458 | the transaction is taken over by the active writer iff its budget can start a confirmation, it was never offered, and the bridge accepts the scope; otherwise the commit stays refused |
| RecoverySystem.System.ConfirmationDone | src/infrastructure/mongo/g04b-persistence-adapter.ts:310-346 | the lease goes back iff the retained session was ended and the outcome published; that commit alone is then released |
| RecoverySystem.System.Step | src/composition/internal/g10c-g07-recovery-bridge.ts:390-402 | an idle scheduler with a queued ticket has a wake pending; only a failed commit reply that is not taken over makes a commit refused |
| RecoverySystem.DrainedOutcomes | src/composition/internal/g10c-g07-recovery-bridge.ts:149-200 | with no lease held, a commit's outcome is unproved iff the commit is in flight or refused |
| RecoverySystem.RunSystem | src/composition/internal/g10c-g07-recovery-bridge.ts:149-200 | in every run of all given events: one held lease at most, every kept session is its commit's, and when the system is drainable an unknown outcome is exactly an in-flight or refused commit |
| RecoverySystem.RefusedHandoffDrains | src/composition/internal/g10c-g07-recovery-bridge.ts:153-164 | a run that is drainable while the outcome of a commit is unknown, because the bridge refused its transaction |
| RecoverySystem.ConfirmedDrains | src/composition/internal/g10c-recovery-scheduler.ts:121-131 | a run from a rejected commit over its queued ticket, the confirmed original, cleanup and publication to an idle and drainable system whose outcome is proved |
| WriteAuthority.RunInv | src/deployment/internal/g11b-persistent-run-claim-engine.ts:74-131 | in every interleaving of processes, crashes, power losses, lost replies and resets the ticket, token and claim invariants hold |
| WriteAuthority.TicketConsumedOnce | src/deployment/internal/g11b-run-ticket-engine.ts:189-245 | a ticket id is consumed at most once |
| WriteAuthority.OneClaimPerReset | src/deployment/internal/g11b-persistent-run-claim.ts:19-37 | counted by the reset generation of the applied compare-and-set, at most one process is ever told CLAIMED, each with its own ticket; in the current generation the claim is its run and its ticket is of the current epoch |
| WriteAuthority.CasWinsIff | src/deployment/internal/g11b-persistent-run-claim.ts:19-37 | a pending compare-and-set sets the claim iff the epoch is its ticket's and no claim is set; otherwise it changes no claim |
| WriteAuthority.ReplyTellsIff | src/deployment/internal/g11b-persistent-run-claim-engine.ts:95-131 | a process that awaits its reply is told CLAIMED iff its compare-and-set was applied |
| WriteAuthority.AppliedInItsEpoch | src/deployment/internal/g11b-persistent-run-claim.ts:19-37 | in every run each applied compare-and-set carried the epoch the dataset had throughout the generation it was applied in |
| WriteAuthority.TicketWasForItsRun | src/deployment/internal/g11b-run-ticket-engine.ts:189-245 | in every run a process that carries a ticket read it as the run the ticket names |
| WriteAuthority.UndisturbedClaim | src/deployment/internal/g11b-persistent-run-claim-engine.ts:74-131 | an undisturbed process with an unused ticket is told CLAIMED iff the ticket is of the dataset's epoch |
| WriteAuthority.ResetKeepsClaim | src/deployment/internal/g11d-reset-seed.ts:117-133 | a reset to another epoch clears the claim and starts a generation nothing has claimed yet; to the same epoch it changes nothing |
| WriteAuthority.ClaimedHoldsIff | src/deployment/internal/g11b-persistent-run-claim.ts:19-37 | a process told CLAIMED made the current claim iff no reset came after its compare-and-set |
| WriteAuthority.ClaimMayArriveLate | src/deployment/internal/g11b-persistent-run-claim-engine.ts:95-131 | from any initial world, twelve steps after which a process is told CLAIMED for a generation that is over |
| Bootstrap.Engine.CreateBootstrap | src/composition/internal/g11b-claimed-runtime-bootstrap-engine.ts:314-342 | a claim starts at most one runtime |
| Bootstrap.Engine.TakeRegistryAuthority | src/composition/internal/g11b-claimed-runtime-bootstrap-engine.ts:177-188 | one authority, while composing; a second request fails the gate |
| Bootstrap.Engine.ComposeRegistry | src/composition/internal/g11b-claimed-runtime-bootstrap-engine.ts:138-166 | an unused authority of a composing runtime gives one registry receipt; otherwise the gate fails |
| Bootstrap.Engine.CompleteComposition | src/composition/internal/g11b-claimed-runtime-bootstrap-engine.ts:275-311 | an unused registry receipt of the same runtime gives one proof; otherwise the gate fails |
| Bootstrap.Engine.MarkCompositionComplete | src/composition/internal/g11b-claimed-runtime-bootstrap-engine.ts:190-210 | an unused proof of the same composing runtime gives one receipt iff the callback answers current; the gate after the callback is SHUTDOWN iff the callback shut it down, and AUTHORIZABLE afterwards all the same |
| Bootstrap.Engine.AuthorizeReady | src/composition/internal/g11b-claimed-runtime-bootstrap-engine.ts:212-227 | an unused receipt of the same authorizable runtime opens the gate iff the callback answers current, even over a SHUTDOWN begun in it; otherwise it fails |
| Bootstrap.ShutdownLost | src/composition/internal/g11b-claimed-runtime-bootstrap-engine.ts:212-227 | a run whose gate is SHUTDOWN after the callback and OPEN at the end |
| Bootstrap.Engine.GetState | src/composition/internal/g11b-claimed-runtime-bootstrap-engine.ts:110-117 | an open gate whose lifecycle is over shuts down when looked at; nothing else moves |
| Bootstrap.Engine.Fail | src/composition/internal/g11b-claimed-runtime-bootstrap-engine.ts:360-363 | FAILED unless already SHUTDOWN |
| Bootstrap.OpenNeedsTheChain | src/composition/internal/g11b-claimed-runtime-bootstrap-engine.ts:177-228 | OPEN implies one claim and exactly one used authority, registry receipt, proof and receipt, all of this runtime; no other runtime has that claim |
| Deployment.Deployment.Step | src/composition/internal/g11b-claimed-runtime-bootstrap-engine.ts:177-228 | a gate opens only by authorization of a live runtime with a claim; an ended gate is left only by a callback that contradicts itself; the world moves by exactly the outside actions |
| Deployment.RunDeployment | src/composition/internal/g11b-claimed-runtime-bootstrap-engine.ts:177-228 | in every run of processes, resets and gates: the chain and the claim behind every OPEN, each gate opens at most once, the claim of every opened gate was made by a ticket of its own epoch, any two gates that opened were claimed in different reset generations, and ended gates stay ended unless a callback contradicts itself |
| Deployment.OpenedByClaims | src/composition/internal/g11b-claimed-runtime-bootstrap-engine.ts:314-342 | gates that opened were claimed in pairwise different generations, each of the current generation by a ticket of the current epoch |
| Deployment.OneComposition | src/composition/internal/g11b-claimed-runtime-bootstrap-engine.ts:138-342 | an undisturbed process with an unused ticket composes and opens its gate iff the ticket is of the dataset's epoch |

## Left out

- Effects.RunGrows: resets are not steps of these runs; a reset starts a new run at the seed.
- Histories.RestagingReplays: claimed at the adapter only; the mapping of the replayed event to an HTTP answer is not part of it.
- JsonCopy.Copier.Copy: `__proto__` keys, whose assignment would set a prototype, and the JavaScript order of integer-like keys are not modelled.
- JsonTheorem.ScannerTheorem: recursion depth is unbounded, while the runtime's stack is not.
- Pagination.NoneMissed: encoding and decoding a cursor is taken as the identity; its signature, epoch and filter checks are not modelled.
- QueryLists.InsidePagingIsComplete: a visitor who leaves between two requests may be shown or not.
- WriterFlows.EndsOk: whether the work's commit was retained, and whether its pause fails, are inputs here; `RecoveryBridge` says when either happens.
- WriterFlows.Run: the event loop's order is any order; that a deferred drain is woken again, and that anything ever completes, is not claimed.
- WriteAuthority.OneClaimPerReset: the reset transaction is one atomic step.
- The MongoDB driver, sessions, retries, BSON, write concerns and time budgets; begin, commit, fail and discard are the boundary of one transaction.
- RecoverySystem.RunSystem: transactions begun outside a bound writer's scope (`discard` and `fail` without a binding) are not part of it.
- Management receipts and expected images written beside a management change.
- The checks of provider, subject, externalEventId, actorId and sourceId grammars, and the Date range beyond 8.64e15 ms.
- Scope contexts, handles, receipts and plans branded by WeakMap: typed values stand for them.
- parseRunTicketWire around the scanner: UTF-8, size, exact keys and UUID formats.
- Ticket directory ownership, mode, inode and identity checks, and the bounded read loop; failing any of them is the crash step.
- The operation registry, writer quiescence, runtime control and query cursor codec: only what their callers rely on is assumed.
- In the admission handler: routing, epoch checks, sanitizers, observation references, runtime identities, the freezing of asynchronous dependencies, and the business work itself; its answer is an input.
- Registry reservations: whether releasing one throws is an input, the reservations themselves are not counted.
- Detail queries, event rendering and JSON formatting of rows.
- JWT, scrypt, HMAC and digest computation; HTTP, Nest, Docker, NGINX and Compose wiring.
- The decision table, timer contract, handoff tokens, shutdown owner and unknown-recognition receipts: they would add easy members only.
