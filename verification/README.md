# Verified models of AgentNexus

This project states in Dafny what the trusted parts of AgentNexus do and proves what they are for. It verifies with
`dafny verify dfyconfig.toml` (Dafny 4.11).

- **Durable actions** (`action_*.dfy`). One action moves along a frozen lifecycle, gets one one-use grant, and its
  dispatch consumes that grant and writes an outbox row in one step; claimers deliver the row with backoff and
  dead-lettering; a receipt completes the action through a deduplicated inbox.
  `action_state` is the transition table, `action_store` the atomic store operations as functions on the store's value
  together with the joint invariant of its maps, `action_memory` the in-memory store, evidence consumer and audit sink
  as classes, `action_service` the service operations as methods over them. `action_ops` cuts each operation at the
  points where others can run (read; audit; store command), `action_system` interleaves any number of operations,
  evidence changes, claimers and crashes at those points and keeps one invariant, `action_guarantees` states what
  follows for every run, `action_sequential` that a service nobody disturbs runs through states of that system whichever
  audit appends fail, `action_effects` exactly when each operation succeeds and what it leaves behind, in terms of what
  is stored, `action_backoff` when a row of the outbox is attempted again, `action_traces` which operations leave a
  trace, and `action_histories` that the odd branches among them are reached.
- **Signed audit evidence** (`merkle.dfy`, `audit_chain.dfy`, `audit_bundle.dfy`, `audit_content.dfy`): the Merkle tree of
  section 2.1 of RFC 6962 over digest strings, the hash-linked signed chain, bundles verified against a trust anchor,
  and what acceptance says field by field.
- **Agent trust registry** (`runtime_trust.dfy`, `agent_trust.dfy`, `agent_trust_service.dfy`): immutable certification
  revisions, hash-chained status logs, and the assessment of a presented release.
- **Secret provider** (`secret_provider.dfy`), **manifest migration** (`connector_pack.dfy`, `connector_migration.dfy`,
  `connector_rules.dfy`) and **mTLS identities** (`identity_uri.dfy`), over the shared `digests.dfy`, `text.dfy` and
  `joined_keys.dfy`.

Objects whose methods update fields are classes; each of their methods is proved equal to a function, or to a
relation, on the value of those fields, and the properties are proved of those functions over all runs.

Assumptions are parameters or preconditions, never axioms. SHA-256 is a parameter with the length of its renderings;
where collision freedom is needed it is assumed only on the strings that the computation at hand hashes. Signing,
base64 and the canonical encodings are parameters with `Sound` and `CollisionFree` saying what is assumed. Generated
ids are assumed new (a step of the interleaved system that reuses one does nothing; `FreshIds` says it for the secret
provider). Clocks, generated ids, wired validators and the answers of the transport are parameters. Text is a sequence
of characters; a composite store key is a pair, as in the durable stores, except that
of an agent client, which is joined by NULs as in the in-memory store.

Places where the code does less than its surroundings suggest are stated as they are, each with the exact condition
under which the expected property holds:

- a failed audit append leaves no trace, except that of a compensation's second append
  (`ActionTraces.FailedAppendLeavesNoTrace`); the compensation then left behind, as when the original is under reconciliation,
  turns every later attempt into one that changes nothing (`ActionTraces.FirstCompensation`,
  `ActionTraces.StrandedOriginal`);
- a compensable action need not have been dispatched (`ActionTraces.CancelledActionsAreCompensable`,
  `ActionGuarantees.CompensableWasDispatched`);
- a result id shared between two actions is audited as a completion that never happens
  (`ActionTraces.SharedResultIdCompletesNothing`), and a reconciliation can fail to resolve for the same reason
  (`ActionTraces.ResolutionCompletes`); both happen (`ActionHistories.SharedResultIdHappens`,
  `ActionHistories.IdleResolutionHappens`);
- the leaf index of a Merkle witness is not checked (`Merkle.LeafIndexIsNotBound`, `Merkle.LeafIndexRightIff`);
- versions with signs parse (`RuntimeTrust.SegmentForms`, `RuntimeTrust.DottedNumericIff`);
- the documentation calls the derivation context injective for all field contents, but fields of more than 4 GiB can
  break it (`SecretProvider.KdfContextWraps`, `SecretProvider.ContextsSeparateIff`);
- agent clients are filed under a key joined by NULs, and two clients that both can be registered can share a record
  (`AgentTrust.SharedRecordsExist`, `AgentTrust.SecondTakesTheRecord`); a client's record is its own exactly when no
  other choice of two NULs of its key leaves three fields that registration accepts
  (`AgentTrust.RegistrationsApartIff`), for which it is enough that it contains none (`AgentRegistry.JoinedKeyInjective`).

## Model

| member | source | states |
|---|---|---|
| ActionState.LifecycleIsBounded | services/agentnexus/internal/actions/state_machine.go:35-101 | along the table no status recurs and no action makes more than nine transitions; nine are possible |
| ActionState.CompensableAgainstTable | services/agentnexus/internal/actions/state_machine.go:72-112 | compensable and the table agree on every status but reconciling |
| ActionState.EdgesIntoSideEffects | services/agentnexus/internal/actions/state_machine.go:35-92 | dispatched is entered from granted only, the statuses after it only from one past dispatch, and every edge climbs |
| ActionStore.ConsumedMeansOneRow | services/agentnexus/internal/actions/model.go:460-525 | under the joint invariant a grant is consumed iff exactly one outbox row exists; granted means one unconsumed grant; a receipt implies a row |
| ActionStore.PutKeeps | services/agentnexus/internal/actions/model.go:424-438 | a request keeps the joint invariant and everything a concurrent reader may rely on |
| ActionStore.GrantKeeps | services/agentnexus/internal/actions/model.go:460-481 | so does a grant, whatever happened since its caller read the action |
| ActionStore.GrantIsNotReplaced | services/agentnexus/internal/actions/model.go:460-481 | in any store, a grant that is there is never replaced |
| ActionStore.DispatchKeeps | services/agentnexus/internal/actions/model.go:483-525 | so does consuming the grant and writing the row |
| ActionStore.AdvanceKeeps | services/agentnexus/internal/actions/model.go:527-548 | so does a plain transition |
| ActionStore.IngestKeeps | services/agentnexus/internal/actions/model.go:550-572 | so does a completion of an action whose grant is consumed |
| ActionStore.RecordKeeps | services/agentnexus/internal/actions/model.go:709-731 | so does recording a delivery attempt that respects the attempt bound |
| ActionMemory.MemoryStore.PutRequested | services/agentnexus/internal/actions/model.go:424-438 | the in-place store does what the pure operation does: one action per tenant and idempotency key, conflict on another operation |
| ActionMemory.MemoryStore.Grant | services/agentnexus/internal/actions/model.go:460-481 | new maps and result are those of the pure operation, or an error and no change |
| ActionMemory.MemoryStore.Dispatch | services/agentnexus/internal/actions/model.go:483-525 | grant consumed, row written and status moved together, or an error and no change |
| ActionMemory.MemoryStore.Transition | services/agentnexus/internal/actions/model.go:527-548 | the edge is taken only from the expected status and only if the table has it |
| ActionMemory.MemoryStore.IngestResult | services/agentnexus/internal/actions/model.go:550-572 | a result id is applied once per tenant; a second arrival returns the named action unchanged |
| ActionMemory.MemoryStore.ClaimDispatch | services/agentnexus/internal/actions/model.go:625-636 | exactly one attempt on a pending unclaimed row, recorded and released; otherwise no change |
| ActionMemory.MemoryStore.AcquireNextDispatch | services/agentnexus/internal/actions/model.go:678-699 | claims an oldest eligible unclaimed unvisited row, or there is none |
| ActionMemory.MemoryStore.ClaimPendingDispatches | services/agentnexus/internal/actions/model.go:638-661 | a drain of a quiet store attempts distinct eligible rows oldest first, all of them unless the bound stops it, records each attempt, and changes nothing else |
| ActionMemory.MemoryEvidenceConsumer.ConsumeApprovalEvidence | services/agentnexus/internal/actions/model.go:785-801 | evidence for a plan is consumed at most once, and never when revoked or absent |
| ActionMemory.MemoryAuditSink.AppendActionAudit | services/agentnexus/internal/actions/model.go:821-830 | one event more and its number, or a failure and no event; each attempt may fail or not |
| ActionMemory.Deliverer.Deliver | services/agentnexus/internal/actions/outbox.go:99-134 | publishes the row's message; by the answer and the time it came the row is published, dead-lettered iff this was the eighth attempt, or due again after 5, 10, 20, 40, 80, 160 or 300 seconds |
| ActionMemory.DrainIsRun | services/agentnexus/internal/actions/model.go:638-661 | a drain is a run of acquire, deliver, stamp and release steps of the interleaved system |
| ActionOutbox.DispatchRetryDelay | services/agentnexus/internal/actions/outbox.go:78-90 | the doubling loop computes 5·2^(n-1) seconds capped at five minutes |
| ActionOutbox.BackoffSchedule | services/agentnexus/internal/actions/outbox.go:61-90 | the waits before dead-lettering are 5, 10, 20, 40, 80, 160 and 300 seconds |
| ActionOutbox.OutcomeRespectsBound | services/agentnexus/internal/actions/outbox.go:99-134 | a failed attempt dead-letters the row exactly when it is the eighth |
| ActionBackoff.BackoffOfEveryRow | services/agentnexus/internal/actions/outbox.go:99-134 | in every reachable state a pending row with n recorded failures is due the n-th of 5, 10, 20, 40, 80, 160 and 300 seconds after the last of them, and a row is dead-lettered iff it failed eight times |
| ActionBackoff.FailureIsRecorded | services/agentnexus/internal/actions/model.go:709-731 | the recorded failure times are the clock readings of the failed deliveries |
| ActionBackoff.TakenWhenDue | services/agentnexus/internal/actions/model.go:663-674 | a claim that asks for eligible rows takes an unclaimed pending row iff its wait has passed |
| ActionBackoff.DrainedRow | services/agentnexus/internal/actions/model.go:638-661 | what a drain leaves on each row it attempted: published, due again by the schedule after the clock reading of its failure, or dead-lettered |
| ActionBackoff.DrainedWhenDue | services/agentnexus/internal/actions/model.go:733-743 | a drain attempts only pending unclaimed rows that are due |
| ActionBackoff.DrainOrder | services/agentnexus/internal/actions/model.go:638-699 | a drain attempts each row once, in order of creation, and passes over no due row for a younger one |
| ActionBackoff.DueMeansEligible | services/agentnexus/internal/actions/model.go:733-743 | and every such row may be attempted |
| ActionServices.Service.RequestAction | services/agentnexus/internal/actions/service.go:201-266 | ports and result change exactly as the operation prescribes, from validation to the stored action |
| ActionServices.Service.Grant | services/agentnexus/internal/actions/service.go:274-350 | trust gate, one-shot evidence, exact operation, audit, then the grant; every failure leaves what it must |
| ActionServices.Service.Dispatch | services/agentnexus/internal/actions/service.go:356-399 | committed before published: a delivery failure never undoes or fails the dispatch |
| ActionServices.Service.RepublishPending | services/agentnexus/internal/actions/outbox.go:186-205 | one bounded oldest-first drain; the count is that of the messages the transport accepted |
| ActionServices.Service.IngestReceipt | services/agentnexus/internal/actions/service.go:412-475 | verified and legal before audited, audited before applied |
| ActionServices.Service.VerifyReceipt | services/agentnexus/internal/actions/service.go:482-507 | accepts exactly a valid receipt that binds the operation and schema, attests a technical result and passes the wired verifier |
| ActionServices.Service.MarkExecuting | services/agentnexus/internal/actions/service.go:403-405 | audited move from dispatched to executing |
| ActionServices.Service.MarkResultUnknown | services/agentnexus/internal/actions/service.go:512-527 | audited move from dispatched or executing to result unknown |
| ActionServices.Service.HumanTakeover | services/agentnexus/internal/actions/service.go:530-545 | audited escalation wherever the table allows it |
| ActionServices.Service.Cancel | services/agentnexus/internal/actions/service.go:550-568 | fails cleanly before dispatch, escalates after it, refuses otherwise |
| ActionServices.Service.BeginReconciliation | services/agentnexus/internal/actions/reconcile.go:23-25 | audited move from result unknown to reconciling |
| ActionServices.Service.ResolveReconciliation | services/agentnexus/internal/actions/reconcile.go:31-72 | succeeds only on a verified recovered receipt that attests success; fails with a reason |
| ActionServices.Service.Compensate | services/agentnexus/internal/actions/compensate.go:19-83 | stores a new governed action first, then moves the original |
| ActionSystem.PrepareGives | services/agentnexus/internal/actions/service.go:214-396 | a stale read, once audited under a new id, still yields a command that may be run |
| ActionSystem.ThreadsStable | services/agentnexus/internal/actions/service.go:274-475 | what every waiting operation relies on survives any step of another |
| ActionSystem.CommandKeeps | services/agentnexus/internal/actions/model.go:424-572 | running a store command, at any later time, keeps the invariant of the whole system |
| ActionSystem.StampKeeps | services/agentnexus/internal/actions/model.go:709-731 | so does recording the outcome of a delivery |
| ActionSystem.CrashKeeps | services/agentnexus/internal/actions/postgres.go:424-503 | so does losing a claimer in any phase, its unrecorded outcome being counted as lost |
| ActionGuarantees.ReachableInv | services/agentnexus/internal/actions/model.go:424-743 | the invariant holds after every sequence of steps |
| ActionGuarantees.MapsAgree | services/agentnexus/internal/actions/model.go:424-572 | in every reachable state the action, grant and outbox maps agree |
| ActionGuarantees.CompensableWasDispatched | services/agentnexus/internal/actions/state_machine.go:103-112 | in every reachable state a compensable action has an outbox row iff it is not failed or its grant was consumed |
| ActionGuarantees.NothingIsUndone | services/agentnexus/internal/actions/state_machine.go:35-101 | whatever runs in between, bindings, consumed grants and final rows never change and statuses only climb |
| ActionGuarantees.OneMessagePerAction | services/agentnexus/internal/actions/outbox.go:99-204 | all messages ever published for an action are identical and carry its consumed grant and exact operation |
| ActionGuarantees.PublishesAreAccounted | services/agentnexus/internal/actions/outbox.go:136-204 | how often a message was published: once if stamped, once if a claimer still has to stamp it, once per crash before the stamp |
| ActionGuarantees.AtMostOncePerAction | services/agentnexus/internal/actions/outbox.go:136-204 | without crashes at most one publish per action ever succeeds, for any number of claimers |
| ActionGuarantees.RowsAreClaimedAlone | services/agentnexus/internal/actions/model.go:625-743 | no two claimers hold one row; a row is pending under 8 attempts, published within 8, or dead-lettered at exactly 8 |
| ActionGuarantees.SucceededByReceipt | services/agentnexus/internal/actions/service.go:412-507 | in every interleaving an action has succeeded only through a verified receipt that binds it exactly |
| ActionGuarantees.ApprovalSpentOnce | services/agentnexus/internal/actions/service.go:274-350 | an action with a plan is granted only on a consumed record that approves, for its own capability and parameter hash, and no plan grants two actions |
| ActionGuarantees.GrantsAreShortLived | services/agentnexus/internal/actions/model.go:483-525 | every grant is for one use within five minutes, binds its action's operation, and was consumed, if it was, before it expired |
| ActionGuarantees.KeyNamesOneAction | services/agentnexus/internal/actions/model.go:424-438 | an idempotency key names one action for ever; later requests under it return that action or are refused, without change |
| ActionGuarantees.LineageIsAudited | services/agentnexus/internal/actions/service.go:150-173 | every change of an action was announced by an audit event of its own, along allowed edges from creation to now |
| ActionSequential.OpIsRun | services/agentnexus/internal/actions/service.go:201-631 | an undisturbed service operation is a run of the interleaved system, whichever of its appends fail, so every guarantee covers it |
| ActionSequential.CallsAreRun | services/agentnexus/internal/actions/service.go:201-631 | so is every history of operations, arriving evidence and revocations with new ids, one operation at a time |
| ActionSequential.ChangesFollowTheLog | services/agentnexus/internal/actions/service.go:619-631 | with one operation at a time the changes of an action are a subsequence of the audit log whose events carry both their statuses, completions included |
| ActionSequential.ServiceFollowsTheLog | services/agentnexus/internal/actions/service.go:619-631 | in every such history the audit log tells of each action how it came to be what it is |
| ActionEffects.CallerRefusedIff | sdk/go/runtime/context.go:86-115 | a caller is turned away for its own sake iff an identity field is missing or its verification window is unset or empty |
| ActionEffects.RefusedUntouched | services/agentnexus/internal/actions/service.go:201-631 | no operation does anything for a refused caller or about an unknown action |
| ActionEffects.HandleForm | sdk/go/runtime/validate.go:98-108 | a handle is its prefix and 16 to 128 letters, digits, underscores and hyphens |
| ActionEffects.RequestEffect | services/agentnexus/internal/actions/service.go:201-266 | a request under a free key succeeds iff it is valid, its caller is trusted and its id a handle, and stores exactly what was asked with one event |
| ActionEffects.GrantEffect | services/agentnexus/internal/actions/service.go:274-350 | an action is granted iff it waits, its caller is a first party or a third party accepted by a wired provider, and, if it has a plan, a fresh record approves its exact operation; otherwise store and log stay as they are; what is consumed in either case |
| ActionEffects.DispatchEffect | services/agentnexus/internal/actions/service.go:356-399 | a granted action is dispatched iff its grant has not expired and the append succeeds; the grant consumed, the row written and the event |
| ActionEffects.PlainMoveEffect | services/agentnexus/internal/actions/service.go:512-568 | which plain edges each operation takes from which status, with its reason and event, and that all else is refused without a trace |
| ActionEffects.ReceiptEffect | services/agentnexus/internal/actions/service.go:412-507 | what a reported receipt comes to, by what it attests, the action's status and whether its result id is taken |
| ActionEffects.ResolutionEffect | services/agentnexus/internal/actions/reconcile.go:31-72 | what a resolution comes to, by its outcome, the recovered receipt and whether its result id is taken |
| ActionEffects.CompensationEffect | services/agentnexus/internal/actions/compensate.go:19-83 | what a first compensation stores and logs, and what becomes of the original, by its status |
| ActionTraces.FailedAuditChangesNothing | services/agentnexus/internal/actions/service.go:150-173 | an operation whose first append would fail changes neither store nor log, and succeeds only if it had nothing to write |
| ActionTraces.FailedAppendLeavesNoTrace | services/agentnexus/internal/actions/service.go:150-173 | whichever appends fail, an operation with a failed append fails closed, and leaves store and log unchanged iff it is not a compensation whose first append succeeded; of the evidence it takes what was consumed before |
| ActionTraces.ConsumedApprovalIsGone | services/agentnexus/internal/actions/service.go:296-316 | while an action still waits for a consumed approval every grant of it is refused and changes nothing |
| ActionTraces.IngestLands | services/agentnexus/internal/actions/service.go:412-475 | a report that changes the store leaves its result applied and its action terminal, with one event |
| ActionTraces.ReplayIsSilent | services/agentnexus/internal/actions/service.go:435-455 | replaying an applied result at any later time changes neither store nor log; when it is acknowledged |
| ActionTraces.SharedResultIdCompletesNothing | services/agentnexus/internal/actions/model.go:550-572 | a verified report for an action in flight changes the store iff its result id was free in the tenant, yet is audited and reported as success either way |
| ActionTraces.ReusedKeyIsSilent | services/agentnexus/internal/actions/service.go:214-227 | a reused key is answered or refused without a trace |
| ActionTraces.RacingDuplicates | services/agentnexus/internal/actions/model.go:424-438 | two requests under one key that both found it free, by any principals and with anything in between: the second gets the action of the first for the same operation, and a conflict otherwise |
| ActionTraces.FirstCompensation | services/agentnexus/internal/actions/compensate.go:19-83 | without its first append a first compensation changes nothing; with it the new action is stored, and the original moves, and the operation succeeds, iff the original is not reconciling and the second append succeeds |
| ActionTraces.CompensationIsIdempotent | services/agentnexus/internal/actions/compensate.go:38-43 | asking again returns the same compensation and changes nothing |
| ActionTraces.StrandedOriginal | services/agentnexus/internal/actions/compensate.go:38-83 | once a first compensation was stored, moved or not, no later attempt by any principal of the tenant changes anything |
| ActionTraces.CancelledActionsAreCompensable | services/agentnexus/internal/actions/service.go:550-568 | an action cancelled before dispatch ends compensable without ever having had a row |
| ActionTraces.ResolutionCompletes | services/agentnexus/internal/actions/reconcile.go:31-72 | when its append succeeds, a resolution leaves a reconciling action succeeded iff a recovered receipt attests success and verifies and the result id of the resolution is free; a failed resolution always fails it |
| ActionHistories.SharedResultIdHappens | services/agentnexus/internal/actions/model.go:550-572 | for any two accepted requests there is a history after which a verified report of the second is audited and reported as success and leaves it dispatched |
| ActionHistories.IdleResolutionHappens | services/agentnexus/internal/actions/reconcile.go:31-72 | and one after which its verified resolution is audited and reported as success and leaves it reconciling |
| ActionHistories.SuchHistoriesHappen | services/agentnexus/internal/actions/service.go:201-475 | a wiring, a caller, two requests and ids that meet what both ask for |
| JoinedKeys.PairInjective | services/agentnexus/internal/actions/model.go:391-395 | joined pairs keep their boundary when neither tenant, or neither reference, contains a NUL |
| JoinedKeys.PairApartIff | services/agentnexus/internal/actions/model.go:391-395 | of the pairs a store can be given no other is filed under the key of this one iff no other NUL of the key cuts it into a pair the store can be given |
| Rfc6962.SplitIsPowerOfTwo | sdk/go/audit/merkle.go:50-70 | the reference tree splits at a power of two, the largest below n |
| Rfc6962.HashedStrings | sdk/go/audit/merkle.go:32-48 | leaves and nodes are hashed after different bytes |
| Merkle.LevelKeepsTreeHash | sdk/go/audit/merkle.go:50-70 | hashing one level with odd-tail promotion keeps the tree hash of section 2.1 of RFC 6962 |
| Merkle.LevelKeepsPath | sdk/go/audit/merkle.go:74-106 | one level's sibling and the rest make up the audit path of section 2.1.1 |
| Merkle.MerkleRoot | sdk/go/audit/merkle.go:50-70 | the level-by-level loop computes the recursive tree hash; an empty batch is an error |
| Merkle.MerkleProof | sdk/go/audit/merkle.go:74-106 | the witness is the audit path; an empty batch or a bad index is an error |
| Merkle.VerifyMerkleProof | sdk/go/audit/merkle.go:110-120 | accepts exactly when folding the siblings over the leaf gives the root |
| Merkle.WitnessVerifies | sdk/go/audit/merkle.go:74-120 | every built witness is accepted for its leaf |
| Merkle.AcceptedWitnessIsGenuine | sdk/go/audit/merkle.go:32-120 | any accepted witness, whatever its siblings, is the witness of a leaf that holds the value |
| Merkle.WitnessProvesExactly | sdk/go/audit/merkle.go:74-120 | the witness of a position proves a value iff it is the one at that position |
| Merkle.LeafIndexIsNotBound | sdk/go/audit/merkle.go:110-120 | a witness verifies under any claimed index |
| Merkle.PathPosition | sdk/go/audit/merkle.go:74-106 | the sides of an audit path spell out its position in a batch of known size |
| Merkle.LeafIndexRightIff | sdk/go/audit/merkle.go:74-120 | the claimed index of an accepted witness is the one it was made for iff it is the position its sides spell out, where the proved value is |
| Merkle.RootBinds | sdk/go/audit/merkle.go:38-70 | batches of any lengths with one root are equal |
| Merkle.WitnessIsShort | sdk/go/audit/merkle.go:74-106 | a witness has at most ceil(log2 n) siblings |
| AuditChain.VerifyChain | sdk/go/audit/verify.go:21-109 | reports the first fault of the first bad event, in the source's order |
| AuditChain.ChainFaultMeaning | sdk/go/audit/verify.go:21-109 | no fault iff every event passes every check against its predecessor |
| AuditContent.EventAcceptedIff | sdk/go/audit/verify.go:46-109 | an event is accepted iff tenant, place, link, content, hash and an ed25519 signature by a registered live key all hold |
| AuditContent.FaultNamesCause | sdk/go/audit/verify.go:46-109 | each fault that is reported names what is wrong |
| AuditContent.NoRawPayloadIff | sdk/go/audit/verify.go:111-134 | no raw payload iff the three hashes are empty or digests and the 21 references are bounded and free of control characters |
| AuditContent.NoOutcomeIff | sdk/go/audit/event.go:229-262 | no outcome assertion iff none of 17 fields contains one of nine words or a graph token |
| AuditChain.LastHashBindsChain | sdk/go/audit/verify.go:46-109 | two accepted chains with one last hash are equal event by event, up to signatures and sub-microsecond time |
| AuditChain.PrefixOk | sdk/go/audit/verify.go:21-43 | every prefix of an accepted chain is accepted |
| AuditChain.SignAndAppend | sdk/go/audit/sign.go:18-40 | the appended event is the draft placed after the chain, signed and hashed |
| AuditContent.SigningIff | sdk/go/audit/sign.go:18-40 | signing needs a key id, a 64-byte key and a canonical form, and signs and hashes that form |
| AuditChain.BuiltChainVerifies | sdk/go/audit/sign.go:18-40 | every chain signed and appended from admissible drafts is accepted, and so is each prefix |
| AuditBundle.BuildBundle | sdk/go/audit/bundle.go:84-132 | manifest, witnesses and signature of exactly these events, or the source's error |
| AuditBundle.VerifyBundle | sdk/go/audit/bundle.go:183-246 | reports the first fault in the source's order |
| AuditBundle.AcceptedMeaning | sdk/go/audit/bundle.go:183-246 | accepted iff keys, chain, root, witnesses, window and batch signature all hold |
| AuditContent.BundleAcceptedIff | sdk/go/audit/bundle.go:183-246 | a bundle is accepted iff each of its parts holds, spelled out part by part |
| AuditContent.AnchoredMeans | sdk/go/audit/bundle.go:159-168 | a key resolves to the anchor's, revoked iff the anchor or the bundle says so |
| AuditContent.BatchSignatureCovers | sdk/go/audit/bundle.go:32-36 | the signature of a batch covers everything but itself and sub-microsecond time |
| AuditBundle.OwnKeysOnlyNarrow | sdk/go/audit/bundle.go:159-204 | a bundle's key list only takes trust away: dropping any part keeps it accepted, and its chain stands under the bare anchor |
| AuditBundle.SignedByAnchoredKeys | sdk/go/audit/bundle.go:159-246 | every signature of an accepted bundle verified under an anchored key nobody revokes |
| AuditBundle.BuiltBundleVerifies | sdk/go/audit/bundle.go:84-246 | a built bundle is accepted iff its chain and key list are |
| AuditBundle.BuiltChainBundleVerifies | sdk/go/audit/bundle.go:84-246 | sign, append, build with any key list that agrees with the anchor and revokes no key that signed: accepted end to end |
| AuditBundle.RootHashBindsEvents | sdk/go/audit/bundle.go:211-242 | two accepted bundles with one batch root hold the same events |
| RuntimeTrust.CompareVersions | sdk/go/runtime/trust.go:218-244 | the loop computes the order of the first differing segment, the shorter version padded with zeros |
| RuntimeTrust.CompareMeaning | sdk/go/runtime/trust.go:218-244 | the comparison is the sign of that order, in both directions |
| RuntimeTrust.BeforeTransitive | sdk/go/runtime/trust.go:218-244 | the order is a total preorder |
| RuntimeTrust.TrailingZeros | sdk/go/runtime/trust.go:218-244 | versions that differ in trailing zeros only compare equal |
| RuntimeTrust.DecimalIsPositional | sdk/go/runtime/trust.go:200-214 | segments are read as decimal numbers |
| RuntimeTrust.RangeContains | sdk/go/runtime/trust.go:63-81 | contained iff a version, not before the minimum and before the maximum |
| RuntimeTrust.ContainsByComparison | sdk/go/runtime/trust.go:63-81 | a version is in a range iff it does not compare below the lower bound and compares below the upper one |
| RuntimeTrust.RangeIsInterval | sdk/go/runtime/trust.go:63-81 | a range leaves out no version between two it contains |
| RuntimeTrust.ValidRangeIff | sdk/go/runtime/trust.go:37-58 | a range is valid iff it has a bound, its bounds are versions, and the lower compares below the upper |
| RuntimeTrust.RangeStartsAtItsBound | sdk/go/runtime/trust.go:37-58 | a valid range contains its lower bound |
| RuntimeTrust.SignsAreAccepted | sdk/go/runtime/trust.go:200-214 | a version with a plus and a minus sign, and what it parses to |
| RuntimeTrust.SegmentForms | sdk/go/runtime/trust.go:200-214 | the segments that parse are decimals below 2^63, bare or after a plus, and zeros after a minus |
| RuntimeTrust.DottedNumericIff | sdk/go/runtime/trust.go:60-81 | a version that parses is dotted numeric iff it contains no sign |
| RuntimeTrust.Narrow | sdk/go/runtime/trust.go:122-151 | the sorted duplicate-free intersection with the customer ceiling, or all of the certified one |
| RuntimeTrust.LessIff | sdk/go/runtime/trust.go:118-151 | the order ceilings are sorted in is byte order |
| RuntimeTrust.NarrowOnlyRemoves | sdk/go/runtime/trust.go:122-137 | narrowing is monotone, stays inside the ceiling and absorbs itself |
| AgentRegistry.MemoryStore.CreateAgentClient | services/agentnexus/internal/agenttrust/model.go:235-246 | re-registration under a key keeps the stable identity and creation time |
| AgentRegistry.FiledApartIff | services/agentnexus/internal/agenttrust/model.go:227-229 | a client that can be registered shares its key with no other such client iff no other choice of two NULs of the key leaves three fields that registration accepts |
| AgentRegistry.JoinedKeyInjective | services/agentnexus/internal/agenttrust/model.go:227-229 | a client without a NUL shares its key with no other triple |
| AgentRegistry.NulThatCannotMove | services/agentnexus/internal/agenttrust/model.go:227-229 | a client whose only NUL comes first in its tenant shares its key with none either |
| AgentRegistry.MemoryStore.CreateCertification | services/agentnexus/internal/agenttrust/model.go:269-300 | next revision, fresh chain, one superseding row on exactly the client's active revisions, all at once |
| AgentRegistry.MemoryStore.AppendStatus | services/agentnexus/internal/agenttrust/model.go:357-370 | one row more, chained onto the tail, and nothing else |
| AgentRegistry.MemoryStore.ListCertifications | services/agentnexus/internal/agenttrust/model.go:334-345 | all and only the client's revisions, newest first |
| AgentRegistry.LastHashBindsLog | services/agentnexus/internal/agenttrust/model.go:141-156 | the last hash fixes the certification and every row before it |
| AgentRegistry.PreimageBinds | services/agentnexus/internal/agenttrust/model.go:141-156 | length prefixes keep every field boundary |
| AgentTrust.CertifyKeeps | services/agentnexus/internal/agenttrust/service.go:144-207 | certification keeps the registry's invariant and only adds |
| AgentTrust.RevokeKeeps | services/agentnexus/internal/agenttrust/service.go:213-228 | so does revocation |
| AgentTrust.RevisionsOfEveryRun | services/agentnexus/internal/agenttrust/model.go:269-300 | in every run a client's revisions are exactly 1 to some k, each once, and only the highest can be active |
| AgentTrust.LogsOfEveryRun | services/agentnexus/internal/agenttrust/model.go:305-370 | logs only grow, link from the empty hash in increasing order, certifications never change, and what stopped being active never is again |
| AgentTrust.Service.Register | services/agentnexus/internal/agenttrust/service.go:60-84 | registers canonical input, refuses the rest without change |
| AgentTrust.RegisterEffect | services/agentnexus/internal/agenttrust/service.go:60-84 | registration succeeds iff names, id and any origin are present and unpadded, and files exactly what was given |
| AgentTrust.RegistrationsApartIff | services/agentnexus/internal/agenttrust/service.go:60-84 | no registration of another client ever touches the record of this one, iff no other choice of two NULs of its key leaves three fields that registration accepts |
| AgentTrust.SecondTakesTheRecord | services/agentnexus/internal/agenttrust/service.go:60-84 | registering under another client's key answers with its id and creation time and replaces its record |
| AgentTrust.SharedRecordsExist | services/agentnexus/internal/agenttrust/model.go:227-246 | pairs of registrable clients that share a record, for any four names |
| AgentTrust.Service.Certify | services/agentnexus/internal/agenttrust/service.go:144-207 | refuses with the source's error, or creates the revision with the client's frozen facts |
| AgentTrust.CertifyEffect | services/agentnexus/internal/agenttrust/service.go:144-207 | certification succeeds iff binding, signed build, lifetime, client and class are in order, and freezes the client's id, origin and registration for the lifetime asked |
| AgentTrust.CertifiedRows | services/agentnexus/internal/agenttrust/model.go:269-300 | the rows a certification writes: its first, and a superseding one hashed onto the last of each active revision of the client |
| AgentTrust.Service.Revoke | services/agentnexus/internal/agenttrust/service.go:213-228 | appends a revocation, or an error and no change |
| AgentTrust.RevokeEffect | services/agentnexus/internal/agenttrust/service.go:213-228 | revocation succeeds iff the certification is known and the reason has no control characters, and appends one row hashed onto the last |
| AgentTrust.SharedCertKeysExist | services/agentnexus/internal/agenttrust/model.go:231-233 | pairs of tenant and certification id that the service accepts and the in-memory store files under one key |
| AgentTrust.Service.ActiveCertification | services/agentnexus/internal/agenttrust/service.go:345-377 | the newest certification that covers the release, or there is none |
| AgentTrust.Service.Assess | services/agentnexus/internal/agenttrust/service.go:264-340 | class, grant, side effect, reason and effective ceiling of a presented release |
| AgentTrust.CoverIsUnique | services/agentnexus/internal/agenttrust/service.go:345-377 | at most one certification covers a release in any reachable registry |
| AgentTrust.CertifiedAssessment | services/agentnexus/internal/agenttrust/service.go:264-340 | class, ceiling, grant, side effect and reason under a certification, from what is stored |
| AgentTrust.UncertifiedAssessment | services/agentnexus/internal/agenttrust/service.go:276-287 | without one a release is untrusted, has no side effect and only the reads the customer names |
| AgentTrust.SideEffectAllowedIff | services/agentnexus/internal/agenttrust/service.go:264-340 | a side effect is allowed iff an unexpired certification of this release, active by its last status, is of a first party or of a third party with a certified decision provider, and both ceilings and the origins allow the capability |
| AgentTrust.CustomerOnlyNarrows | sdk/go/runtime/trust.go:118-137 | shrinking a customer ceiling never adds a grant |
| AgentTrust.AbsentCeiling | services/agentnexus/internal/agenttrust/service.go:264-340 | no ceiling narrows nothing for a certified release and opens nothing for an uncertified one |
| AgentTrust.FrozenDenialLasts | services/agentnexus/internal/agenttrust/service.go:290-302 | no later registration restores a connector to a certification frozen with a denied origin |
| AgentTrust.EndedNeverCovers | services/agentnexus/internal/agenttrust/service.go:345-377 | a revoked or superseded certification never grants again |
| SecretProvider.LocalProvider.SetMaster | sdk/go/secretprovider/provider.go:120-136 | seeds a new credential, never overwrites one |
| SecretProvider.LocalProvider.Rotate | sdk/go/secretprovider/provider.go:141-160 | revokes every version and installs a live current one |
| SecretProvider.InstallEffect | sdk/go/secretprovider/provider.go:120-161 | what seeding and rotating accept; the new version is live and current, all before it are revoked |
| SecretProvider.LocalProvider.Revoke | sdk/go/secretprovider/provider.go:165-182 | revokes the named version and falls back to the newest live one |
| SecretProvider.RevokeEffect | sdk/go/secretprovider/provider.go:165-182 | the named version and no other is revoked, and is current no longer |
| SecretProvider.LatestLiveIs | sdk/go/secretprovider/provider.go:332-339 | the fallback is the newest live version, if there is any |
| SecretProvider.LocalProvider.AcquireHandle | sdk/go/secretprovider/provider.go:185-241 | sweeps, then issues a handle of the current version with a clamped lifetime, or the source's error |
| SecretProvider.AcquireEffect | sdk/go/secretprovider/provider.go:185-241 | acquisition succeeds iff caller and request are in order and the credential has a live version; what is swept and what is stored |
| SecretProvider.LocalProvider.Redeem | sdk/go/secretprovider/provider.go:244-290 | scope, version, expiry and single use in the source's order, with what each leaves behind |
| SecretProvider.LiveVersionsOfEveryHistory | sdk/go/secretprovider/provider.go:120-182 | at most one live version per credential, the one currentID names and finds |
| SecretProvider.SingleUseIsOnce | sdk/go/secretprovider/provider.go:244-290 | over every history a single-use handle is redeemed at most once |
| SecretProvider.RedeemedAsIssued | sdk/go/secretprovider/provider.go:185-290 | a redemption returns what was derived at issue, for the issued scope, unexpired, within 15 minutes, under a live version |
| SecretProvider.RedemptionAnswer | sdk/go/secretprovider/provider.go:244-290 | over every history: before its time is up an issued handle reveals exactly its material iff caller, scope and version are in order and it is for many uses or unused; otherwise which error |
| SecretProvider.ExpiredAnswer | sdk/go/secretprovider/provider.go:272-275 | and from then on it reveals nothing |
| SecretProvider.SweepBoundsRetention | sdk/go/secretprovider/provider.go:292-303 | after a sweeping acquisition every record held was made by an acquisition of the last 15 minutes |
| LengthPrefix.Frame | sdk/go/secretprovider/provider.go:365-374 | the buffer holds every field after its big-endian length, in order |
| LengthPrefix.FramedInjective | services/agentnexus/internal/agenttrust/model.go:141-156 | equally many framed fields are equal only field by field |
| SecretProvider.KdfContextInjective | sdk/go/secretprovider/provider.go:361-374 | no two derivations with fields below 4 GiB share a context |
| SecretProvider.KdfContextWraps | sdk/go/secretprovider/provider.go:361-374 | two different derivations that an acquisition lets through, with fields one byte over 4 GiB at most, share one |
| SecretProvider.ShortContextIsUnshared | sdk/go/secretprovider/provider.go:361-374 | a context of less than 4 GiB is shared with no other derivation at all |
| SecretProvider.ContextsSeparateIff | sdk/go/secretprovider/provider.go:361-374 | acquirable derivations with fields up to a limit have contexts of their own iff the limit is at most 4 GiB |
| SecretProvider.LabelInjective | sdk/go/secretprovider/handle.go:79-83 | distinct valid scopes have distinct labels |
| ConnectorRules.DottedIff | sdk/go/connector/capability.go:10-30 | dotted names are exactly two or more identifiers joined by dots |
| ConnectorPack.AssertsBusinessOutcomeName | sdk/go/connector/verification.go:184-194 | says exactly whether a name contains a forbidden word or a graph form as a dotted segment |
| ConnectorRules.ClaimsIff | sdk/go/connector/verification.go:184-194 | what claims an outcome, in terms of words and parts |
| ConnectorPack.ValidateCapabilityProbes | sdk/go/connector/validate.go:443-496 | accepts exactly well-formed probes with distinct ids, postconditions on writes only |
| ConnectorPack.ValidateCapability | sdk/go/connector/validate.go:349-422 | accepts exactly the capabilities the rules describe |
| ConnectorRules.WriteAcceptedIff | sdk/go/connector/validate.go:349-496 | a write is accepted iff its side effects, reconciliation, idempotency, observation and receipts are declared, rule by rule |
| ConnectorRules.ReadAcceptedIff | sdk/go/connector/validate.go:349-496 | anything else is accepted iff it is a read with nothing that only a write has |
| ConnectorPack.ValidateProductPack | sdk/go/connector/validate.go:88-168 | accepts exactly unique valid capabilities whose references resolve, in a valid envelope |
| ConnectorRules.PackAcceptedIff | sdk/go/connector/validate.go:88-168 | a pack is accepted iff names are unique, references resolve and its envelope is in order, rule by rule |
| ConnectorRules.SemverOrder | sdk/go/connector/compatibility.go:72-100 | versions below 2^63 are ordered by the first number that differs |
| ConnectorPack.ValidateDevelopmentPack | sdk/go/connector/validate.go:248-253 | accepts exactly the valid packs flagged as development packs |
| ConnectorMigration.SanitizeSegment | sdk/go/connector/package.go:397-417 | every string becomes one identifier without a dot |
| ConnectorRules.SegmentBecomes | sdk/go/connector/package.go:397-417 | a segment is what is left between the bars at both ends |
| ConnectorMigration.DevelopmentPackFromManifest | sdk/go/connector/package.go:270-361 | the nested loops emit the first claim to each name and then the canonical reads still missing |
| ConnectorRules.MigratedCapability | sdk/go/connector/package.go:276-329 | what every migrated read and write declares |
| ConnectorRules.MigratedEnvelope | sdk/go/connector/package.go:341-360 | what surrounds them: unsigned, for development, with the most conservative floor |
| ConnectorMigration.EmittedMeaning | sdk/go/connector/package.go:270-330 | exactly the first claims are emitted, no name twice |
| ConnectorMigration.WritesAreObservable | sdk/go/connector/package.go:270-330 | for every manifest each migrated write verifies and probes through a declared read, however names collide |
| ConnectorMigration.MigrationValidIff | sdk/go/connector/package.go:270-361 | the migrated pack passes the development validator iff its names fit and claim nothing and no first claim is blank |
| ConnectorMigration.NamedResourcesMigrate | sdk/go/connector/package.go:270-361 | with no blank resource name only the sanitized names decide |
| IdentityUri.ValidateSegment | sdk/go/transportsecurity/config.go:140-161 | accepts exactly 1 to 128 characters of the segment form |
| IdentityUri.SegmentForm | sdk/go/transportsecurity/config.go:140-161 | which characters a segment may hold and where |
| IdentityUri.ParseUri | sdk/go/transportsecurity/config.go:100-138 | parsing the printed form of a valid identity returns it |
| IdentityUri.UriForm | sdk/go/transportsecurity/config.go:100-110 | the two printed forms |
| IdentityUri.UriParse | sdk/go/transportsecurity/config.go:100-138 | printing what was parsed returns the exact string |
| IdentityUri.AcceptedIsPrinted | sdk/go/transportsecurity/config.go:100-138 | the accepted strings are exactly the printed forms, and no two identities share one |

## Left out

- Contexts, loggers, tickers, the recovery pump's timer and the readiness guards of the services: a drain may run at any time.
- Postgres and generated SQL: the durable store is represented by the in-memory store's atomic steps and the crash step.
- Postconditions and verification needs of an action: carried along by the source, never decided on here.
- Immutable columns of an action are grouped in one `Binding` value; the audit reference of an action is the number of its event.
- The reads with which one operation begins are one step of the interleaved system, and a step that only answers is not one: nothing is written in between.
- The zero instant: an unset time is an option, a set one an integer of nanoseconds.
- ActionMemory.Deliverer.Deliver: the transport answers, and the clock is read, per message; a pass sends no message twice, and a transport that changes its answer between passes is another value of the parameter.
- ActionServices.Service.Dispatch: takes the time of the operation as a parameter and that of the publish from the transport parameter; the other operations read the clock once.
- ActionMemory.MemoryAuditSink.AppendActionAudit: which attempts fail is a predicate on their number, fixed for the sink's life, in place of a setter that switches failing on and off.
- The composite keys of the action store and of certifications are pairs, as the durable stores pass them. The in-memory stores join them by a NUL, and neither tenants nor idempotency keys, result ids or certification ids are checked for one: there the pairs (t, x NUL k) and (t NUL x, k) share an entry, so that a key used by the one tenant is taken for the other, and a revocation by the one can reach a certification of the other. `JoinedKeys.PairApartIff` says exactly when a pair has its entry to itself; `JoinedKeys.PairInjective` that it is enough if no tenant contains a NUL, or if no reference does, as no generated id does.
- ActionMemory.MemoryStore.ClaimPendingDispatches: states a quiet store; other claimers running in between are covered by the interleaved system.
- ActionGuarantees.SucceededByReceipt: names the receipt through the record of the run, because receipts of one tenant are stored by receipt reference and two actions sharing one overwrite each other's.
- `tickets.ConsumeActionGrant` and `tickets.MintActionGrant`: a one-use, not consumed, not expired check and an abstract validity check of the operation.
- Listings of dead-lettered and pending rows, receipts and grants, which only read.
- Ed25519, SHA-256, HKDF, base64, JSON and the canonical encodings, beyond the assumptions stated.
- The trust registry's certification reads its client and creates the revision in two store calls; they are taken as one step.
- Ids of status rows of one certification are taken from a generator function; their order among several superseded revisions follows the map order of the source, which is arbitrary.
- Field-level customer bindings, JSON key scans, production signatures and the Product Pack digest beyond being carried: the migration produces none of them.
- Error texts, and which of several faults the Product Pack validator reports first.
- TLS configuration, trust bundles and revocation lists.
- Secret redaction in logs and JSON: the redeemed material is a plain string here.
