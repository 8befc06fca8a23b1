/** The durable action service over the in-memory ports, operation by operation
    (services/agentnexus/internal/actions/service.go, reconcile.go, compensate.go, outbox.go). */
module ActionServices {
  import opened ActionMemory
  import opened ActionOps
  import opened ActionOutbox
  import opened ActionState
  import opened ActionStore
  import opened ActionTypes
  import opened TrustClasses
  import opened Wrappers

  class Service {
    const store: MemoryStore
    const audit: MemoryAuditSink
    const evidence: MemoryEvidenceConsumer?
    const wiring: Wiring
    const publishing: bool // whether a publisher is wired

    ghost predicate Valid()
      reads this, audit
    {
      audit.Valid() && (wiring.evidenceWired <==> evidence != null)
    }

    /** What the ports hold now. */
    ghost function World(): ActionOps.World
      reads store, audit, if evidence == null then {} else {evidence}
    {
      ActionOps.World(store.View(), audit.events,
                      if evidence == null then Evidence(map[], {}, {}) else evidence.View(), audit.attempts,
                      audit.outages)
    }

    constructor (
        store: MemoryStore, audit: MemoryAuditSink, evidence: MemoryEvidenceConsumer?, wiring: Wiring, publishing: bool)
      requires audit.Valid() && (wiring.evidenceWired <==> evidence != null)
      ensures Valid() && this.store == store && this.audit == audit && this.evidence == evidence
      ensures this.wiring == wiring && this.publishing == publishing
    {
      this.store, this.audit, this.evidence, this.wiring, this.publishing := store, audit, evidence, wiring, publishing;
    }

    /** Appends one lineage event; without it the operation fails closed. */
    method AppendAudit(event: AuditEvent) returns (r: Result<nat, Error>)
      requires Valid()
      modifies audit
      ensures Valid()
      ensures World() == old(World()).(events := if r.Ok? then old(audit.events) + [event] else old(audit.events),
                                       attempts := old(audit.attempts) + 1)
      ensures r == if audit.outages(old(audit.attempts)) then Err(Unavailable) else Ok(|old(audit.events)| + 1)
    {
      r := audit.AppendActionAudit(event);
    }

    /** Audits, then applies one allowed edge with no side rows. */
    method Transition(p: Principal, a: Action, to: Status, name: string, reason: string, id: string, now: Time)
      returns (r: Result<Action, Error>)
      requires Valid()
      modifies audit, store
      ensures Valid()
      ensures (World(), r) == Advanced(wiring, old(World()), p, a, to, name, reason, id, now)
    {
      if !CanTransition(a.status, to) {
        return Err(ForbiddenTransition);
      }
      var details := map["reason" := reason];
      var appended := AppendAudit(MoveEvent(p, a, name, to, details, a.grantRef, a.approvalEvidenceRef, a.receiptRef));
      if appended.Err? {
        return Err(appended.error);
      }
      r := store.Transition(a.binding.tenantRef, a.binding.actionRef, a.status, to, reason, now);
    }

    /** The completion seam: only a receipt that binds the exact operation and verifies completes an action. */
    method VerifyReceipt(tenant: string, a: Action, receipt: Receipt) returns (r: Result<Status, Error>)
      ensures r == ReceiptVerdict(wiring, tenant, a.binding, receipt)
    {
      if !wiring.receiptOk(receipt) {
        return Err(ReceiptRejected);
      }
      if receipt.actionRef != a.binding.actionRef || receipt.parameterHash != a.binding.parameterHash
         || receipt.capability != a.binding.capability
      {
        return Err(ReceiptRejected);
      }
      if receipt.receiptSchema != a.binding.expectedReceiptSchema {
        return Err(ReceiptRejected);
      }
      if !TerminalReceiptStatus(receipt.status) {
        return Err(ReceiptRejected);
      }
      if wiring.receipts.None? {
        return Err(ReceiptRejected);
      }
      if !wiring.receipts.value(tenant, receipt) {
        return Err(ReceiptRejected);
      }
      r := Ok(receipt.status);
    }

    method RequestAction(p: Principal, request: ActionRequest, id: string, now: Time) returns (r: Result<Action, Error>)
      requires Valid()
      modifies audit, store
      ensures Valid()
      ensures (World(), r) == RunOp(wiring, old(World()), p, Op.RequestAction(request), id, now)
    {
      if !ValidPrincipal(p) {
        return Err(InvalidInput);
      }
      if !RequestValid(wiring, request) {
        return Err(InvalidInput);
      }
      if p.trustClass == Untrusted {
        return Err(CallerUntrusted);
      }
      var existing := store.GetByIdempotencyKey(p.tenantRef, request.idempotencyKey);
      if existing.Ok? {
        var found := existing.value.binding;
        if found.capability != request.capability || found.parameterHash != request.parameterHash
           || found.businessContextRef != request.businessContextRef
        {
          return Err(IdempotencyConflict);
        }
        return Ok(existing.value);
      }
      if !IsHandle(id, "act_") {
        return Err(Unavailable);
      }
      var status := if request.approvalPlanRef.Some? then AwaitingApproval else Requested;
      var auditRef := AppendAudit(
        Event(p, "action.requested", id, None, status,
              map["capability" := request.capability, "parameter_hash" := request.parameterHash],
              request.capability, request.parameterHash, "", "", "", request.riskAuthority));
      if auditRef.Err? {
        return Err(auditRef.error);
      }
      var action := NewAction(NewBinding(p, request, id, auditRef.value, now));
      PlanIsHandle(wiring, request);
      var stored := store.PutRequested(action);
      r := match stored case Ok((a, _)) => Ok(a) case Err(e) => Err(e);
    }

    /** Mints the one-use grant of the exact operation, audits it and stores it with the transition. */
    method MintAndGrant(p: Principal, action: Action, evidenceRef: string, id: string, now: Time)
      returns (r: Result<Action, Error>)
      requires Valid()
      modifies audit, store
      ensures Valid()
      ensures (World(), r) == Plain(RunWish(wiring, old(World()), p, WantGrant(action, evidenceRef), id, now))
    {
      hide GrantAction, IsHandle;
      if !IsHandle(id, "grant_")
         || !wiring.operationOk(action.binding.businessContextRef, action.binding.capability, action.binding.parameterHash)
      {
        return Err(Unavailable);
      }
      var appended := AppendAudit(
        MoveEvent(p, action, "action.granted", Granted, map["grant_ref" := id], id, evidenceRef, action.receiptRef));
      if appended.Err? {
        return Err(appended.error);
      }
      r := store.Grant(action.(approvalEvidenceRef := evidenceRef), NewGrant(action.binding, id, now));
    }

    method Grant(p: Principal, ref: string, id: string, now: Time) returns (r: Result<Action, Error>)
      requires Valid()
      modifies audit, store, if evidence == null then {} else {evidence}
      ensures Valid()
      ensures (World(), r) == RunOp(wiring, old(World()), p, GrantOp(ref), id, now)
    {
      hide RunWish, Trusted;
      if !ValidPrincipal(p) {
        return Err(InvalidInput);
      }
      var found := store.GetAction(p.tenantRef, ref);
      if found.Err? {
        return found;
      }
      var action := found.value;
      if action.status !in {Requested, AwaitingApproval} {
        return Err(ForbiddenTransition);
      }
      if !Trusted(wiring, p, action.binding.capability, action.binding.parameterHash) {
        return Err(CallerUntrusted);
      }
      var evidenceRef := "";
      if action.status == AwaitingApproval {
        if evidence == null {
          return Err(ApprovalRequired);
        }
        var consumed := evidence.ConsumeApprovalEvidence(p.tenantRef, action.binding.approvalPlanRef);
        if consumed.Err? {
          return Err(GrantEvidenceError(consumed.error));
        }
        if consumed.value.capability != action.binding.capability
           || consumed.value.parameterHash != action.binding.parameterHash || consumed.value.decision != Approved
        {
          return Err(EvidenceRejected);
        }
        evidenceRef := consumed.value.approvalRef;
      }
      r := MintAndGrant(p, action, evidenceRef, id, now);
    }

    /** Consumes the grant and writes the outbox row in one step, then delivers the committed intent; a failed
        delivery stays with the recovery pump and never fails the dispatch. */
    method Dispatch(p: Principal, ref: string, id: string, now: Time, publishAt: Time, transport: Transport)
      returns (r: Result<Action, Error>)
      requires Valid()
      modifies audit, store
      ensures Valid()
      ensures var (world, result) := RunOp(wiring, old(World()), p, DispatchOp(ref), id, now);
              && r == result
              && World() == if r.Ok? && publishing
                            then world.(store := PublishedNow(world.store, transport, Key(p.tenantRef, id), publishAt))
                            else world
    {
      hide DispatchAction;
      if !ValidPrincipal(p) {
        return Err(InvalidInput);
      }
      var found := store.GetAction(p.tenantRef, ref);
      if found.Err? {
        return found;
      }
      var action := found.value;
      if action.status != Granted {
        if action.status in {Dispatched, Executing, ResultUnknown, Reconciling} {
          return Err(BlindRetryForbidden);
        }
        return Err(ForbiddenTransition);
      }
      var appended := AppendAudit(
        MoveEvent(p, action, "action.dispatched", Dispatched, map["grant_ref" := action.grantRef, "dispatch_ref" := id],
                  action.grantRef, action.approvalEvidenceRef, action.receiptRef));
      if appended.Err? {
        return Err(appended.error);
      }
      r := store.Dispatch(action.binding.tenantRef, action.binding.actionRef, NewDispatch(action, id, now), now);
      if r.Ok? {
        PublishDispatched(p.tenantRef, id, publishAt, transport);
      }
    }

    /** The ordinary delivery path, through the claim the pump uses. */
    method PublishDispatched(tenant: string, id: string, now: Time, transport: Transport)
      requires Valid()
      modifies store
      ensures Valid()
      ensures World() == if publishing
                         then old(World()).(store := PublishedNow(old(store.View()), transport, Key(tenant, id), now))
                         else old(World())
    {
      if !publishing {
        return;
      }
      var deliver := new Deliverer(transport);
      var claimed := store.ClaimDispatch(tenant, id, now, deliver);
    }

    /** Crash-window recovery: one drain of the pending rows; the count is of the intents the transport took. */
    method RepublishPending(tenant: string, now: Time, transport: Transport)
      returns (r: Result<nat, Error>, ghost order: seq<Key>)
      requires Valid() && store.Keyed()
      modifies store
      ensures Valid() && World() == old(World()).(store := store.View())
      ensures !publishing ==> r == Err(Unavailable) && store.View() == old(store.View())
      ensures publishing ==>
                && OldestFirst(old(store.View()), tenant, now, order) && |order| <= DEFAULT_DISPATCH_CLAIM_BATCH
                && (|order| < DEFAULT_DISPATCH_CLAIM_BATCH ==>
                      forall d :: Eligible(old(store.View()), tenant, now, d) ==> d in order)
                && r == Ok(|Accepted(transport, RowsAt(old(store.View()), order))|)
                && store.View() == Drained(old(store.View()), order, Answer(transport), now)
    {
      hide Drained, OldestFirst, Eligible, Accepted, RowsAt, KeyedRows, Answer;
      order := [];
      if !publishing {
        r := Err(Unavailable);
        return;
      }
      var deliver := new Deliverer(transport);
      var claimed;
      claimed, order := store.ClaimPendingDispatches(tenant, 0, now, deliver);
      r := Ok(deliver.published);
    }

    /** Audits and applies a plain edge from one status. */
    method SimpleTransition(
        p: Principal, ref: string, from: Status, to: Status, name: string, reason: string, id: string, now: Time)
      returns (r: Result<Action, Error>)
      requires Valid()
      modifies audit, store
      ensures Valid()
      ensures !ValidPrincipal(p) ==> r == Err(InvalidInput) && World() == old(World())
      ensures ValidPrincipal(p) ==>
                match Read(old(store.View()), Key(p.tenantRef, ref))
                case Err(e) => r == Err(e) && World() == old(World())
                case Ok(a) =>
                  if a.status != from then r == Err(ForbiddenTransition) && World() == old(World())
                  else (World(), r) == Advanced(wiring, old(World()), p, a, to, name, reason, id, now)
    {
      hide Advanced;
      if !ValidPrincipal(p) {
        return Err(InvalidInput);
      }
      var found := store.GetAction(p.tenantRef, ref);
      if found.Err? {
        return found;
      }
      if found.value.status != from {
        return Err(ForbiddenTransition);
      }
      r := Transition(p, found.value, to, name, reason, id, now);
    }

    method MarkExecuting(p: Principal, ref: string, id: string, now: Time) returns (r: Result<Action, Error>)
      requires Valid()
      modifies audit, store
      ensures Valid()
      ensures (World(), r) == RunOp(wiring, old(World()), p, Op.MarkExecuting(ref), id, now)
    {
      hide RunWish, CanTransition;
      r := SimpleTransition(p, ref, Dispatched, Executing, "action.executing", "", id, now);
    }

    method BeginReconciliation(p: Principal, ref: string, id: string, now: Time) returns (r: Result<Action, Error>)
      requires Valid()
      modifies audit, store
      ensures Valid()
      ensures (World(), r) == RunOp(wiring, old(World()), p, Op.BeginReconciliation(ref), id, now)
    {
      hide RunWish, CanTransition;
      r := SimpleTransition(p, ref, ResultUnknown, Reconciling, "action.reconciling", "reconciliation started", id, now);
    }

    method MarkResultUnknown(p: Principal, ref: string, id: string, now: Time) returns (r: Result<Action, Error>)
      requires Valid()
      modifies audit, store
      ensures Valid()
      ensures (World(), r) == RunOp(wiring, old(World()), p, Op.MarkResultUnknown(ref), id, now)
    {
      hide RunWish, CanTransition;
      if !ValidPrincipal(p) {
        return Err(InvalidInput);
      }
      var found := store.GetAction(p.tenantRef, ref);
      if found.Err? {
        return found;
      }
      if found.value.status != Executing && found.value.status != Dispatched {
        return Err(ForbiddenTransition);
      }
      r := Transition(p, found.value, ResultUnknown, "action.result_unknown",
                      "connector timeout after possible execution", id, now);
    }

    method HumanTakeover(p: Principal, ref: string, reason: string, id: string, now: Time)
      returns (r: Result<Action, Error>)
      requires Valid()
      modifies audit, store
      ensures Valid()
      ensures (World(), r) == RunOp(wiring, old(World()), p, TakeOver(ref, reason), id, now)
    {
      hide RunWish;
      if !ValidPrincipal(p) {
        return Err(InvalidInput);
      }
      var found := store.GetAction(p.tenantRef, ref);
      if found.Err? {
        return found;
      }
      if !CanTransition(found.value.status, Status.HumanTakeover) {
        return Err(ForbiddenTransition);
      }
      r := Transition(p, found.value, Status.HumanTakeover, "action.human_takeover", reason, id, now);
    }

    method Cancel(p: Principal, ref: string, id: string, now: Time) returns (r: Result<Action, Error>)
      requires Valid()
      modifies audit, store
      ensures Valid()
      ensures (World(), r) == RunOp(wiring, old(World()), p, Op.Cancel(ref), id, now)
    {
      hide RunOp, Advanced, CancelTarget, Read;
      CancelRuns(wiring, World(), p, ref, id, now);
      if !ValidPrincipal(p) {
        return Err(InvalidInput);
      }
      var found := store.GetAction(p.tenantRef, ref);
      if found.Err? {
        return found;
      }
      var action := found.value;
      match action.status
      case Requested | AwaitingApproval | Granted =>
        r := Transition(p, action, Failed, "action.cancelled", "cancelled before dispatch", id, now);
      case Dispatched | Executing | ResultUnknown | Reconciling =>
        r := Transition(p, action, Status.HumanTakeover, "action.cancelled",
                        "cancelled after dispatch; escalated to human takeover", id, now);
      case _ => r := Err(ForbiddenTransition);
    }

    /** Audits one genuine completion, then applies it. */
    method CompleteFromReceipt(
        p: Principal, a: Action, result: ConnectorResult, to: Status, name: string, details: map<string, string>,
        id: string, now: Time)
      returns (r: Result<Action, Error>)
      requires Valid()
      modifies audit, store
      ensures Valid()
      ensures (World(), r) == Plain(RunWish(wiring, old(World()), p, WantIngest(a, result, to, name, details), id, now))
    {
      hide IngestResult;
      var appended := AppendAudit(
        MoveEvent(p, a, name, to, details, a.grantRef, a.approvalEvidenceRef, result.receipt.receiptRef));
      if appended.Err? {
        return Err(appended.error);
      }
      var applied := store.IngestResult(result, to, now);
      r := match applied case Ok((x, _)) => Ok(x) case Err(e) => Err(e);
    }

    method IngestReceipt(p: Principal, resultId: string, receipt: Receipt, id: string, now: Time)
      returns (r: Result<Action, Error>)
      requires Valid()
      modifies audit, store
      ensures Valid()
      ensures (World(), r) == RunOp(wiring, old(World()), p, Op.IngestReceipt(resultId, receipt), id, now)
    {
      hide ReceiptVerdict, RunWish;
      if !ValidPrincipal(p) {
        return Err(InvalidInput);
      }
      if resultId == "" {
        return Err(InvalidInput);
      }
      var found := store.GetAction(p.tenantRef, receipt.actionRef);
      if found.Err? {
        return found;
      }
      var action := found.value;
      var verdict := VerifyReceipt(p.tenantRef, action, receipt);
      if verdict.Err? {
        return Err(verdict.error);
      }
      match action.status
      case Executing | Dispatched =>
        r := CompleteFromReceipt(
          p, action, ConnectorResult(p.tenantRef, resultId, receipt.actionRef, receipt), verdict.value,
          "action.completed", map["receipt_ref" := receipt.receiptRef, "result_id" := resultId], id, now);
      case Succeeded | Failed =>
        var applied := store.ResultApplied(p.tenantRef, resultId);
        if applied {
          return Ok(action);
        }
        r := Err(ForbiddenTransition);
      case _ => r := Err(ForbiddenTransition);
    }

    method ResolveReconciliation(
        p: Principal, ref: string, outcome: Status, receipt: Option<Receipt>, id: string, now: Time)
      returns (r: Result<Action, Error>)
      requires Valid()
      modifies audit, store
      ensures Valid()
      ensures (World(), r) == RunOp(wiring, old(World()), p, Op.ResolveReconciliation(ref, outcome, receipt), id, now)
    {
      hide ReceiptVerdict, RunWish, RunOp, Advanced, Read;
      ResolveRuns(wiring, World(), p, ref, outcome, receipt, id, now);
      if !ValidPrincipal(p) {
        return Err(InvalidInput);
      }
      if !TerminalReceiptStatus(outcome) {
        return Err(InvalidInput);
      }
      var found := store.GetAction(p.tenantRef, ref);
      if found.Err? {
        return found;
      }
      var action := found.value;
      if action.status != Reconciling {
        return Err(ForbiddenTransition);
      }
      if outcome == Succeeded {
        if receipt.None? {
          return Err(ReceiptRejected);
        }
        var verdict := VerifyReceipt(p.tenantRef, action, receipt.value);
        VerdictError(wiring, p.tenantRef, action.binding, receipt.value);
        if verdict.Err? {
          return Err(verdict.error);
        }
        if verdict.value != Succeeded {
          return Err(ReceiptRejected);
        }
        r := CompleteFromReceipt(
          p, action, ConnectorResult(p.tenantRef, "reconcile:" + ref, ref, receipt.value), Succeeded,
          "action.reconciled", map["receipt_ref" := receipt.value.receiptRef], id, now);
      } else {
        r := Transition(p, action, Failed, "action.reconciled", "reconciliation determined a failed technical result",
                        id, now);
      }
    }

    /** Audits and stores the new governed action that undoes the original. */
    method RequestCompensation(p: Principal, original: Action, id: string, now: Time)
      returns (r: Result<(Action, bool), Error>)
      requires Valid()
      modifies audit, store
      ensures Valid()
      ensures (World(), r) == RunWish(wiring, old(World()), p, WantCompensation(original), id, now)
    {
      hide PutRequested;
      if !IsHandle(id, "act_") {
        return Err(Unavailable);
      }
      var auditRef := AppendAudit(
        Event(p, "action.requested", id, None, Requested,
              map["capability" := original.binding.compensationRef, "compensation_of" := original.binding.actionRef],
              original.binding.compensationRef, "", "", "", "", original.binding.riskAuthority));
      if auditRef.Err? {
        return Err(auditRef.error);
      }
      r := store.PutRequested(NewAction(CompensationBinding(original.binding, id, auditRef.value, now)));
    }

    /** Audits and applies the move of the original, whether or not the table has the edge. */
    method MoveToCompensating(p: Principal, original: Action, compensationRef: string, now: Time)
      returns (r: Result<Action, Error>)
      requires Valid()
      modifies audit, store
      ensures Valid()
      ensures (World(), r)
              == Plain(RunWish(wiring, old(World()), p, CompensatingWish(original, compensationRef), compensationRef, now))
    {
      hide Advance;
      var moving := AppendAudit(
        MoveEvent(p, original, "action.compensating", Compensating, map["compensation_ref" := compensationRef],
                  original.grantRef, original.approvalEvidenceRef, original.receiptRef));
      if moving.Err? {
        return Err(moving.error);
      }
      r := store.Transition(
        original.binding.tenantRef, original.binding.actionRef, original.status, Compensating,
        "compensation initiated", now);
    }

    method Compensate(p: Principal, ref: string, id: string, now: Time) returns (r: Result<Action, Error>)
      requires Valid()
      modifies audit, store
      ensures Valid()
      ensures (World(), r) == RunOp(wiring, old(World()), p, Op.Compensate(ref), id, now)
    {
      hide RunWish;
      if !ValidPrincipal(p) {
        return Err(InvalidInput);
      }
      var found := store.GetAction(p.tenantRef, ref);
      if found.Err? {
        return found;
      }
      var original := found.value;
      if original.binding.compensationRef == "" {
        return Err(CompensationUndeclared);
      }
      if !Compensable(original.status) && original.status != Compensating {
        return Err(ForbiddenTransition);
      }
      var key := CompensationIdem(original.binding);
      var existing := store.GetByIdempotencyKey(key.tenant, key.ref);
      if existing.Ok? {
        return existing;
      }
      var put := RequestCompensation(p, original, id, now);
      if put.Err? {
        return Err(put.error);
      }
      var (stored, created) := put.value;
      if created && original.status != Compensating {
        var moved := MoveToCompensating(p, original, id, now);
        if moved.Err? {
          return Err(moved.error);
        }
      }
      r := Ok(stored);
    }
  }

  /** One audited plain edge. */
  function Advanced(
      w: Wiring, world: ActionOps.World, p: Principal, a: Action, to: Status, name: string, reason: string, id: string,
      now: Time)
    : (ActionOps.World, Result<Action, Error>)
  {
    if !CanTransition(a.status, to) then (world, Err(ForbiddenTransition))
    else Plain(RunWish(w, world, p, WantAdvance(a, to, name, reason, map["reason" := reason]), id, now))
  }

  lemma CancelRuns(w: Wiring, world: ActionOps.World, p: Principal, ref: string, id: string, now: Time)
    ensures RunOp(w, world, p, Op.Cancel(ref), id, now)
            == if !ValidPrincipal(p) then (world, Err(InvalidInput))
               else match Read(world.store, Key(p.tenantRef, ref))
                 case Err(e) => (world, Err(e))
                 case Ok(a) =>
                   if a.status in {Requested, AwaitingApproval, Granted} then
                     Advanced(w, world, p, a, Failed, "action.cancelled", "cancelled before dispatch", id, now)
                   else if a.status in {Dispatched, Executing, ResultUnknown, Reconciling} then
                     Advanced(w, world, p, a, HumanTakeover, "action.cancelled",
                              "cancelled after dispatch; escalated to human takeover", id, now)
                   else (world, Err(ForbiddenTransition))
  {
    hide RunWish, CanTransition, Read, StartGrant, StartIngest, StartCompensate, StartRequest, ValidPrincipal;
  }

  lemma VerdictError(w: Wiring, tenant: string, b: Binding, r: Receipt)
    ensures ReceiptVerdict(w, tenant, b, r).Err? ==> ReceiptVerdict(w, tenant, b, r).error == ReceiptRejected
  {
  }

  lemma ResolveRuns(
      w: Wiring, world: ActionOps.World, p: Principal, ref: string, outcome: Status, receipt: Option<Receipt>, id: string,
      now: Time)
    ensures RunOp(w, world, p, Op.ResolveReconciliation(ref, outcome, receipt), id, now)
            == if !ValidPrincipal(p) || !TerminalReceiptStatus(outcome) then (world, Err(InvalidInput))
               else match Read(world.store, Key(p.tenantRef, ref))
                 case Err(e) => (world, Err(e))
                 case Ok(a) =>
                   if a.status != Reconciling then (world, Err(ForbiddenTransition))
                   else if outcome != Succeeded then
                     Advanced(w, world, p, a, Failed, "action.reconciled",
                              "reconciliation determined a failed technical result", id, now)
                   else if receipt.None? || ReceiptVerdict(w, p.tenantRef, a.binding, receipt.value) != Ok(Succeeded) then
                     (world, Err(ReceiptRejected))
                   else
                     Plain(RunWish(w, world, p,
                                   WantIngest(a, ConnectorResult(p.tenantRef, "reconcile:" + ref, ref, receipt.value),
                                              Succeeded, "action.reconciled",
                                              map["receipt_ref" := receipt.value.receiptRef]),
                                   id, now))
  {
    hide RunWish, CanTransition, ReceiptVerdict, StartOn, RunOp, ValidPrincipal, StartResolve, Advanced;
    var op, k := Op.ResolveReconciliation(ref, outcome, receipt), Key(p.tenantRef, ref);
    RunOpStarts(w, world, p, op, id, now);
    if k in world.store.actions {
      var a := world.store.actions[k];
      ResolveStarts(w, world.store, p, op, a);
      ResolveCases(w, p, a, ref, outcome, receipt);
      FailureAdvances(w, world, p, a, id, now);
    }
  }

  lemma ResolveCases(w: Wiring, p: Principal, a: Action, ref: string, outcome: Status, receipt: Option<Receipt>)
    ensures StartResolve(w, p, a, ref, outcome, receipt)
            == if a.status != Reconciling then Err(ForbiddenTransition)
               else if outcome != Succeeded then
                 var reason := "reconciliation determined a failed technical result";
                 Ok(Continue(WantAdvance(a, Failed, "action.reconciled", reason, map["reason" := reason])))
               else if receipt.None? || ReceiptVerdict(w, p.tenantRef, a.binding, receipt.value) != Ok(Succeeded) then
                 Err(ReceiptRejected)
               else
                 Ok(Continue(WantIngest(a, ConnectorResult(p.tenantRef, "reconcile:" + ref, ref, receipt.value),
                                        Succeeded, "action.reconciled",
                                        map["receipt_ref" := receipt.value.receiptRef])))
  {
    hide ReceiptVerdict;
    if receipt.Some? {
      VerdictError(w, p.tenantRef, a.binding, receipt.value);
    }
  }

  lemma FailureAdvances(w: Wiring, world: ActionOps.World, p: Principal, a: Action, id: string, now: Time)
    ensures var reason := "reconciliation determined a failed technical result";
            a.status == Reconciling ==>
              Advanced(w, world, p, a, Failed, "action.reconciled", reason, id, now)
              == Plain(RunWish(w, world, p,
                               WantAdvance(a, Failed, "action.reconciled", reason, map["reason" := reason]), id, now))
  {
    hide RunWish;
  }

  lemma ResolveStarts(w: Wiring, s: Store, p: Principal, op: Op, a: Action)
    requires op.ResolveReconciliation?
    ensures StartOn(w, s, p, op, a) == StartResolve(w, p, a, op.ref, op.outcome, op.recovered)
  {
    hide StartResolve;
  }

  /** An operation on a known action, as what it starts. */
  lemma RunOpStarts(w: Wiring, world: ActionOps.World, p: Principal, op: Op, id: string, now: Time)
    requires op.ResolveReconciliation?
    ensures RunOp(w, world, p, op, id, now)
            == if !ValidPrincipal(p) || !TerminalReceiptStatus(op.outcome) then (world, Err(InvalidInput))
               else match Read(world.store, Key(p.tenantRef, op.ref))
                 case Err(e) => (world, Err(e))
                 case Ok(a) =>
                   match StartOn(w, world.store, p, op, a)
                   case Err(e) => (world, Err(e))
                   case Ok(Done(done)) => (world, Ok(done))
                   case Ok(Continue(wish)) =>
                     match wish
                     case WantEvidence(x) => RunGrantWithEvidence(w, world, p, x, id, now)
                     case WantCompensation(o) => RunCompensate(w, world, p, o, id, now)
                     case _ => Plain(RunWish(w, world, p, wish, id, now))
  {
    hide RunWish, StartOn, Read, RunGrantWithEvidence, RunCompensate, ValidPrincipal, Plain;
  }

  /** The store after the delivery attempt that follows a dispatch. */
  ghost function PublishedNow(s: Store, transport: Transport, row: Key, now: Time): Store {
    if row in s.dispatches && !Final(s.dispatches[row]) && row !in s.claimed
    then Drained(s, [row], Answer(transport), now) else s
  }

  /** A named plan is never blank, so it always means an approval to wait for. */
  lemma PlanIsHandle(w: Wiring, r: ActionRequest)
    requires RequestValid(w, r)
    ensures r.approvalPlanRef.Some? ==> r.approvalPlanRef.value != ""
  {
  }
}
