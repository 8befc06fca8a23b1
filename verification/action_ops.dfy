/** The service operations, cut at the points where other operations can run in between: a read of the
    store that fixes what the operation wants, an audit append that turns the wish into a store command,
    and the atomic command (services/agentnexus/internal/actions/service.go, reconcile.go, compensate.go). */
module ActionOps {
  import opened ActionState
  import opened ActionStore
  import opened ActionTypes
  import opened TrustClasses
  import opened Wrappers

  datatype Principal = Principal(
    tenantRef: string, principalRef: string, agentClientRef: string, agentReleaseRef: string,
    trustClass: TrustClass, orgSnapshotRef: string, verifiedAt: Option<Time>, expiresAt: Option<Time>)

  predicate ValidPrincipal(p: Principal) {
    && p.tenantRef != "" && p.principalRef != "" && p.agentClientRef != "" && p.agentReleaseRef != ""
    && p.orgSnapshotRef != "" && p.verifiedAt.Some? && p.expiresAt.Some? && p.verifiedAt.value < p.expiresAt.value
  }

  datatype ActionRequest = ActionRequest(
    idempotencyKey: string, businessContextRef: string, capability: string, parameterHash: string,
    riskAuthority: string, riskLevel: string, approvalPlanRef: Option<string>, compensationRef: string,
    expectedReceiptSchema: string, expiresAt: Time)

  /** The validators and optional ports a service is wired with. */
  datatype Wiring = Wiring(
    requestOk: ActionRequest -> bool,
    receiptOk: Receipt -> bool,
    operationOk: (string, string, string) -> bool,
    providers: Option<(Principal, string, string) -> bool>,
    receipts: Option<(string, Receipt) -> bool>,
    evidenceWired: bool)

  predicate IsHandleChar(c: char) {
    'A' <= c <= 'Z' || 'a' <= c <= 'z' || '0' <= c <= '9' || c == '_' || c == '-'
  }

  /** An opaque handle: the kind's prefix and 16 to 128 handle characters. */
  predicate IsHandle(s: string, prefix: string) {
    prefix <= s && 16 <= |s| - |prefix| <= 128
    && forall i :: |prefix| <= i < |s| ==> IsHandleChar(s[i])
  }

  predicate RequestValid(w: Wiring, r: ActionRequest) {
    w.requestOk(r) && (r.approvalPlanRef.Some? ==> IsHandle(r.approvalPlanRef.value, "apl_"))
  }

  predicate Trusted(w: Wiring, p: Principal, capability: string, hash: string) {
    match p.trustClass
    case FirstParty => true
    case CertifiedThirdParty => w.providers.Some? && w.providers.value(p, capability, hash)
    case Untrusted => false
  }

  // ---------------------------------------------------------------- approval evidence

  datatype Evidence = Evidence(records: map<Key, ConsumedEvidence>, consumed: set<Key>, revoked: set<Key>)

  /** The one-shot consumption of the evidence for a plan. */
  function ConsumeEvidence(e: Evidence, plan: Key): (Evidence, Result<ConsumedEvidence, Error>) {
    if plan in e.revoked then (e, Err(EvidenceRejected))
    else if plan !in e.records then (e, Err(NotFound))
    else if plan in e.consumed then (e, Err(EvidenceConsumed))
    else (e.(consumed := e.consumed + {plan}), Ok(e.records[plan]))
  }

  function GrantEvidenceError(e: Error): Error {
    match e
    case EvidenceConsumed => EvidenceConsumed
    case EvidenceRejected => EvidenceRejected
    case NotFound => EvidenceRejected
    case _ => Unavailable
  }

  predicate Approves(e: ConsumedEvidence, b: Binding) {
    e.capability == b.capability && e.parameterHash == b.parameterHash && e.decision == Approved
  }

  // ---------------------------------------------------------------- what an operation wants

  datatype Op =
    | RequestAction(request: ActionRequest)
    | GrantOp(ref: string)
    | DispatchOp(ref: string)
    | MarkExecuting(ref: string)
    | MarkResultUnknown(ref: string)
    | TakeOver(ref: string, reason: string)
    | Cancel(ref: string)
    | BeginReconciliation(ref: string)
    | IngestReceipt(resultId: string, receipt: Receipt)
    | ResolveReconciliation(ref: string, outcome: Status, recovered: Option<Receipt>)
    | Compensate(ref: string)

  datatype Wish =
    | WantPut(request: ActionRequest)
    | WantEvidence(action: Action)
    | WantGrant(action: Action, evidenceRef: string)
    | WantDispatch(action: Action)
    | WantAdvance(action: Action, to: Status, name: string, reason: string, details: map<string, string>)
    | WantIngest(action: Action, result: ConnectorResult, to: Status, name: string, details: map<string, string>)
    | WantCompensation(original: Action)

  datatype Started = Done(action: Action) | Continue(wish: Wish)

  function Read(s: Store, k: Key): Result<Action, Error> {
    if k in s.actions then Ok(s.actions[k]) else Err(NotFound)
  }

  /** Cancellation: clean before dispatch, escalation after it. */
  function CancelTarget(s: Status): Option<(Status, string)> {
    if s in {Requested, AwaitingApproval, Granted} then Some((Failed, "cancelled before dispatch"))
    else if s in {Dispatched, Executing, ResultUnknown, Reconciling} then
      Some((HumanTakeover, "cancelled after dispatch; escalated to human takeover"))
    else None
  }

  /** The completion seam: the receipt binds the exact operation, matches the declared schema, attests a
      technical result and passes the wired verifier. */
  function ReceiptVerdict(w: Wiring, tenant: string, b: Binding, r: Receipt): Result<Status, Error> {
    if w.receiptOk(r)
       && r.actionRef == b.actionRef && r.parameterHash == b.parameterHash && r.capability == b.capability
       && r.receiptSchema == b.expectedReceiptSchema
       && TerminalReceiptStatus(r.status)
       && w.receipts.Some? && w.receipts.value(tenant, r)
    then Ok(r.status)
    else Err(ReceiptRejected)
  }

  function StartAdvance(a: Action, legal: bool, to: Status, name: string, reason: string): Result<Started, Error> {
    if legal && CanTransition(a.status, to) then Ok(Continue(WantAdvance(a, to, name, reason, map["reason" := reason])))
    else Err(ForbiddenTransition)
  }

  function StartRequest(w: Wiring, s: Store, p: Principal, r: ActionRequest): Result<Started, Error> {
    if !RequestValid(w, r) then Err(InvalidInput)
    else if p.trustClass == Untrusted then Err(CallerUntrusted)
    else if Key(p.tenantRef, r.idempotencyKey) in s.byIdem then
      var existing := Lookup(s, Key(p.tenantRef, s.byIdem[Key(p.tenantRef, r.idempotencyKey)]));
      if existing.binding.capability != r.capability || existing.binding.parameterHash != r.parameterHash
         || existing.binding.businessContextRef != r.businessContextRef
      then Err(IdempotencyConflict)
      else Ok(Done(existing))
    else Ok(Continue(WantPut(r)))
  }

  function StartGrant(w: Wiring, p: Principal, a: Action): Result<Started, Error> {
    if a.status !in {Requested, AwaitingApproval} then Err(ForbiddenTransition)
    else if !Trusted(w, p, a.binding.capability, a.binding.parameterHash) then Err(CallerUntrusted)
    else if a.status == Requested then Ok(Continue(WantGrant(a, "")))
    else if !w.evidenceWired then Err(ApprovalRequired)
    else Ok(Continue(WantEvidence(a)))
  }

  function StartIngest(w: Wiring, s: Store, p: Principal, a: Action, resultId: string, r: Receipt)
    : Result<Started, Error>
  {
    match ReceiptVerdict(w, p.tenantRef, a.binding, r)
    case Err(e) => Err(e)
    case Ok(to) =>
      if a.status in {Executing, Dispatched} then
        Ok(Continue(WantIngest(a, ConnectorResult(p.tenantRef, resultId, r.actionRef, r), to, "action.completed",
                               map["receipt_ref" := r.receiptRef, "result_id" := resultId])))
      else if a.status in {Succeeded, Failed} && Key(p.tenantRef, resultId) in s.inbox then Ok(Done(a))
      else Err(ForbiddenTransition)
  }

  function StartResolve(w: Wiring, p: Principal, a: Action, ref: string, outcome: Status, recovered: Option<Receipt>)
    : Result<Started, Error>
  {
    if a.status != Reconciling then Err(ForbiddenTransition)
    else if outcome != Succeeded then
      StartAdvance(a, true, Failed, "action.reconciled", "reconciliation determined a failed technical result")
    else if recovered.None? then Err(ReceiptRejected)
    else
      match ReceiptVerdict(w, p.tenantRef, a.binding, recovered.value)
      case Err(e) => Err(e)
      case Ok(to) =>
        if to != Succeeded then Err(ReceiptRejected)
        else Ok(Continue(WantIngest(a, ConnectorResult(p.tenantRef, "reconcile:" + ref, ref, recovered.value),
                                    Succeeded, "action.reconciled",
                                    map["receipt_ref" := recovered.value.receiptRef])))
  }

  function CompensationIdem(original: Binding): Key {
    Key(original.tenantRef, "cmp:" + original.actionRef)
  }

  function StartCompensate(s: Store, a: Action): Result<Started, Error> {
    if a.binding.compensationRef == "" then Err(CompensationUndeclared)
    else if !Compensable(a.status) && a.status != Compensating then Err(ForbiddenTransition)
    else if CompensationIdem(a.binding) in s.byIdem then
      Ok(Done(Lookup(s, Key(a.binding.tenantRef, s.byIdem[CompensationIdem(a.binding)]))))
    else Ok(Continue(WantCompensation(a)))
  }

  function OpRef(op: Op): string {
    match op
    case RequestAction(_) => ""
    case IngestReceipt(_, r) => r.actionRef
    case _ => op.ref
  }

  /** What an operation rejects before it reads the action. */
  function InputFault(op: Op): Option<Error> {
    match op
    case IngestReceipt(resultId, _) => if resultId == "" then Some(InvalidInput) else None
    case ResolveReconciliation(_, outcome, _) => if TerminalReceiptStatus(outcome) then None else Some(InvalidInput)
    case _ => None
  }

  /** The read: everything an operation decides before its first effect. */
  function Start(w: Wiring, s: Store, p: Principal, op: Op): Result<Started, Error> {
    if !ValidPrincipal(p) then Err(InvalidInput)
    else if op.RequestAction? then StartRequest(w, s, p, op.request)
    else if InputFault(op).Some? then Err(InputFault(op).value)
    else match Read(s, Key(p.tenantRef, OpRef(op)))
      case Err(e) => Err(e)
      case Ok(a) => StartOn(w, s, p, op, a)
  }

  function StartOn(w: Wiring, s: Store, p: Principal, op: Op, a: Action): Result<Started, Error>
    requires !op.RequestAction?
  {
    match op
    case GrantOp(_) => StartGrant(w, p, a)
    case DispatchOp(_) =>
      if a.status == Granted then Ok(Continue(WantDispatch(a)))
      else if a.status in {Dispatched, Executing, ResultUnknown, Reconciling} then Err(BlindRetryForbidden)
      else Err(ForbiddenTransition)
    case MarkExecuting(_) => StartAdvance(a, a.status == Dispatched, Executing, "action.executing", "")
    case MarkResultUnknown(_) =>
      StartAdvance(a, a.status in {Executing, Dispatched}, ResultUnknown, "action.result_unknown",
                   "connector timeout after possible execution")
    case TakeOver(_, reason) => StartAdvance(a, true, HumanTakeover, "action.human_takeover", reason)
    case Cancel(_) =>
      (match CancelTarget(a.status)
       case None => Err(ForbiddenTransition)
       case Some((to, reason)) => StartAdvance(a, true, to, "action.cancelled", reason))
    case BeginReconciliation(_) =>
      StartAdvance(a, a.status == ResultUnknown, Reconciling, "action.reconciling", "reconciliation started")
    case IngestReceipt(resultId, r) => StartIngest(w, s, p, a, resultId, r)
    case ResolveReconciliation(ref, outcome, recovered) => StartResolve(w, p, a, ref, outcome, recovered)
    case Compensate(_) => StartCompensate(s, a)
  }

  // ---------------------------------------------------------------- from a wish to a command

  datatype Command =
    | Put(action: Action)
    | GrantCommand(action: Action, grant: Grant)
    | DispatchCommand(key: Key, dispatch: Dispatch)
    | AdvanceCommand(key: Key, from: Status, to: Status, reason: string)
    | IngestCommand(result: ConnectorResult, to: Status)

  datatype Prepared = Prepared(event: AuditEvent, command: Command)

  function NewBinding(p: Principal, r: ActionRequest, id: string, auditRef: nat, now: Time): Binding {
    Binding(p.tenantRef, id, r.businessContextRef, r.capability, r.parameterHash, r.idempotencyKey,
            r.riskAuthority, r.riskLevel, if r.approvalPlanRef.Some? then r.approvalPlanRef.value else "",
            r.compensationRef, "", r.expectedReceiptSchema, r.expiresAt, auditRef, now)
  }

  function NewAction(b: Binding): Action {
    Action(b, if b.approvalPlanRef != "" then AwaitingApproval else Requested, "", "", "", "", b.createdAt)
  }

  /** The separately governed action that undoes another one. */
  function CompensationBinding(original: Binding, id: string, auditRef: nat, now: Time): Binding {
    Binding(original.tenantRef, id, original.businessContextRef, original.compensationRef, original.parameterHash,
            "cmp:" + original.actionRef, original.riskAuthority, original.riskLevel, "", "", original.actionRef,
            original.expectedReceiptSchema, original.expiresAt, auditRef, now)
  }

  function NewGrant(b: Binding, id: string, now: Time): Grant {
    Grant(b.tenantRef, id, b.actionRef, b.businessContextRef, b.capability, b.parameterHash, true, now,
          now + MAX_ACTION_GRANT_TTL, None)
  }

  function NewDispatch(a: Action, id: string, now: Time): Dispatch {
    Dispatch(a.binding.tenantRef, id, a.binding.actionRef, a.binding.capability, a.binding.parameterHash, a.grantRef,
             DispatchExecute, false, 0, now, None, None, "", None)
  }

  function Event(
      p: Principal, name: string, ref: string, from: Option<Status>, to: Status, details: map<string, string>,
      capability: string, hash: string, grantRef: string, evidenceRef: string, receiptRef: string, risk: string)
    : AuditEvent
  {
    AuditEvent(p.tenantRef, p.principalRef, name, ref, from, to, details, capability, hash, grantRef, evidenceRef,
               receiptRef, risk, p.agentClientRef, p.agentReleaseRef, p.orgSnapshotRef)
  }

  /** The lineage event of a transition of a known action. */
  function MoveEvent(
      p: Principal, a: Action, name: string, to: Status, details: map<string, string>, grantRef: string,
      evidenceRef: string, receiptRef: string)
    : AuditEvent
  {
    Event(p, name, a.binding.actionRef, Some(a.status), to, details, a.binding.capability, a.binding.parameterHash,
          grantRef, evidenceRef, receiptRef, a.binding.riskAuthority)
  }

  function PreparePut(p: Principal, r: ActionRequest, id: string, auditRef: nat, now: Time): Prepared {
    var a := NewAction(NewBinding(p, r, id, auditRef, now));
    Prepared(Event(p, "action.requested", id, None, a.status,
                   map["capability" := r.capability, "parameter_hash" := r.parameterHash],
                   r.capability, r.parameterHash, "", "", "", r.riskAuthority),
             Put(a))
  }

  function PrepareCompensation(p: Principal, o: Binding, id: string, auditRef: nat, now: Time): Prepared {
    Prepared(Event(p, "action.requested", id, None, Requested,
                   map["capability" := o.compensationRef, "compensation_of" := o.actionRef],
                   o.compensationRef, "", "", "", "", o.riskAuthority),
             Put(NewAction(CompensationBinding(o, id, auditRef, now))))
  }

  function PrepareGrant(p: Principal, a: Action, evidenceRef: string, id: string, now: Time): Prepared {
    Prepared(MoveEvent(p, a, "action.granted", Granted, map["grant_ref" := id], id, evidenceRef, a.receiptRef),
             GrantCommand(a.(approvalEvidenceRef := evidenceRef), NewGrant(a.binding, id, now)))
  }

  function PrepareDispatch(p: Principal, a: Action, id: string, now: Time): Prepared {
    Prepared(MoveEvent(p, a, "action.dispatched", Dispatched, map["grant_ref" := a.grantRef, "dispatch_ref" := id],
                       a.grantRef, a.approvalEvidenceRef, a.receiptRef),
             DispatchCommand(a.binding.Id(), NewDispatch(a, id, now)))
  }

  function PrepareAdvance(
      p: Principal, a: Action, to: Status, name: string, reason: string, details: map<string, string>): Prepared
  {
    Prepared(MoveEvent(p, a, name, to, details, a.grantRef, a.approvalEvidenceRef, a.receiptRef),
             AdvanceCommand(a.binding.Id(), a.status, to, reason))
  }

  function PrepareIngest(
      p: Principal, a: Action, r: ConnectorResult, to: Status, name: string, details: map<string, string>): Prepared
  {
    Prepared(MoveEvent(p, a, name, to, details, a.grantRef, a.approvalEvidenceRef, r.receipt.receiptRef),
             IngestCommand(r, to))
  }

  /** Mint what the wish needs and build its audit event and store command. */
  function Prepare(w: Wiring, p: Principal, wish: Wish, id: string, auditRef: nat, now: Time): Result<Prepared, Error> {
    match wish
    case WantPut(r) =>
      if IsHandle(id, "act_") then Ok(PreparePut(p, r, id, auditRef, now)) else Err(Unavailable)
    case WantCompensation(o) =>
      if IsHandle(id, "act_") then Ok(PrepareCompensation(p, o.binding, id, auditRef, now)) else Err(Unavailable)
    case WantEvidence(_) => Err(ApprovalRequired)
    case WantGrant(a, evidenceRef) =>
      if IsHandle(id, "grant_")
         && w.operationOk(a.binding.businessContextRef, a.binding.capability, a.binding.parameterHash)
      then Ok(PrepareGrant(p, a, evidenceRef, id, now)) else Err(Unavailable)
    case WantDispatch(a) => Ok(PrepareDispatch(p, a, id, now))
    case WantAdvance(a, to, name, reason, details) => Ok(PrepareAdvance(p, a, to, name, reason, details))
    case WantIngest(a, r, to, name, details) => Ok(PrepareIngest(p, a, r, to, name, details))
  }

  /** One atomic store command; the flag tells whether it was the one that made the change. */
  function Execute(s: Store, c: Command, at: Time): (Store, Result<(Action, bool), Error>) {
    match c
    case Put(a) => PutRequested(s, a)
    case GrantCommand(a, g) => Flagged(GrantAction(s, a, g))
    case DispatchCommand(k, d) => Flagged(DispatchAction(s, k, d, d.createdAt))
    case AdvanceCommand(k, from, to, reason) => Flagged(Advance(s, k, from, to, reason, at))
    case IngestCommand(r, to) => IngestResult(s, r, to, at)
  }

  function Flagged(r: (Store, Result<Action, Error>)): (Store, Result<(Action, bool), Error>) {
    (r.0, match r.1 case Ok(a) => Ok((a, true)) case Err(e) => Err(e))
  }

  // ---------------------------------------------------------------- one operation with nothing in between

  /** What the ports hold. The audit sink can fail at any append: append number n of all that were ever tried fails
      if `outages(n)`, and `attempts` were tried so far. */
  datatype World = World(
    store: Store, events: seq<AuditEvent>, evidence: Evidence, attempts: nat, outages: nat -> bool)

  /** Audit, then command. */
  function RunWish(w: Wiring, world: World, p: Principal, wish: Wish, id: string, now: Time)
    : (World, Result<(Action, bool), Error>)
  {
    match Prepare(w, p, wish, id, |world.events| + 1, now)
    case Err(e) => (world, Err(e))
    case Ok(prepared) =>
      var tried := world.(attempts := world.attempts + 1);
      if world.outages(world.attempts) then (tried, Err(Unavailable))
      else
        var (store, r) := Execute(world.store, prepared.command, now);
        (tried.(store := store, events := world.events + [prepared.event]), r)
  }

  function Plain(r: (World, Result<(Action, bool), Error>)): (World, Result<Action, Error>) {
    (r.0, match r.1 case Ok((a, _)) => Ok(a) case Err(e) => Err(e))
  }

  function RunGrantWithEvidence(w: Wiring, world: World, p: Principal, a: Action, id: string, now: Time)
    : (World, Result<Action, Error>)
  {
    var (evidence, r) := ConsumeEvidence(world.evidence, Key(p.tenantRef, a.binding.approvalPlanRef));
    var after := world.(evidence := evidence);
    match r
    case Err(e) => (after, Err(GrantEvidenceError(e)))
    case Ok(record) =>
      if !Approves(record, a.binding) then (after, Err(EvidenceRejected))
      else Plain(RunWish(w, after, p, WantGrant(a, record.approvalRef), id, now))
  }

  function CompensatingWish(original: Action, compensationRef: string): Wish {
    WantAdvance(original, Compensating, "action.compensating", "compensation initiated",
                map["compensation_ref" := compensationRef])
  }

  function RunCompensate(w: Wiring, world: World, p: Principal, original: Action, id: string, now: Time)
    : (World, Result<Action, Error>)
  {
    var (after, r) := RunWish(w, world, p, WantCompensation(original), id, now);
    match r
    case Err(e) => (after, Err(e))
    case Ok((stored, created)) =>
      if !created || original.status == Compensating then (after, Ok(stored))
      else
        var (moved, s) := RunWish(w, after, p, CompensatingWish(original, id), id, now);
        match s
        case Err(e) => (moved, Err(e))
        case Ok(_) => (moved, Ok(stored))
  }

  function RunOp(w: Wiring, world: World, p: Principal, op: Op, id: string, now: Time): (World, Result<Action, Error>) {
    match Start(w, world.store, p, op)
    case Err(e) => (world, Err(e))
    case Ok(Done(a)) => (world, Ok(a))
    case Ok(Continue(wish)) =>
      match wish
      case WantEvidence(a) => RunGrantWithEvidence(w, world, p, a, id, now)
      case WantCompensation(o) => RunCompensate(w, world, p, o, id, now)
      case _ => Plain(RunWish(w, world, p, wish, id, now))
  }
}
