/** Records of the durable action plane (services/agentnexus/internal/actions/model.go). */
module ActionTypes {
  import opened ActionState
  import opened Wrappers

  /** Nanoseconds; an instant that may be unset is an Option. */
  type Time = int

  const SECOND: Time := 1_000_000_000
  const MAX_ACTION_GRANT_TTL: Time := 5 * 60 * SECOND

  /** A reference under its tenant. */
  datatype Key = Key(tenant: string, ref: string)

  datatype Error =
    | InvalidInput | Unavailable | NotFound | IdempotencyConflict | ForbiddenTransition | CallerUntrusted
    | ApprovalRequired | EvidenceRejected | EvidenceConsumed | ReceiptRejected | BlindRetryForbidden
    | CompensationUndeclared

  /** The columns of an action that no operation may change. */
  datatype Binding = Binding(
    tenantRef: string, actionRef: string, businessContextRef: string, capability: string, parameterHash: string,
    idempotencyKey: string, riskAuthority: string, riskLevel: string, approvalPlanRef: string,
    compensationRef: string, compensationOf: string, expectedReceiptSchema: string, expiresAt: Time,
    auditRef: nat, createdAt: Time)
  {
    function Id(): Key { Key(tenantRef, actionRef) }

    function IdemKey(): Key { Key(tenantRef, idempotencyKey) }
  }

  datatype Action = Action(
    binding: Binding, status: Status, grantRef: string, approvalEvidenceRef: string, receiptRef: string,
    failureReason: string, updatedAt: Time)

  const NO_BINDING := Binding("", "", "", "", "", "", "", "", "", "", "", "", 0, 0, 0)

  /** What a lookup of an absent action yields. */
  const NO_ACTION := Action(NO_BINDING, Requested, "", "", "", "", 0)

  datatype Grant = Grant(
    tenantRef: string, grantRef: string, actionRef: string, businessContextRef: string, capability: string,
    parameterHash: string, oneUse: bool, issuedAt: Time, expiresAt: Time, consumedAt: Option<Time>)

  datatype DispatchKind = DispatchExecute | DispatchCompensate

  datatype Dispatch = Dispatch(
    tenantRef: string, dispatchRef: string, actionRef: string, capability: string, parameterHash: string,
    grantRef: string, kind: DispatchKind, published: bool, attempts: nat, createdAt: Time,
    publishedAt: Option<Time>, nextAttemptAt: Option<Time>, lastError: string, deadLetteredAt: Option<Time>)
  {
    function Id(): Key { Key(tenantRef, dispatchRef) }

    function ActionId(): Key { Key(tenantRef, actionRef) }
  }

  /** What one delivery attempt records about a claimed row. */
  datatype DispatchOutcome = DispatchOutcome(
    published: bool, nextAttemptAt: Option<Time>, lastError: string, deadLetter: bool)

  datatype DispatchMessage = DispatchMessage(
    tenantRef: string, actionRef: string, dispatchRef: string, capability: string, parameterHash: string,
    grantRef: string, kind: DispatchKind)

  datatype Receipt = Receipt(
    receiptRef: string, actionRef: string, status: Status, capability: string, parameterHash: string,
    receiptSchema: string, resultHash: string, issuedAt: Time, signature: string)

  datatype ConnectorResult = ConnectorResult(tenantRef: string, resultId: string, actionRef: string, receipt: Receipt)

  datatype ApprovalDecision = Approved | Denied | Narrowed

  datatype ConsumedEvidence = ConsumedEvidence(
    approvalRef: string, planRef: string, capability: string, parameterHash: string, decision: ApprovalDecision)

  datatype AuditEvent = AuditEvent(
    tenantRef: string, principalRef: string, action: string, actionRef: string, statusFrom: Option<Status>,
    statusTo: Status, details: map<string, string>, capability: string, parameterHash: string, grantRef: string,
    approvalEvidenceRef: string, receiptRef: string, riskAuthority: string, agentClientRef: string,
    agentReleaseRef: string, orgSnapshotRef: string)
}
