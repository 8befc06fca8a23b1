/** Exactly when each operation of the service succeeds and what it leaves behind, in terms of what is stored
    (services/agentnexus/internal/actions/service.go, reconcile.go, compensate.go). */
module ActionEffects {
  import opened ActionOps
  import opened ActionServices
  import opened ActionState
  import opened ActionStore
  import opened ActionTraces
  import opened ActionTypes
  import opened TrustClasses
  import opened Wrappers

  // ---------------------------------------------------------------- who may call

  /** A caller is turned away for its own sake exactly if an identity field is missing or its verification window is
      not set or empty. */
  lemma CallerRefusedIff(w: Wiring, world: World, p: Principal, ref: string, id: string, now: Time)
    ensures var (after, r) := RunOp(w, world, p, MarkExecuting(ref), id, now);
            r == Err(InvalidInput) <==>
              || p.tenantRef == "" || p.principalRef == "" || p.agentClientRef == "" || p.agentReleaseRef == ""
              || p.orgSnapshotRef == "" || p.verifiedAt == None || p.expiresAt == None
              || p.verifiedAt.value >= p.expiresAt.value
  {
    hide CanTransition;
  }

  /** No operation does anything for such a caller, or about an action its tenant does not have. */
  lemma RefusedUntouched(w: Wiring, world: World, p: Principal, op: Op, id: string, now: Time)
    ensures !ValidPrincipal(p) ==> RunOp(w, world, p, op, id, now) == (world, Err(InvalidInput))
    ensures !op.RequestAction? && Key(p.tenantRef, OpRef(op)) !in world.store.actions ==>
              RunOp(w, world, p, op, id, now).0 == world && RunOp(w, world, p, op, id, now).1.Err?
  {
    hide ValidPrincipal, RunWish, RunCompensate, RunGrantWithEvidence;
  }

  /** An opaque handle is its prefix and a body of 16 to 128 letters, digits, underscores and hyphens. */
  lemma HandleForm(prefix: string, body: string)
    ensures IsHandle(prefix + body, prefix) <==>
              && 16 <= |body| <= 128
              && forall i :: 0 <= i < |body| ==>
                   var c := body[i];
                   'A' <= c <= 'Z' || 'a' <= c <= 'z' || '0' <= c <= '9' || c in {'_', '-'}
  {
    var s := prefix + body;
    assert forall i :: 0 <= i < |body| ==> s[|prefix| + i] == body[i];
    assert forall i :: |prefix| <= i < |s| ==> s[i] == body[i - |prefix|];
  }

  // ---------------------------------------------------------------- what an operation leaves behind

  /** The lineage event of a step of an action: who acted, and the exact operation it binds. */
  function Lineage(
      p: Principal, b: Binding, name: string, from: Option<Status>, to: Status, details: map<string, string>,
      grantRef: string, evidenceRef: string, receiptRef: string)
    : AuditEvent
  {
    AuditEvent(p.tenantRef, p.principalRef, name, b.actionRef, from, to, details, b.capability, b.parameterHash,
               grantRef, evidenceRef, receiptRef, b.riskAuthority, p.agentClientRef, p.agentReleaseRef,
               p.orgSnapshotRef)
  }

  ghost predicate Refused(world: World, after: World, r: Result<Action, Error>, e: Error) {
    r == Err(e) && after == world
  }

  /** One action is now `a`, one event more is in the log, and nothing else changed. */
  ghost predicate Changed(world: World, after: World, r: Result<Action, Error>, a: Action, e: AuditEvent) {
    && r == Ok(a)
    && after.store == world.store.(actions := world.store.actions[a.binding.Id() := a])
    && after.events == world.events + [e] && after.evidence == world.evidence
  }

  // ---------------------------------------------------------------- plain moves

  /** The plain edges, each with the statuses it may leave, the reason it records and its event; everything else about
      the action stays, and from any other status the operation is refused without a trace. */
  function PlainMove(op: Op, s: Status): Option<(Status, string, string)> {
    match op
    case MarkExecuting(_) => if s == Dispatched then Some((Executing, "action.executing", "")) else None
    case MarkResultUnknown(_) =>
      if s in {Executing, Dispatched} then
        Some((ResultUnknown, "action.result_unknown", "connector timeout after possible execution"))
      else None
    case BeginReconciliation(_) =>
      if s == ResultUnknown then Some((Reconciling, "action.reconciling", "reconciliation started")) else None
    case TakeOver(_, reason) =>
      if s != HumanTakeover then Some((HumanTakeover, "action.human_takeover", reason)) else None
    case Cancel(_) =>
      if s in {Requested, AwaitingApproval, Granted} then
        Some((Failed, "action.cancelled", "cancelled before dispatch"))
      else if s in {Dispatched, Executing, ResultUnknown, Reconciling} then
        Some((HumanTakeover, "action.cancelled", "cancelled after dispatch; escalated to human takeover"))
      else None
    case _ => None
  }

  lemma PlainMoveEffect(w: Wiring, world: World, p: Principal, op: Op, id: string, now: Time)
    requires op.MarkExecuting? || op.MarkResultUnknown? || op.BeginReconciliation? || op.TakeOver? || op.Cancel?
    requires ActionsOk(world.store) && ValidPrincipal(p) && !world.outages(world.attempts)
    requires Key(p.tenantRef, op.ref) in world.store.actions
    ensures var (after, r) := RunOp(w, world, p, op, id, now);
            var a := world.store.actions[Key(p.tenantRef, op.ref)];
            match PlainMove(op, a.status)
            case None => Refused(world, after, r, ForbiddenTransition)
            case Some((to, name, reason)) =>
              Changed(world, after, r,
                      a.(status := to, updatedAt := now,
                         failureReason := if reason == "" then a.failureReason else reason),
                      Lineage(p, a.binding, name, Some(a.status), to, map["reason" := reason], a.grantRef,
                              a.approvalEvidenceRef, a.receiptRef))
  {
    hide ActionsOk, ValidPrincipal, RunWish, PlainMove, Changed, Lineage;
    var a := world.store.actions[Key(p.tenantRef, op.ref)];
    OwnId(world.store, Key(p.tenantRef, op.ref));
    PlainStarts(w, world.store, p, op, a);
    if PlainMove(op, a.status).Some? {
      var (to, name, reason) := PlainMove(op, a.status).value;
      AuditedMove(w, world, p, a, to, name, reason, id, now);
    }
  }

  lemma PlainStarts(w: Wiring, s: Store, p: Principal, op: Op, a: Action)
    requires op.MarkExecuting? || op.MarkResultUnknown? || op.BeginReconciliation? || op.TakeOver? || op.Cancel?
    requires ValidPrincipal(p) && Key(p.tenantRef, op.ref) in s.actions && a == s.actions[Key(p.tenantRef, op.ref)]
    ensures Start(w, s, p, op)
            == match PlainMove(op, a.status)
               case None => Err(ForbiddenTransition)
               case Some((to, name, reason)) => Ok(Continue(WantAdvance(a, to, name, reason, map["reason" := reason])))
    ensures PlainMove(op, a.status).Some? ==> CanTransition(a.status, PlainMove(op, a.status).value.0)
  {
    hide ValidPrincipal;
  }

  lemma AuditedMove(
      w: Wiring, world: World, p: Principal, a: Action, to: Status, name: string, reason: string, id: string, now: Time)
    requires CanTransition(a.status, to) && !world.outages(world.attempts) && a.binding.Id() in world.store.actions
    requires world.store.actions[a.binding.Id()] == a && a.binding.tenantRef == p.tenantRef
    ensures var (after, r) :=
              Plain(RunWish(w, world, p, WantAdvance(a, to, name, reason, map["reason" := reason]), id, now));
            Changed(world, after, r,
                    a.(status := to, updatedAt := now, failureReason := if reason == "" then a.failureReason else reason),
                    Lineage(p, a.binding, name, Some(a.status), to, map["reason" := reason], a.grantRef,
                            a.approvalEvidenceRef, a.receiptRef))
  {
    hide CanTransition;
  }

  lemma OwnId(s: Store, k: Key)
    requires ActionsOk(s) && k in s.actions
    ensures s.actions[k].binding.Id() == k && s.actions[k].binding.tenantRef == k.tenant
    ensures s.actions[k].binding.actionRef == k.ref
  {
    assert ActionOk(s, k);
  }

  // ---------------------------------------------------------------- requests

  /** A request under a free key stores a new action of exactly what was asked; under a used one nothing changes. */
  lemma RequestEffect(w: Wiring, world: World, p: Principal, q: ActionRequest, id: string, now: Time)
    requires ValidPrincipal(p) && !world.outages(world.attempts)
    requires Key(p.tenantRef, q.idempotencyKey) !in world.store.byIdem
    ensures var (after, r) := RunOp(w, world, p, RequestAction(q), id, now);
            var plan := if q.approvalPlanRef.Some? then q.approvalPlanRef.value else "";
            var b := Binding(p.tenantRef, id, q.businessContextRef, q.capability, q.parameterHash, q.idempotencyKey,
                             q.riskAuthority, q.riskLevel, plan, q.compensationRef, "", q.expectedReceiptSchema,
                             q.expiresAt, |world.events| + 1, now);
            var status := if q.approvalPlanRef.Some? then AwaitingApproval else Requested;
            && (r.Ok? <==>
                  && w.requestOk(q) && (q.approvalPlanRef.Some? ==> IsHandle(plan, "apl_"))
                  && p.trustClass in {FirstParty, CertifiedThirdParty} && IsHandle(id, "act_"))
            && (r.Ok? ==>
                  && r.value == Action(b, status, "", "", "", "", now)
                  && after.store == world.store.(
                       actions := world.store.actions[Key(p.tenantRef, id) := r.value],
                       byIdem := world.store.byIdem[Key(p.tenantRef, q.idempotencyKey) := id])
                  && after.events == world.events + [
                       Lineage(p, b, "action.requested", None, status,
                               map["capability" := q.capability, "parameter_hash" := q.parameterHash], "", "", "")])
            && (r.Err? ==> after == world)
  {
    hide ValidPrincipal;
    if q.approvalPlanRef.Some? && IsHandle(q.approvalPlanRef.value, "apl_") {
      assert q.approvalPlanRef.value != "";
    }
  }

  // ---------------------------------------------------------------- grants

  /** Whether the caller may have side effects: a first party, or a certified third party that a wired decision
      provider accepts for this operation. */
  predicate MayAct(w: Wiring, p: Principal, b: Binding) {
    || p.trustClass == FirstParty
    || (p.trustClass == CertifiedThirdParty && w.providers.Some? && w.providers.value(p, b.capability, b.parameterHash))
  }

  /** The evidence for the plan is there, neither revoked nor consumed. */
  predicate Fresh(e: Evidence, plan: Key) {
    plan in e.records && plan !in e.revoked && plan !in e.consumed
  }

  function GrantedBy(a: Action, id: string, evidenceRef: string, now: Time): Action {
    a.(status := Granted, grantRef := id, approvalEvidenceRef := evidenceRef, updatedAt := now)
  }

  lemma GrantEffect(w: Wiring, world: World, p: Principal, ref: string, id: string, now: Time)
    requires StoreInv(world.store) && ValidPrincipal(p) && Key(p.tenantRef, ref) in world.store.actions
    ensures var (after, r) := RunOp(w, world, p, GrantOp(ref), id, now);
            var k := Key(p.tenantRef, ref);
            var a, e := world.store.actions[k], world.evidence;
            var b := a.binding;
            var plan := Key(p.tenantRef, b.approvalPlanRef);
            var asks := a.status == AwaitingApproval && MayAct(w, p, b) && w.evidenceWired && Fresh(e, plan);
            var approved := asks && e.records[plan].decision == Approved
                            && e.records[plan].capability == b.capability
                            && e.records[plan].parameterHash == b.parameterHash;
            var evidenceRef := if approved then e.records[plan].approvalRef else "";
            && (r.Ok? <==>
                  && ((a.status == Requested && MayAct(w, p, b)) || approved)
                  && IsHandle(id, "grant_") && w.operationOk(b.businessContextRef, b.capability, b.parameterHash)
                  && !world.outages(world.attempts))
            && (r.Ok? ==>
                  && r.value == GrantedBy(a, id, evidenceRef, now)
                  && after.store == world.store.(
                       actions := world.store.actions[k := r.value],
                       grants := world.store.grants[
                         k := Grant(k.tenant, id, ref, b.businessContextRef, b.capability, b.parameterHash, true, now,
                                    now + 5 * 60 * SECOND, None)])
                  && after.events == world.events + [
                       Lineage(p, b, "action.granted", Some(a.status), Status.Granted, map["grant_ref" := id], id,
                               evidenceRef, a.receiptRef)])
            && (r.Err? ==> after.store == world.store && after.events == world.events)
            && after.evidence == (if asks then e.(consumed := e.consumed + {plan}) else e)
  {
    hide GrantsOk, IdemsOk, RowsOk, ActionsOk, IsHandle, ValidPrincipal;
    ActionAt(world.store, Key(p.tenantRef, ref));
  }

  // ---------------------------------------------------------------- dispatches

  /** A granted action is dispatched exactly if its grant has not expired and the append succeeds: the grant is
      consumed, a pending row of the exact operation is written and the status moves, all in one. */
  lemma DispatchEffect(w: Wiring, world: World, p: Principal, ref: string, id: string, now: Time)
    requires StoreInv(world.store) && ValidPrincipal(p) && Key(p.tenantRef, ref) in world.store.actions
    ensures var (after, r) := RunOp(w, world, p, DispatchOp(ref), id, now);
            var k := Key(p.tenantRef, ref);
            var a := world.store.actions[k];
            var b := a.binding;
            && (a.status == Granted ==> k in world.store.grants)
            && (r.Ok? <==>
                  a.status == Granted && now < world.store.grants[k].expiresAt && !world.outages(world.attempts))
            && (r.Ok? ==>
                  && r.value == a.(status := Dispatched, updatedAt := now)
                  && after.store == world.store.(
                       actions := world.store.actions[k := r.value],
                       grants := world.store.grants[k := world.store.grants[k].(consumedAt := Some(now))],
                       dispatches := world.store.dispatches[
                         Key(k.tenant, id) :=
                           Dispatch(k.tenant, id, ref, b.capability, b.parameterHash, a.grantRef, DispatchExecute, false,
                                    0, now, None, None, "", None)]))
            && (r.Err? ==> after.store == world.store)
            && (a.status != Granted ==>
                  Refused(world, after, r,
                          if a.status in {Dispatched, Executing, ResultUnknown, Reconciling} then BlindRetryForbidden
                          else ForbiddenTransition))
            && (a.status == Granted && !world.outages(world.attempts) ==>
                  after.events == world.events + [
                    Lineage(p, b, "action.dispatched", Some(Granted), Dispatched,
                            map["grant_ref" := a.grantRef, "dispatch_ref" := id], a.grantRef, a.approvalEvidenceRef,
                            a.receiptRef)])
            && after.evidence == world.evidence
  {
    hide GrantsOk, IdemsOk, RowsOk, ActionsOk, ValidPrincipal;
    ActionAt(world.store, Key(p.tenantRef, ref));
  }

  // ---------------------------------------------------------------- completion

  /** What a receipt must be to complete an action: valid, of the exact operation and declared schema, attesting a
      technical result, and confirmed by the wired verifier. */
  predicate Attests(w: Wiring, tenant: string, b: Binding, r: Receipt) {
    && w.receiptOk(r) && w.receipts.Some? && w.receipts.value(tenant, r)
    && r.actionRef == b.actionRef && r.capability == b.capability && r.parameterHash == b.parameterHash
    && r.receiptSchema == b.expectedReceiptSchema && r.status in {Succeeded, Failed}
  }

  /** The receipt's status is the action's, its result id and the receipt itself are kept, and one event is added. */
  ghost predicate Completed(
      world: World, after: World, result: Result<Action, Error>, a: Action, resultId: string, r: Receipt, e: AuditEvent,
      now: Time)
  {
    var k := a.binding.Id();
    && result == Ok(a.(status := r.status, receiptRef := r.receiptRef, updatedAt := now))
    && after.store == world.store.(
         actions := world.store.actions[k := result.value], inbox := world.store.inbox + {Key(k.tenant, resultId)},
         receipts := world.store.receipts[Key(k.tenant, r.receiptRef) := r])
    && after.events == world.events + [e] && after.evidence == world.evidence
  }

  lemma ReceiptEffect(w: Wiring, world: World, p: Principal, resultId: string, r: Receipt, id: string, now: Time)
    requires ActionsOk(world.store) && ValidPrincipal(p) && Key(p.tenantRef, r.actionRef) in world.store.actions
    requires !world.outages(world.attempts)
    ensures var (after, result) := RunOp(w, world, p, IngestReceipt(resultId, r), id, now);
            var k := Key(p.tenantRef, r.actionRef);
            var a, taken := world.store.actions[k], Key(p.tenantRef, resultId) in world.store.inbox;
            var e := Lineage(p, a.binding, "action.completed", Some(a.status), r.status,
                             map["receipt_ref" := r.receiptRef, "result_id" := resultId], a.grantRef,
                             a.approvalEvidenceRef, r.receiptRef);
            if resultId == "" then Refused(world, after, result, InvalidInput)
            else if !Attests(w, p.tenantRef, a.binding, r) then Refused(world, after, result, ReceiptRejected)
            else if a.status in {Dispatched, Executing} then
              if taken then after == world.(events := world.events + [e], attempts := after.attempts) && result == Ok(a)
              else Completed(world, after, result, a, resultId, r, e, now)
            else if a.status in {Succeeded, Failed} && taken then after == world && result == Ok(a)
            else Refused(world, after, result, ForbiddenTransition)
  {
    hide ActionsOk, ValidPrincipal;
    OwnId(world.store, Key(p.tenantRef, r.actionRef));
  }

  lemma ResolutionEffect(
      w: Wiring, world: World, p: Principal, ref: string, outcome: Status, recovered: Option<Receipt>, id: string,
      now: Time)
    requires ActionsOk(world.store) && ValidPrincipal(p) && Key(p.tenantRef, ref) in world.store.actions
    requires !world.outages(world.attempts)
    ensures var (after, result) := RunOp(w, world, p, ResolveReconciliation(ref, outcome, recovered), id, now);
            var a, reason := world.store.actions[Key(p.tenantRef, ref)],
                             "reconciliation determined a failed technical result";
            if outcome !in {Succeeded, Failed} then Refused(world, after, result, InvalidInput)
            else if a.status != Reconciling then Refused(world, after, result, ForbiddenTransition)
            else if outcome == Failed then
              Changed(world, after, result, a.(status := Failed, failureReason := reason, updatedAt := now),
                      Lineage(p, a.binding, "action.reconciled", Some(Reconciling), Failed, map["reason" := reason],
                              a.grantRef, a.approvalEvidenceRef, a.receiptRef))
            else if recovered.None? || !Attests(w, p.tenantRef, a.binding, recovered.value)
                    || recovered.value.status != Succeeded then
              Refused(world, after, result, ReceiptRejected)
            else
              var r, resultId := recovered.value, "reconcile:" + ref;
              var e := Lineage(p, a.binding, "action.reconciled", Some(Reconciling), Succeeded,
                               map["receipt_ref" := r.receiptRef], a.grantRef, a.approvalEvidenceRef, r.receiptRef);
              if Key(p.tenantRef, resultId) in world.store.inbox then
                after == world.(events := world.events + [e], attempts := after.attempts) && result == Ok(a)
              else Completed(world, after, result, a, resultId, r, e, now)
  {
    hide ActionsOk, ValidPrincipal, RunOp;
    OwnId(world.store, Key(p.tenantRef, ref));
    ResolveRuns(w, world, p, ref, outcome, recovered, id, now);
  }

  // ---------------------------------------------------------------- compensation

  lemma CompensatingStarts(w: Wiring, world: World, p: Principal, ref: string, id: string, now: Time)
    requires ValidPrincipal(p)
    requires var k := Key(p.tenantRef, ref);
             && k in world.store.actions && CompensationIdem(world.store.actions[k].binding) !in world.store.byIdem
             && world.store.actions[k].binding.compensationRef != ""
             && world.store.actions[k].status !in {Requested, AwaitingApproval, Granted, HumanTakeover}
    ensures RunOp(w, world, p, Compensate(ref), id, now)
            == RunCompensate(w, world, p, world.store.actions[Key(p.tenantRef, ref)], id, now)
  {
    hide RunCompensate, ValidPrincipal;
  }

  lemma NotCompensable(w: Wiring, world: World, p: Principal, ref: string, id: string, now: Time)
    requires ValidPrincipal(p) && Key(p.tenantRef, ref) in world.store.actions
    ensures var a := world.store.actions[Key(p.tenantRef, ref)];
            var (after, r) := RunOp(w, world, p, Compensate(ref), id, now);
            if a.binding.compensationRef == "" then Refused(world, after, r, CompensationUndeclared)
            else a.status in {Requested, AwaitingApproval, Granted, HumanTakeover} ==>
              Refused(world, after, r, ForbiddenTransition)
  {
    hide RunCompensate, ValidPrincipal;
  }

  lemma FirstHalf(w: Wiring, world: World, p: Principal, o: Action, id: string, now: Time)
    requires !world.outages(world.attempts) && IsHandle(id, "act_")
    requires CompensationIdem(o.binding) !in world.store.byIdem && p.tenantRef == o.binding.tenantRef
    ensures var (mid, r) := RunWish(w, world, p, WantCompensation(o), id, now);
            var b := o.binding;
            var c := Binding(b.tenantRef, id, b.businessContextRef, b.compensationRef, b.parameterHash,
                             "cmp:" + b.actionRef, b.riskAuthority, b.riskLevel, "", "", b.actionRef,
                             b.expectedReceiptSchema, b.expiresAt, |world.events| + 1, now);
            var stored := Action(c, Requested, "", "", "", "", now);
            && r == Ok((stored, true))
            && mid.store.actions == world.store.actions[Key(b.tenantRef, id) := stored]
            && mid.store.byIdem == world.store.byIdem[Key(b.tenantRef, "cmp:" + b.actionRef) := id]
            && mid.events == world.events + [
                 Lineage(p, c.(parameterHash := ""), "action.requested", None, Requested,
                         map["capability" := b.compensationRef, "compensation_of" := b.actionRef], "", "", "")]
            && mid.outages == world.outages && mid.attempts == world.attempts + 1
  {
    hide IsHandle;
  }

  lemma SecondHalf(w: Wiring, mid: World, p: Principal, o: Action, id: string, now: Time)
    requires !mid.outages(mid.attempts) && o.binding.Id() in mid.store.actions && p.tenantRef == o.binding.tenantRef
    requires mid.store.actions[o.binding.Id()] == o
    ensures var (after, r) := RunWish(w, mid, p, CompensatingWish(o, id), id, now);
            && after.events == mid.events + [
                 Lineage(p, o.binding, "action.compensating", Some(o.status), Compensating,
                         map["compensation_ref" := id], o.grantRef, o.approvalEvidenceRef, o.receiptRef)]
            && after.store.byIdem == mid.store.byIdem
            && if o.status in {Dispatched, Executing, ResultUnknown, Succeeded, Failed} then
                 && r.Ok?
                 && after.store.actions
                    == mid.store.actions[o.binding.Id() := o.(status := Compensating, updatedAt := now,
                                                             failureReason := "compensation initiated")]
               else r == Err(ForbiddenTransition) && after.store == mid.store
  {
  }

  /** What a first compensation stores: a new action of the declared compensation, under the original's key, with its
      own governance; nothing of the original's grant, approval or receipt carries over. */
  lemma CompensationEffect(w: Wiring, world: World, p: Principal, ref: string, id: string, now: Time)
    requires StoreInv(world.store) && ValidPrincipal(p)
    requires var k := Key(p.tenantRef, ref);
             k in world.store.actions && CompensationIdem(world.store.actions[k].binding) !in world.store.byIdem
    requires !world.outages(world.attempts) && !world.outages(world.attempts + 1)
    requires IsHandle(id, "act_") && Key(p.tenantRef, id) !in world.store.actions
    ensures var (after, r) := RunOp(w, world, p, Compensate(ref), id, now);
            var k := Key(p.tenantRef, ref);
            var a := world.store.actions[k];
            var b := a.binding;
            var c := Binding(k.tenant, id, b.businessContextRef, b.compensationRef, b.parameterHash, "cmp:" + ref,
                             b.riskAuthority, b.riskLevel, "", "", ref, b.expectedReceiptSchema, b.expiresAt,
                             |world.events| + 1, now);
            var stored := Action(c, Requested, "", "", "", "", now);
            if b.compensationRef == "" then Refused(world, after, r, CompensationUndeclared)
            else if a.status in {Requested, AwaitingApproval, Granted, HumanTakeover} then
              Refused(world, after, r, ForbiddenTransition)
            else if a.status in {Reconciling, Compensating} then
              && r == (if a.status == Compensating then Ok(stored) else Err(ForbiddenTransition))
              && after.store.actions == world.store.actions[Key(k.tenant, id) := stored]
            else
              && r == Ok(stored)
              && after.store.actions
                 == world.store.actions[Key(k.tenant, id) := stored][
                      k := a.(status := Compensating, failureReason := "compensation initiated", updatedAt := now)]
              && after.store.byIdem == world.store.byIdem[Key(k.tenant, "cmp:" + ref) := id]
              && after.events == world.events + [
                   Lineage(p, c.(parameterHash := ""), "action.requested", None, Requested,
                           map["capability" := b.compensationRef, "compensation_of" := ref], "", "", ""),
                   Lineage(p, b, "action.compensating", Some(a.status), Compensating, map["compensation_ref" := id],
                           a.grantRef, a.approvalEvidenceRef, a.receiptRef)]
  {
    hide GrantsOk, IdemsOk, RowsOk, ActionsOk, ValidPrincipal, IsHandle, RunWish, ActionOk, GrantOk, CanTransition;
    var k := Key(p.tenantRef, ref);
    ActionAt(world.store, k);
    OwnId(world.store, k);
    var a := world.store.actions[k];
    if a.binding.compensationRef != "" && a.status !in {Requested, AwaitingApproval, Granted, HumanTakeover} {
      CompensatingStarts(w, world, p, ref, id, now);
      FirstHalf(w, world, p, a, id, now);
      var mid := RunWish(w, world, p, WantCompensation(a), id, now).0;
      SecondHalf(w, mid, p, a, id, now);
    } else {
      NotCompensable(w, world, p, ref, id, now);
    }
  }
}
