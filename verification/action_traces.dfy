/** Which operations leave a trace: failed appends, replays, reused keys, compensations and resolutions. */
module ActionTraces {
  import opened ActionGuarantees
  import opened ActionOps
  import opened ActionSequential
  import opened ActionServices
  import opened ActionState
  import opened ActionStore
  import opened ActionSystem
  import opened ActionTypes
  import opened Wrappers

  // ---------------------------------------------------------------- what leaves no trace

  function EvidenceAfter(w: Wiring, world: World, p: Principal, op: Op): Evidence {
    match Start(w, world.store, p, op)
    case Ok(Continue(WantEvidence(a))) => ConsumeEvidence(world.evidence, Key(p.tenantRef, a.binding.approvalPlanRef)).0
    case _ => world.evidence
  }

  /** Some append of the operation failed. */
  ghost predicate AppendFailed(world: World, after: World) {
    exists n :: world.attempts <= n < after.attempts && world.outages(n)
  }

  lemma OneAppend(w: Wiring, world: World, p: Principal, wish: Wish, id: string, now: Time)
    ensures var (after, r) := RunWish(w, world, p, wish, id, now);
            && after.outages == world.outages && after.evidence == world.evidence
            && world.attempts <= after.attempts <= world.attempts + 1
            && (world.outages(world.attempts) ==> after == world.(attempts := after.attempts) && r.Err?)
            && (world.outages(world.attempts) && after.attempts > world.attempts ==> r == Err(Unavailable))
  {
    hide Prepare, Execute;
  }

  /** A first compensation stores something new, and names it by its id. */
  lemma CompensationStores(w: Wiring, world: World, p: Principal, o: Action, id: string, now: Time)
    requires !world.outages(world.attempts) && IsHandle(id, "act_")
    requires CompensationIdem(o.binding) !in world.store.byIdem
    ensures var (after, r) := RunWish(w, world, p, WantCompensation(o), id, now);
            && r == Ok((NewAction(CompensationBinding(o.binding, id, |world.events| + 1, now)), true))
            && after.store == world.store.(
                 actions := world.store.actions[Key(o.binding.tenantRef, id) := r.value.0],
                 byIdem := world.store.byIdem[CompensationIdem(o.binding) := id])
            && |after.events| == |world.events| + 1 && after.attempts == world.attempts + 1
  {
    hide IsHandle;
  }

  lemma CompensateFailing(w: Wiring, world: World, p: Principal, o: Action, id: string, now: Time)
    requires CompensationIdem(o.binding) !in world.store.byIdem
    requires AppendFailed(world, RunCompensate(w, world, p, o, id, now).0)
    ensures var (after, r) := RunCompensate(w, world, p, o, id, now);
            && r == Err(Unavailable) && after.evidence == world.evidence
            && (after.store == world.store && after.events == world.events <==> world.outages(world.attempts))
  {
    hide Prepare, Execute, IsHandle, RunWish;
    OneAppend(w, world, p, WantCompensation(o), id, now);
    var mid := RunWish(w, world, p, WantCompensation(o), id, now).0;
    OneAppend(w, mid, p, CompensatingWish(o, id), id, now);
    if !world.outages(world.attempts) {
      if IsHandle(id, "act_") {
        CompensationStores(w, world, p, o, id, now);
        assert CompensationIdem(o.binding) in mid.store.byIdem;
      } else {
        NoHandle(w, world, p, o, id, now);
        assert false;
      }
    }
  }

  lemma NoHandle(w: Wiring, world: World, p: Principal, o: Action, id: string, now: Time)
    requires !IsHandle(id, "act_")
    ensures RunCompensate(w, world, p, o, id, now).0 == world
  {
    hide IsHandle;
  }

  lemma EvidenceGrantFailing(w: Wiring, world: World, p: Principal, a: Action, id: string, now: Time)
    requires AppendFailed(world, RunGrantWithEvidence(w, world, p, a, id, now).0)
    ensures var (after, r) := RunGrantWithEvidence(w, world, p, a, id, now);
            && r == Err(Unavailable) && after.store == world.store && after.events == world.events
            && after.evidence == ConsumeEvidence(world.evidence, Key(p.tenantRef, a.binding.approvalPlanRef)).0
  {
    hide ConsumeEvidence, Approves, RunWish;
    var (evidence, r) := ConsumeEvidence(world.evidence, Key(p.tenantRef, a.binding.approvalPlanRef));
    if r.Ok? {
      OneAppend(w, world.(evidence := evidence), p, WantGrant(a, r.value.approvalRef), id, now);
    }
  }

  /** What starting an operation of each kind can lead to. */
  lemma StartsCompensation(w: Wiring, s: Store, p: Principal, op: Op, wish: Wish)
    requires Start(w, s, p, op) == Ok(Continue(wish))
    ensures op.Compensate? <==> wish.WantCompensation?
    ensures wish.WantCompensation? ==> CompensationIdem(wish.original.binding) !in s.byIdem
  {
    hide ReceiptVerdict, ValidPrincipal, RequestValid, CanTransition, Trusted;
  }

  /** An operation one of whose audit appends failed fails closed, and it leaves the store and the log as they were
      unless it is a compensation whose first append succeeded: then the new action and its event are there and only
      the move of the original is missing. Of the evidence it takes what a grant consumed before the append. */
  lemma FailedAppendLeavesNoTrace(w: Wiring, world: World, p: Principal, op: Op, id: string, now: Time)
    requires AppendFailed(world, RunOp(w, world, p, op, id, now).0)
    ensures var (after, r) := RunOp(w, world, p, op, id, now);
            && r == Err(Unavailable)
            && (after.store == world.store && after.events == world.events
                <==> !(op.Compensate? && !world.outages(world.attempts)))
            && after.evidence == EvidenceAfter(w, world, p, op)
  {
    hide Start, RunWish, RunCompensate, RunGrantWithEvidence, ConsumeEvidence;
    if Start(w, world.store, p, op).Ok? && Start(w, world.store, p, op).value.Continue? {
      var wish := Start(w, world.store, p, op).value.wish;
      StartsCompensation(w, world.store, p, op, wish);
      match wish
      case WantEvidence(a) => EvidenceGrantFailing(w, world, p, a, id, now);
      case WantCompensation(o) => CompensateFailing(w, world, p, o, id, now);
      case _ => OneAppend(w, world, p, wish, id, now);
    }
  }

  /** An operation whose first append would fail writes nothing, and succeeds only if it had nothing to write. */
  lemma FailedAuditChangesNothing(w: Wiring, world: World, p: Principal, op: Op, id: string, now: Time)
    requires world.outages(world.attempts)
    ensures var (after, r) := RunOp(w, world, p, op, id, now);
            && after.store == world.store && after.events == world.events
            && (r.Ok? ==> Start(w, world.store, p, op) == Ok(Done(r.value)))
  {
    hide Start, RunWish, ConsumeEvidence, Approves;
    if Start(w, world.store, p, op).Ok? && Start(w, world.store, p, op).value.Continue? {
      var wish := Start(w, world.store, p, op).value.wish;
      match wish
      case WantEvidence(a) =>
        var (evidence, r) := ConsumeEvidence(world.evidence, Key(p.tenantRef, a.binding.approvalPlanRef));
        if r.Ok? {
          OneAppend(w, world.(evidence := evidence), p, WantGrant(a, r.value.approvalRef), id, now);
        }
      case WantCompensation(o) => OneAppend(w, world, p, wish, id, now);
      case _ => OneAppend(w, world, p, wish, id, now);
    }
  }

  /** An approval consumed by a grant whose append failed is gone: as long as its action still waits for it, every
      later grant of that action is refused and changes nothing. */
  lemma ConsumedApprovalIsGone(w: Wiring, later: World, p: Principal, ref: string, id: string, now: Time)
    requires var k := Key(p.tenantRef, ref);
             && k in later.store.actions && later.store.actions[k].status == AwaitingApproval
             && Key(p.tenantRef, later.store.actions[k].binding.approvalPlanRef) in later.evidence.consumed
    ensures var (after, r) := RunOp(w, later, p, GrantOp(ref), id, now); after == later && r.Err?
  {
    hide RunWish, Trusted, ValidPrincipal;
  }

  /** A result that completed its action. */
  ghost predicate ResultLanded(s: Store, k: Key, resultId: string) {
    Key(k.tenant, resultId) in s.inbox && k in s.actions && s.actions[k].status in {Succeeded, Failed}
  }

  /** What a report comes to. */
  lemma IngestRuns(w: Wiring, world: World, p: Principal, resultId: string, r: Receipt, id: string, now: Time)
    ensures RunOp(w, world, p, IngestReceipt(resultId, r), id, now)
            == if !ValidPrincipal(p) || resultId == "" then (world, Err(InvalidInput))
               else match Read(world.store, Key(p.tenantRef, r.actionRef))
                 case Err(e) => (world, Err(e))
                 case Ok(a) =>
                   match ReceiptVerdict(w, p.tenantRef, a.binding, r)
                   case Err(e) => (world, Err(e))
                   case Ok(to) =>
                     if a.status in {Executing, Dispatched} then Plain(Completion(world, p, a, resultId, r, to, now))
                     else if a.status in {Succeeded, Failed} && Key(p.tenantRef, resultId) in world.store.inbox then
                       (world, Ok(a))
                     else (world, Err(ForbiddenTransition))
  {
    hide ReceiptVerdict, IngestResult, Read;
  }

  /** A first completion: audited, then applied unless its result id is taken. */
  function Completion(world: World, p: Principal, a: Action, resultId: string, r: Receipt, to: Status, now: Time)
    : (World, Result<(Action, bool), Error>)
  {
    var tried := world.(attempts := world.attempts + 1);
    if world.outages(world.attempts) then (tried, Err(Unavailable))
    else
      var event := MoveEvent(p, a, "action.completed", to, map["receipt_ref" := r.receiptRef, "result_id" := resultId],
                             a.grantRef, a.approvalEvidenceRef, r.receiptRef);
      var (store, result) := IngestResult(world.store, ConnectorResult(p.tenantRef, resultId, r.actionRef, r), to, now);
      (tried.(store := store, events := world.events + [event]), result)
  }

  lemma IngestLands(w: Wiring, world: World, p: Principal, resultId: string, r: Receipt, id: string, now: Time)
    requires var op := IngestReceipt(resultId, r); RunOp(w, world, p, op, id, now).0.store != world.store
    ensures var (after, result) := RunOp(w, world, p, IngestReceipt(resultId, r), id, now);
            && result.Ok?
            && ResultLanded(after.store, Key(p.tenantRef, r.actionRef), resultId)
            && !ResultLanded(world.store, Key(p.tenantRef, r.actionRef), resultId)
            && |after.events| == |world.events| + 1
  {
    hide CanTransition, RunOp, ReceiptVerdict, ActionOk, MoveEvent;
    IngestRuns(w, world, p, resultId, r, id, now);
    var k := Key(p.tenantRef, r.actionRef);
    if k in world.store.actions && ReceiptVerdict(w, p.tenantRef, world.store.actions[k].binding, r).Ok? {
      VerdictStatus(w, p.tenantRef, world.store.actions[k].binding, r);
    }
  }

  /** Replaying an applied result at any later time, whatever happened in between, changes nothing and audits
      nothing; while the action rests where the result left it, the replay is acknowledged. */
  lemma ReplayIsSilent(
      w: Wiring, s: Store, later: World, p: Principal, resultId: string, r: Receipt, id: string, now: Time)
    requires ResultLanded(s, Key(p.tenantRef, r.actionRef), resultId) && Evolves(s, later.store)
    ensures var (after, result) := RunOp(w, later, p, IngestReceipt(resultId, r), id, now);
            && after == later
            && var a := later.store.actions[Key(p.tenantRef, r.actionRef)];
               result.Ok? <==>
                 && ValidPrincipal(p) && resultId != "" && ReceiptVerdict(w, p.tenantRef, a.binding, r).Ok?
                 && a.status in {Succeeded, Failed}
  {
    hide ReceiptVerdict;
    var k := Key(p.tenantRef, r.actionRef);
    assert ActionEvolves(s.actions[k], later.store.actions[k]);
  }

  /** Result ids are deduplicated per tenant, not per action: a verified receipt for an action in flight under the
      id of another action's result is audited as a completion, and reported as success, but completes nothing. */
  lemma SharedResultIdCompletesNothing(
      w: Wiring, world: World, p: Principal, resultId: string, r: Receipt, id: string, now: Time)
    requires var k := Key(p.tenantRef, r.actionRef);
             && k in world.store.actions && world.store.actions[k].status in {Executing, Dispatched}
             && ReceiptVerdict(w, p.tenantRef, world.store.actions[k].binding, r).Ok?
    requires ValidPrincipal(p) && resultId != "" && !world.outages(world.attempts)
    ensures var (after, result) := RunOp(w, world, p, IngestReceipt(resultId, r), id, now);
            && (after.store == world.store <==> Key(p.tenantRef, resultId) in world.store.inbox)
            && |after.events| == |world.events| + 1
            && result == Ok(after.store.actions[Key(p.tenantRef, r.actionRef)])
  {
    hide ReceiptVerdict, RunOp, MoveEvent;
    IngestRuns(w, world, p, resultId, r, id, now);
    var k := Key(p.tenantRef, r.actionRef);
    VerdictStatus(w, p.tenantRef, world.store.actions[k].binding, r);
  }

  lemma VerdictStatus(w: Wiring, tenant: string, b: Binding, r: Receipt)
    requires ReceiptVerdict(w, tenant, b, r).Ok?
    ensures ReceiptVerdict(w, tenant, b, r).value in {Succeeded, Failed}
  {
  }

  /** A key reused for another operation is refused without a trace; for the same one the action comes back. */
  lemma ReusedKeyIsSilent(w: Wiring, world: World, p: Principal, request: ActionRequest, id: string, now: Time)
    requires Key(p.tenantRef, request.idempotencyKey) in world.store.byIdem
    requires IdemsOk(world.store)
    ensures var (after, r) := RunOp(w, world, p, RequestAction(request), id, now);
            && after == world
            && var k := Key(p.tenantRef, world.store.byIdem[Key(p.tenantRef, request.idempotencyKey)]);
               && k in world.store.actions
               && var b := world.store.actions[k].binding;
                  r.Ok? ==> r.value == world.store.actions[k] && b.capability == request.capability
                            && b.parameterHash == request.parameterHash
                            && b.businessContextRef == request.businessContextRef
  {
    var idem := Key(p.tenantRef, request.idempotencyKey);
    assert IdemOk(world.store, idem);
  }

  /** Two requests under one key that both found it free, by any principals of the tenant and with anything running
      in between: whichever is stored second comes back with the first one's action if it asks for the same
      operation, and is refused otherwise; it changes nothing. */
  lemma RacingDuplicates(
      w: Wiring, s: Store, p: Principal, first: ActionRequest, one: string, n: nat, u: Store, q: Principal,
      second: ActionRequest, two: string, m: nat, now: Time, later: Time)
    requires Start(w, s, p, RequestAction(first)) == Ok(Continue(WantPut(first)))
    requires IsHandle(one, "act_") && IsHandle(two, "act_")
    requires p.tenantRef == q.tenantRef && first.idempotencyKey == second.idempotencyKey
    requires Evolves(Execute(s, PreparePut(p, first, one, n, now).command, now).0, u)
    ensures Prepare(w, p, WantPut(first), one, n, now) == Ok(PreparePut(p, first, one, n, now))
    ensures Prepare(w, q, WantPut(second), two, m, later) == Ok(PreparePut(q, second, two, m, later))
    ensures var (t, r) := Execute(s, PreparePut(p, first, one, n, now).command, now);
            && r.Ok? && r.value.1 && r.value.0.binding.actionRef == one
            && Key(p.tenantRef, one) in u.actions && u.actions[Key(p.tenantRef, one)].binding == r.value.0.binding
            && Execute(u, PreparePut(q, second, two, m, later).command, later)
               == (u, if first.capability == second.capability && first.parameterHash == second.parameterHash
                         && first.businessContextRef == second.businessContextRef
                      then Ok((u.actions[Key(p.tenantRef, one)], false)) else Err(IdempotencyConflict))
  {
    hide IsHandleChar, IsHandle, RequestValid, ValidPrincipal;
    var t, k := Execute(s, PreparePut(p, first, one, n, now).command, now).0, Key(p.tenantRef, one);
    assert k in t.actions && t.byIdem[Key(p.tenantRef, first.idempotencyKey)] == one;
    BindingStable(t, u, k);
  }

  // ---------------------------------------------------------------- compensation

  /** A first compensation: without its first append nothing happens; with it the new action is stored, and the
      original moves exactly when the table has the edge and the second append succeeds too. Otherwise the operation
      reports an error with the new action left behind. */
  lemma FirstCompensation(w: Wiring, world: World, p: Principal, ref: string, id: string, now: Time)
    requires StoreInv(world.store) && ValidPrincipal(p)
    requires var k := Key(p.tenantRef, ref);
             && k in world.store.actions && Compensable(world.store.actions[k].status)
             && world.store.actions[k].binding.compensationRef != ""
             && CompensationIdem(world.store.actions[k].binding) !in world.store.byIdem
    requires IsHandle(id, "act_") && Key(p.tenantRef, id) !in world.store.actions
    ensures var (after, r) := RunOp(w, world, p, Compensate(ref), id, now);
            var k, comp := Key(p.tenantRef, ref), Key(p.tenantRef, id);
            var was := world.store.actions[k];
            if world.outages(world.attempts) then
              r == Err(Unavailable) && after == world.(attempts := world.attempts + 1)
            else
              var moved := was.status != Reconciling && !world.outages(world.attempts + 1);
              && k in after.store.actions && comp in after.store.actions
              && after.store.actions[k].binding == was.binding
              && after.store.actions[comp].status == Requested
              && after.store.actions[comp].binding.compensationOf == ref
              && after.store.actions[comp].binding.capability == was.binding.compensationRef
              && CompensationIdem(was.binding) in after.store.byIdem
              && after.store.byIdem[CompensationIdem(was.binding)] == id
              && after.store.actions[k].status == (if moved then Compensating else was.status)
              && (r.Ok? <==> moved) && (r.Ok? ==> r.value == after.store.actions[comp])
              && |after.events| == |world.events| + (if world.outages(world.attempts + 1) then 1 else 2)
  {
    hide GrantsOk, IdemsOk, RowsOk, IsHandle, IsHandleChar, ActionsOk, CanTransition, RunWish, ActionOk, GrantOk;
    var k := Key(p.tenantRef, ref);
    var was := world.store.actions[k];
    ActionAt(world.store, k);
    StoredId(world.store, k);
    CompensateStarts(w, world, p, ref, id, now);
    OneAppend(w, world, p, WantCompensation(was), id, now);
    if !world.outages(world.attempts) {
      CompensationStores(w, world, p, was, id, now);
      var mid := RunWish(w, world, p, WantCompensation(was), id, now).0;
      CompensableAgainstTable(was.status);
      MovesOriginal(w, mid, p, was, id, now);
    } else {
      FirstAppendFails(w, world, p, was, id, now);
    }
  }

  lemma CompensateStarts(w: Wiring, world: World, p: Principal, ref: string, id: string, now: Time)
    requires ValidPrincipal(p)
    requires var k := Key(p.tenantRef, ref);
             && k in world.store.actions && Compensable(world.store.actions[k].status)
             && world.store.actions[k].binding.compensationRef != ""
             && CompensationIdem(world.store.actions[k].binding) !in world.store.byIdem
    ensures RunOp(w, world, p, Compensate(ref), id, now)
            == RunCompensate(w, world, p, world.store.actions[Key(p.tenantRef, ref)], id, now)
  {
    hide RunCompensate, ValidPrincipal;
  }

  lemma FirstAppendFails(w: Wiring, world: World, p: Principal, o: Action, id: string, now: Time)
    requires world.outages(world.attempts) && IsHandle(id, "act_")
    ensures RunWish(w, world, p, WantCompensation(o), id, now)
            == (world.(attempts := world.attempts + 1), Err(Unavailable))
  {
    hide IsHandle;
  }

  /** The second half of a compensation. */
  lemma MovesOriginal(w: Wiring, world: World, p: Principal, o: Action, id: string, now: Time)
    requires o.binding.Id() in world.store.actions && world.store.actions[o.binding.Id()] == o
    ensures var (after, r) := RunWish(w, world, p, CompensatingWish(o, id), id, now);
            var moved := CanTransition(o.status, Compensating) && !world.outages(world.attempts);
            && after.store.actions.Keys == world.store.actions.Keys && after.store.byIdem == world.store.byIdem
            && (forall j :: j in world.store.actions && j != o.binding.Id() ==>
                  after.store.actions[j] == world.store.actions[j])
            && after.store.actions[o.binding.Id()].status == (if moved then Compensating else o.status)
            && after.store.actions[o.binding.Id()].binding == o.binding
            && (r.Ok? <==> moved)
            && |after.events| == |world.events| + (if world.outages(world.attempts) then 0 else 1)
  {
    hide CanTransition;
  }

  /** Asking again returns the same compensation and changes nothing. */
  lemma CompensationIsIdempotent(w: Wiring, world: World, p: Principal, ref: string, id: string, now: Time)
    requires StoreInv(world.store) && Key(p.tenantRef, ref) in world.store.actions
    requires CompensationIdem(world.store.actions[Key(p.tenantRef, ref)].binding) in world.store.byIdem
    ensures var (after, r) := RunOp(w, world, p, Compensate(ref), id, now);
            && after == world
            && (r.Ok? ==> r.value.binding.IdemKey() == Key(p.tenantRef, "cmp:" + ref)
                          && r.value.binding.Id() in world.store.actions)
  {
    hide GrantsOk, RowsOk, ActionsOk;
    var k := Key(p.tenantRef, ref);
    ActionAt(world.store, k);
    var idem := CompensationIdem(world.store.actions[k].binding);
    assert IdemOk(world.store, idem);
    ActionAt(world.store, Key(idem.tenant, world.store.byIdem[idem]));
  }

  /** So an original that its first compensation did not move is never moved by asking again: every later attempt, by
      any principal of the tenant, returns what is stored, whatever ran in between. */
  lemma StrandedOriginal(
      w: Wiring, world: World, p: Principal, ref: string, id: string, now: Time, later: World, q: Principal,
      other: string, at: Time)
    requires StoreInv(world.store) && ValidPrincipal(p) && !world.outages(world.attempts)
    requires var k := Key(p.tenantRef, ref);
             && k in world.store.actions && Compensable(world.store.actions[k].status)
             && world.store.actions[k].binding.compensationRef != ""
             && CompensationIdem(world.store.actions[k].binding) !in world.store.byIdem
    requires IsHandle(id, "act_") && Key(p.tenantRef, id) !in world.store.actions && q.tenantRef == p.tenantRef
    requires StoreInv(later.store) && Evolves(RunOp(w, world, p, Compensate(ref), id, now).0.store, later.store)
    ensures RunOp(w, later, q, Compensate(ref), other, at).0 == later
  {
    hide StoreInv, RunOp, IsHandle, ValidPrincipal, Compensable;
    var k := Key(p.tenantRef, ref);
    FirstCompensation(w, world, p, ref, id, now);
    BindingStable(RunOp(w, world, p, Compensate(ref), id, now).0.store, later.store, k);
    CompensationIsIdempotent(w, later, q, ref, other, at);
  }

  /** Compensable does not mean dispatched: an action cancelled while only requested can be compensated. */
  lemma CancelledActionsAreCompensable(w: Wiring, world: World, p: Principal, ref: string, id: string, now: Time)
    requires StoreInv(world.store) && !world.outages(world.attempts) && ValidPrincipal(p)
    requires Key(p.tenantRef, ref) in world.store.actions
    requires world.store.actions[Key(p.tenantRef, ref)].status in {Requested, AwaitingApproval, Granted}
    ensures var (after, r) := RunOp(w, world, p, Cancel(ref), id, now);
            && r.Ok? && r.value.status == Failed && Compensable(r.value.status)
            && !HasRow(after.store, Key(p.tenantRef, ref))
  {
    hide GrantsOk, IdemsOk, ActionsOk, RowsOk, CanTransition;
    var k := Key(p.tenantRef, ref);
    ActionAt(world.store, k);
    assert CanTransition(world.store.actions[k].status, Failed) by { CanFail(world.store.actions[k].status); }
    NoRowBeforeDispatch(world.store, k);
  }

  lemma CanFail(s: Status)
    requires s in {Requested, AwaitingApproval, Granted}
    ensures CanTransition(s, Failed)
  {
  }

  // ---------------------------------------------------------------- resolution

  /** When its append succeeds, a resolution leaves a reconciling action succeeded exactly when a recovered receipt was
      given that attests success and verifies, and the resolution's own result id is still free in the tenant; without
      the last the resolution is audited and reported as done but resolves nothing. A failed resolution always fails
      the action. */
  lemma ResolutionCompletes(
      w: Wiring, world: World, p: Principal, ref: string, outcome: Status, recovered: Option<Receipt>, id: string,
      now: Time)
    requires var k := Key(p.tenantRef, ref);
             && StoreInv(world.store) && k in world.store.actions && world.store.actions[k].status == Reconciling
    requires ValidPrincipal(p) && !world.outages(world.attempts)
    ensures var op := ResolveReconciliation(ref, outcome, recovered);
            var (after, r) := RunOp(w, world, p, op, id, now);
            var k := Key(p.tenantRef, ref);
            && k in after.store.actions
            && var verified := recovered.Some?
                               && ReceiptVerdict(w, p.tenantRef, world.store.actions[k].binding, recovered.value)
                                  == Ok(Succeeded);
               && (outcome == Failed ==> r.Ok? && after.store.actions[k].status == Failed)
               && (outcome == Succeeded ==>
                     && (r.Ok? <==> verified)
                     && after.store.actions[k].status
                        == (if verified && Key(p.tenantRef, "reconcile:" + ref) !in world.store.inbox
                            then Succeeded else Reconciling)
                     && |after.events| == |world.events| + (if verified then 1 else 0))
               && (outcome !in {Succeeded, Failed} ==> after == world && r.Err?)
  {
    hide ReceiptVerdict, RunOp, RunWish, GrantsOk, IdemsOk, RowsOk, ActionsOk, ActionOk, GrantOk;
    var k := Key(p.tenantRef, ref);
    var a := world.store.actions[k];
    ActionAt(world.store, k);
    StoredId(world.store, k);
    ResolveRuns(w, world, p, ref, outcome, recovered, id, now);
    if outcome == Failed {
      FailsReconciling(w, world, p, a, id, now);
    } else if outcome == Succeeded && recovered.Some? {
      SucceedsReconciling(w, world, p, a, ref, recovered.value, id, now);
    }
  }

  lemma FailsReconciling(w: Wiring, world: World, p: Principal, a: Action, id: string, now: Time)
    requires a.status == Reconciling && a.binding.Id() in world.store.actions && !world.outages(world.attempts)
    requires world.store.actions[a.binding.Id()] == a
    ensures var (after, r) := Advanced(w, world, p, a, Failed, "action.reconciled",
                                       "reconciliation determined a failed technical result", id, now);
            && r.Ok? && a.binding.Id() in after.store.actions && after.store.actions[a.binding.Id()].status == Failed
  {
  }

  lemma SucceedsReconciling(
      w: Wiring, world: World, p: Principal, a: Action, ref: string, receipt: Receipt, id: string, now: Time)
    requires a.status == Reconciling && a.binding.Id() == Key(p.tenantRef, ref) && !world.outages(world.attempts)
    requires a.binding.Id() in world.store.actions && world.store.actions[a.binding.Id()] == a
    ensures var wish := WantIngest(a, ConnectorResult(p.tenantRef, "reconcile:" + ref, ref, receipt), Succeeded,
                                   "action.reconciled", map["receipt_ref" := receipt.receiptRef]);
            var (after, r) := RunWish(w, world, p, wish, id, now);
            && r.Ok? && a.binding.Id() in after.store.actions && |after.events| == |world.events| + 1
            && after.store.actions[a.binding.Id()].status
               == (if Key(p.tenantRef, "reconcile:" + ref) in world.store.inbox then Reconciling else Succeeded)
  {
    hide MoveEvent;
  }
}
