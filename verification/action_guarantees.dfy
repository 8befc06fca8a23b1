/** What holds in every state any interleaving of operations, claimers and crashes can reach. */
module ActionGuarantees {
  import opened ActionOps
  import opened ActionOutbox
  import opened ActionState
  import opened ActionStore
  import opened ActionSystem
  import opened ActionTypes
  import opened Wrappers

  // ---------------------------------------------------------------- the invariant holds in every run

  lemma InitialInv(w: Wiring)
    ensures Inv(w, INITIAL)
  {
  }

  lemma NextKeeps(w: Wiring, s: System, step: Step)
    requires Inv(w, s)
    ensures Inv(w, Next(w, s, step))
  {
    hide Inv, StartThread, Consume, Audit, RunCommand, Acquire, Deliver, Stamp, Release, Crash;
    match step
    case StartStep(t, p, op) => StartKeeps(w, s, t, p, op);
    case ConsumeStep(t) => ConsumeKeeps(w, s, t);
    case AuditStep(t, id, now) => AuditKeeps(w, s, t, id, now);
    case CommandStep(t, at) => CommandKeeps(w, s, t, at);
    case AbortStep(t) => DropKeeps(w, s, t);
    case SeedStep(tenant, record) =>
      EvidenceKeeps(w, s, s.evidence.(records := s.evidence.records[Key(tenant, record.planRef) := record]));
    case RevokeStep(plan) => EvidenceKeeps(w, s, s.evidence.(revoked := s.evidence.revoked + {plan}));
    case AcquireStep(c, row, at, eligibleOnly) => AcquireStepKeeps(w, s, c, row, at, eligibleOnly);
    case DeliverStep(c, failure, now) => DeliverKeeps(w, s, c, failure, now);
    case StampStep(c, at) => StampKeeps(w, s, c, at);
    case ReleaseStep(c) => ReleaseStepKeeps(w, s, c);
    case CrashStep(c) => CrashKeeps(w, s, c);
  }

  lemma {:induction false} RunKeeps(w: Wiring, s: System, steps: seq<Step>)
    requires Inv(w, s)
    ensures Inv(w, Run(w, s, steps))
    decreases |steps|
  {
    hide Inv, Next;
    if steps != [] {
      NextKeeps(w, s, steps[0]);
      RunKeeps(w, Next(w, s, steps[0]), steps[1..]);
    }
  }

  lemma ReachableInv(w: Wiring, steps: seq<Step>)
    ensures Inv(w, Run(w, INITIAL, steps))
  {
    hide Inv, Run;
    InitialInv(w);
    RunKeeps(w, INITIAL, steps);
  }

  // ---------------------------------------------------------------- what no later step can undo

  /** Bindings, consumed grants, final rows, idempotency keys, messages, changes, receipts and consumed
      approvals are for ever; statuses climb. */
  ghost predicate Later(s: System, u: System) {
    && Evolves(s.store, u.store)
    && s.events <= u.events && s.published <= u.published
    && Grows(s.log.consumedFor, u.log.consumedFor) && Grows(s.log.completedBy, u.log.completedBy)
    && (forall k :: k in s.log.history ==> k in u.log.history && s.log.history[k] <= u.log.history[k])
  }

  lemma LaterTransitive(s: System, t: System, u: System)
    requires Later(s, t) && Later(t, u)
    ensures Later(s, u)
  {
    hide Evolves;
    EvolvesTransitive(s.store, t.store, u.store);
  }

  lemma CommandIsLater(w: Wiring, s: System, t: nat, at: Time)
    requires Inv(w, s)
    ensures Later(s, RunCommand(s, t, at))
  {
    hide Execute, CommandOk, CommandEvent, Evolves, ThreadsOk, MintedOk, HistoryOk, OneChangePerEvent, OutboxOk;
    hide ApprovalsOk, ReceiptsOk, ActionsOk, GrantsOk, IdemsOk, RowsOk, SnapOk, CanTransition, ActionOk, Announces;
    EvolvesReflexive(s.store);
    if t in s.threads && s.threads[t].stage.Ready? {
      var Ready(c, audit, original) := s.threads[t].stage;
      var r := Execute(s.store, c, at).1;
      ReadyThread(w, s, t);
      CommandKeepsStore(w, s.store, s.log, t, c, at);
      if r.Ok? && r.value.1 {
        ActionAt(s.store, Target(c));
        CommandEffect(w, s.store, s.log, t, c, at, s.events[audit]);
        CommandGuards(w, s.store, s.log, t, c);
        if c.IngestCommand? {
          assert Target(c) !in s.log.completedBy by { NotYetCompleted(w, s, c); }
        }
      }
    }
  }

  lemma NotYetCompleted(w: Wiring, s: System, c: Command)
    requires ReceiptsOk(w, s.store, s.log) && c.IngestCommand? && Target(c) in s.store.actions
    requires ReceiptBinds(w, c.result, s.store.actions[Target(c)].binding, c.to)
    requires CanTransition(s.store.actions[Target(c)].status, Goal(c))
    ensures Target(c) !in s.log.completedBy
  {
    VerdictIsTerminal(w, s.store.actions[Target(c)].binding, c.result, c.to);
    TerminalRank(c.to);
    EdgesIntoSideEffects(s.store.actions[Target(c)].status, Goal(c));
  }

  lemma ConsumeIsLater(s: System, t: nat)
    requires ApprovalsOk(s)
    ensures Later(s, Consume(s, t))
  {
    hide Evolves, Approves, ApprovedFor, ConsumeEvidence;
    EvolvesReflexive(s.store);
    if t in s.threads && s.threads[t].stage.Wishing? && s.threads[t].stage.wish.WantEvidence? {
      var b := s.threads[t].stage.wish.action.binding;
      ConsumedIsNew(s.evidence, Key(b.tenantRef, b.approvalPlanRef));
    }
  }

  lemma ConsumedIsNew(e: Evidence, plan: Key)
    ensures ConsumeEvidence(e, plan).1.Ok? ==> plan !in e.consumed
  {
  }

  lemma ClaimerIsLater(w: Wiring, s: System, step: Step)
    requires Inv(w, s) && (step.AcquireStep? || step.DeliverStep? || step.StampStep? || step.ReleaseStep? || step.CrashStep?)
    ensures Later(s, Next(w, s, step))
  {
    hide StoreInv, ThreadsOk, MintedOk, HistoryOk, OneChangePerEvent, ReceiptsOk, ApprovalsOk, OutboxOk, Evolves, Outcome;
    hide OutcomeFits, RecordOutcome;
    EvolvesReflexive(s.store);
    match step
    case AcquireStep(c, row, at, eligibleOnly) => AcquireKeeps(s.store, row, at, eligibleOnly);
    case DeliverStep(c, failure, now) =>
    case StampStep(c, at) =>
      if Stamp(s, c, at) != s {
        ClaimAt(s, c);
        assert OutcomeFits(s.claims[c].seen, s.claims[c].phase.outcome);
        RecordKeeps(s.store, s.claims[c].row, s.claims[c].phase.outcome, at);
      }
    case ReleaseStep(c) => if c in s.claims { ReleaseKeeps(s.store, s.claims[c].row); }
    case CrashStep(c) => if c in s.claims { ReleaseKeeps(s.store, s.claims[c].row); }
  }

  lemma NextIsLater(w: Wiring, s: System, step: Step)
    requires Inv(w, s)
    ensures Later(s, Next(w, s, step))
  {
    hide StoreInv, ThreadsOk, MintedOk, HistoryOk, OneChangePerEvent, ReceiptsOk, ApprovalsOk, OutboxOk, Evolves;
    hide Start, Prepare, Consume, RunCommand, Acquire, Deliver, Stamp, Release, Crash;
    EvolvesReflexive(s.store);
    match step
    case ConsumeStep(t) => ConsumeIsLater(s, t);
    case CommandStep(t, at) => CommandIsLater(w, s, t, at);
    case StartStep(_, _, _) =>
    case AuditStep(_, _, _) =>
    case AbortStep(_) =>
    case SeedStep(_, _) =>
    case RevokeStep(_) =>
    case _ => ClaimerIsLater(w, s, step);
  }

  lemma {:induction false} RunIsLater(w: Wiring, s: System, steps: seq<Step>)
    requires Inv(w, s)
    ensures Later(s, Run(w, s, steps))
    decreases |steps|
  {
    hide Inv, Next, Later;
    if steps == [] {
      SelfLater(s);
    } else {
      var next := Next(w, s, steps[0]);
      NextKeeps(w, s, steps[0]);
      NextIsLater(w, s, steps[0]);
      RunIsLater(w, next, steps[1..]);
      LaterTransitive(s, next, Run(w, next, steps[1..]));
    }
  }

  lemma SelfLater(s: System)
    ensures Later(s, s)
  {
    EvolvesReflexive(s.store);
  }

  // ---------------------------------------------------------------- the action, grant and outbox maps agree

  lemma MapsAgree(w: Wiring, steps: seq<Step>, k: Key)
    requires k in Run(w, INITIAL, steps).store.actions
    ensures var s := Run(w, INITIAL, steps).store;
            && s.actions[k].binding.Id() == k
            && (s.actions[k].status == Granted ==> k in s.grants && s.grants[k].consumedAt == None)
            && (Spent(s, k) <==> exists d :: RowFor(s, d, k))
            && (forall d, e :: RowFor(s, d, k) && RowFor(s, e, k) ==> d == e)
            && (s.actions[k].receiptRef != "" || PastDispatch(s.actions[k].status) ==> HasRow(s, k))
  {
    hide Run, ThreadsOk, HistoryOk, OneChangePerEvent, ReceiptsOk, ApprovalsOk, OutboxOk, StoreInv;
    ReachableInv(w, steps);
    ConsumedMeansOneRow(Run(w, INITIAL, steps).store, k);
    ActionAt(Run(w, INITIAL, steps).store, k);
  }

  /** When a compensable action was dispatched: always, except that one which failed was dispatched exactly if its
      grant was consumed. So of the statuses the source calls ones where a side effect may have executed, only
      failed leaves it open. */
  lemma CompensableWasDispatched(w: Wiring, steps: seq<Step>, k: Key)
    requires k in Run(w, INITIAL, steps).store.actions
    requires Compensable(Run(w, INITIAL, steps).store.actions[k].status)
    ensures var s := Run(w, INITIAL, steps).store; HasRow(s, k) <==> s.actions[k].status != Failed || Spent(s, k)
  {
    hide Run;
    MapsAgree(w, steps, k);
  }

  /** Whatever runs in between: the binding of an action never changes, its status only climbs (so it never
      returns to granted), its grant and its approval stay what they were, and a final row stays as it is. */
  lemma NothingIsUndone(w: Wiring, steps: seq<Step>, more: seq<Step>, k: Key)
    requires k in Run(w, INITIAL, steps).store.actions
    ensures var s, u := Run(w, INITIAL, steps).store, Run(w, Run(w, INITIAL, steps), more).store;
            && k in u.actions && u.actions[k].binding == s.actions[k].binding
            && (u.actions[k].status == s.actions[k].status || Rank(u.actions[k].status) > Rank(s.actions[k].status))
            && (Spent(s, k) ==> k in u.grants && u.grants[k] == s.grants[k])
            && (forall d :: d in s.dispatches ==>
                  && d in u.dispatches && MessageOf(u.dispatches[d]) == MessageOf(s.dispatches[d])
                  && (Final(s.dispatches[d]) ==> u.dispatches[d] == s.dispatches[d]))
  {
    hide Run, Inv;
    var s := Run(w, INITIAL, steps);
    var u := Run(w, s, more);
    ReachableInv(w, steps);
    RunIsLater(w, s, more);
    assert ActionEvolves(s.store.actions[k], u.store.actions[k]);
    if Spent(s.store, k) {
      assert GrantEvolves(s.store.grants[k], u.store.grants[k]);
    }
    forall d | d in s.store.dispatches
      ensures d in u.store.dispatches && RowEvolves(s.store.dispatches[d], u.store.dispatches[d])
    {
    }
  }

  // ---------------------------------------------------------------- what is delivered

  /** All messages ever published for one action are identical and carry that action's consumed grant. */
  lemma OneMessagePerAction(w: Wiring, steps: seq<Step>, m: DispatchMessage)
    requires m in Run(w, INITIAL, steps).published
    ensures var s, k := Run(w, INITIAL, steps), Key(m.tenantRef, m.actionRef);
            && Spent(s.store, k) && m.grantRef == s.store.grants[k].grantRef
            && k in s.store.actions && m.capability == s.store.actions[k].binding.capability
            && m.parameterHash == s.store.actions[k].binding.parameterHash
            && RowFor(s.store, Key(m.tenantRef, m.dispatchRef), k)
            && (forall n :: n in s.published && Key(n.tenantRef, n.actionRef) == k ==> n == m)
  {
    hide Run, ThreadsOk, MintedOk, HistoryOk, OneChangePerEvent, ReceiptsOk, ApprovalsOk, ClaimsOk, DeliveriesOk;
    hide ActionsOk, GrantsOk, IdemsOk, StoreInv, RowBinds;
    var s, k := Run(w, INITIAL, steps), Key(m.tenantRef, m.actionRef);
    ReachableInv(w, steps);
    RowOfMessage(s, m);
    forall n | n in s.published && Key(n.tenantRef, n.actionRef) == k
      ensures n == m
    {
      RowOfMessage(s, n);
      SameRow(s.store, Key(m.tenantRef, m.dispatchRef), Key(n.tenantRef, n.dispatchRef), k);
    }
  }

  lemma SameRow(s: Store, d: Key, e: Key, k: Key)
    requires StoreInv(s) && RowFor(s, d, k) && RowFor(s, e, k)
    ensures d == e
  {
  }

  lemma RowOfMessage(s: System, m: DispatchMessage)
    requires StoreInv(s.store) && MessagesOk(s.store, s.published) && m in s.published
    ensures var d, k := Key(m.tenantRef, m.dispatchRef), Key(m.tenantRef, m.actionRef);
            && RowFor(s.store, d, k) && MessageOf(s.store.dispatches[d]) == m
            && Spent(s.store, k) && m.grantRef == s.store.grants[k].grantRef
            && k in s.store.actions && m.capability == s.store.actions[k].binding.capability
            && m.parameterHash == s.store.actions[k].binding.parameterHash
  {
    hide ActionsOk, GrantsOk, IdemsOk;
    assert RowOk(s.store, Key(m.tenantRef, m.dispatchRef));
  }

  /** How often a row's message was published: once if it is stamped published, once more while a claimer still
      has to stamp a success, and once for every success whose claimer crashed first. */
  lemma PublishesAreAccounted(w: Wiring, steps: seq<Step>, d: Key)
    requires d in Run(w, INITIAL, steps).store.dispatches
    ensures var s := Run(w, INITIAL, steps);
            multiset(s.published)[MessageOf(s.store.dispatches[d])]
            == (if s.store.dispatches[d].published then 1 else 0) + (if InDoubt(s.claims, d) then 1 else 0)
               + s.log.lost[d]
  {
    hide Run, StoreInv, ThreadsOk, MintedOk, HistoryOk, OneChangePerEvent, ReceiptsOk, ApprovalsOk, ClaimsOk;
    hide MessagesOk, InDoubt, MessageOf;
    ReachableInv(w, steps);
  }

  predicate NoCrash(steps: seq<Step>) {
    forall step :: step in steps ==> !step.CrashStep?
  }

  lemma {:induction false} NothingLost(w: Wiring, s: System, steps: seq<Step>)
    requires NoCrash(steps) && s.log.lost == multiset{}
    ensures Run(w, s, steps).log.lost == multiset{}
    decreases |steps|
  {
    if steps != [] {
      NothingLostNow(w, s, steps[0]);
      NothingLost(w, Next(w, s, steps[0]), steps[1..]);
    }
  }

  lemma NothingLostNow(w: Wiring, s: System, step: Step)
    requires !step.CrashStep? && s.log.lost == multiset{}
    ensures Next(w, s, step).log.lost == multiset{}
  {
    hide StartThread, Consume, Audit, RunCommand, Acquire, Deliver, Stamp, Release;
    OperationsLoseNothing(w, s, step);
    ClaimersLoseNothing(w, s, step);
  }

  lemma OperationsLoseNothing(w: Wiring, s: System, step: Step)
    ensures step.StartStep? || step.ConsumeStep? || step.AuditStep? || step.CommandStep? ==>
              Next(w, s, step).log.lost == s.log.lost
  {
    hide Start, Prepare, Execute, ConsumeEvidence, Approves, Past;
  }

  lemma ClaimersLoseNothing(w: Wiring, s: System, step: Step)
    ensures step.AcquireStep? || step.DeliverStep? || step.StampStep? || step.ReleaseStep? ==>
              Next(w, s, step).log.lost == s.log.lost
  {
    hide AcquireDispatch, RecordOutcome, ReleaseDispatch, Outcome;
  }

  /** Without crashes no action is ever published twice. */
  lemma AtMostOncePerAction(w: Wiring, steps: seq<Step>)
    requires NoCrash(steps)
    ensures var p := Run(w, INITIAL, steps).published;
            forall i, j :: 0 <= i < j < |p| ==>
              Key(p[i].tenantRef, p[i].actionRef) != Key(p[j].tenantRef, p[j].actionRef)
  {
    hide Run, Inv, InDoubt, MessageOf;
    var s := Run(w, INITIAL, steps);
    NothingLost(w, INITIAL, steps);
    forall i, j | 0 <= i < j < |s.published|
      ensures Key(s.published[i].tenantRef, s.published[i].actionRef)
              != Key(s.published[j].tenantRef, s.published[j].actionRef)
    {
      if Key(s.published[i].tenantRef, s.published[i].actionRef)
         == Key(s.published[j].tenantRef, s.published[j].actionRef) {
        OneMessagePerAction(w, steps, s.published[i]);
        assert s.published[j] == s.published[i];
        Twice(s.published, i, j);
        AtMostOncePerRow(w, steps, Key(s.published[i].tenantRef, s.published[i].dispatchRef));
        PublishedRow(w, steps, s.published[i]);
        assert false;
      }
    }
  }

  lemma PublishedRow(w: Wiring, steps: seq<Step>, m: DispatchMessage)
    requires m in Run(w, INITIAL, steps).published
    ensures var s, d := Run(w, INITIAL, steps), Key(m.tenantRef, m.dispatchRef);
            d in s.store.dispatches && MessageOf(s.store.dispatches[d]) == m
  {
    hide Run, StoreInv, ThreadsOk, MintedOk, HistoryOk, OneChangePerEvent, ReceiptsOk, ApprovalsOk, ClaimsOk, DeliveriesOk;
    ReachableInv(w, steps);
    RowOfMessage(Run(w, INITIAL, steps), m);
  }

  lemma AtMostOncePerRow(w: Wiring, steps: seq<Step>, d: Key)
    requires d in Run(w, INITIAL, steps).store.dispatches && Run(w, INITIAL, steps).log.lost == multiset{}
    ensures var s := Run(w, INITIAL, steps); multiset(s.published)[MessageOf(s.store.dispatches[d])] <= 1
  {
    hide Run, StoreInv, ThreadsOk, MintedOk, HistoryOk, OneChangePerEvent, ReceiptsOk, ApprovalsOk;
    hide MessagesOk, DeliveriesOk, MessageOf;
    var s := Run(w, INITIAL, steps);
    ReachableInv(w, steps);
    PublishesAreAccounted(w, steps, d);
    if c :| c in s.claims && s.claims[c].row == d && Unstamped(s.claims[c]) {
      assert ClaimOk(s.store, s.claims[c]);
    }
  }

  lemma Twice<T>(s: seq<T>, i: nat, j: nat)
    requires i < j < |s| && s[i] == s[j]
    ensures multiset(s)[s[i]] >= 2
  {
    assert s == s[..j] + [s[j]] + s[j + 1..];
    assert s[i] in s[..j];
  }

  // ---------------------------------------------------------------- claims and rows

  /** However many claimers: no row is held twice, and each row is pending with fewer than eight recorded
      attempts, published after at most eight, or dead-lettered after exactly eight. */
  lemma RowsAreClaimedAlone(w: Wiring, steps: seq<Step>)
    ensures var s := Run(w, INITIAL, steps);
            && (forall c, d :: c in s.claims && d in s.claims && c != d ==> s.claims[c].row != s.claims[d].row)
            && (forall c :: c in s.claims ==> s.claims[c].row in s.store.claimed)
            && (forall d :: d in s.store.dispatches ==>
                  var row := s.store.dispatches[d];
                  && !(row.published && row.deadLetteredAt.Some?)
                  && (!Final(row) ==> row.attempts < 8)
                  && (row.published ==> 1 <= row.attempts <= 8)
                  && (row.deadLetteredAt.Some? ==> row.attempts == 8))
  {
    hide Run, ThreadsOk, MintedOk, HistoryOk, OneChangePerEvent, ReceiptsOk, ApprovalsOk;
    hide ActionsOk, GrantsOk, IdemsOk, MessagesOk, DeliveriesOk, OutcomeFits;
    ReachableInv(w, steps);
    var s := Run(w, INITIAL, steps);
    forall d | d in s.store.dispatches
      ensures RowOk(s.store, d)
    {
    }
    forall c | c in s.claims
      ensures ClaimOk(s.store, s.claims[c])
    {
    }
  }

  // ---------------------------------------------------------------- completion and approval

  /** An action has succeeded only through a receipt that binds its exact operation, matches the schema it
      declared and passed the wired verifier. */
  lemma SucceededByReceipt(w: Wiring, steps: seq<Step>, k: Key)
    requires k in Run(w, INITIAL, steps).store.actions
    requires Run(w, INITIAL, steps).store.actions[k].status == Succeeded
    ensures var s := Run(w, INITIAL, steps);
            && k in s.log.completedBy && Spent(s.store, k)
            && var r, b := s.log.completedBy[k], s.store.actions[k].binding;
               && r.status == Succeeded && r.receiptRef == s.store.actions[k].receiptRef
               && r.actionRef == b.actionRef && r.capability == b.capability && r.parameterHash == b.parameterHash
               && r.receiptSchema == b.expectedReceiptSchema
               && w.receiptOk(r) && w.receipts.Some? && w.receipts.value(k.tenant, r)
  {
    hide Run, ThreadsOk, MintedOk, HistoryOk, OneChangePerEvent, ApprovalsOk, OutboxOk, RowsOk, GrantsOk, IdemsOk;
    ReachableInv(w, steps);
    var s := Run(w, INITIAL, steps);
    assert ActionOk(s.store, k) && CompletedOk(w, k, s.store.actions[k], s.log.completedBy);
  }

  /** An action created with a plan is granted only on an approved record for that plan and its exact
      operation, and no plan grants two actions. */
  lemma ApprovalSpentOnce(w: Wiring, steps: seq<Step>, k: Key)
    requires var s := Run(w, INITIAL, steps).store;
             k in s.actions && k in s.grants && s.actions[k].binding.approvalPlanRef != ""
    ensures var s := Run(w, INITIAL, steps);
            && var b := s.store.actions[k].binding;
            && PlanKey(b) in s.evidence.consumed && PlanKey(b) in s.log.consumedFor
            && s.log.consumedFor[PlanKey(b)].0 == k
            && (forall j :: j in s.store.grants && j in s.store.actions ==>
                  PlanKey(s.store.actions[j].binding) == PlanKey(b) ==> j == k)
            && var record := s.log.consumedFor[PlanKey(b)].1;
               record.decision == Approved && record.capability == b.capability && record.parameterHash == b.parameterHash
  {
    hide Run, ThreadsOk, MintedOk, HistoryOk, OneChangePerEvent, ReceiptsOk, OutboxOk, RowsOk, GrantsOk, IdemsOk;
    ReachableInv(w, steps);
    var s := Run(w, INITIAL, steps);
    assert ActionOk(s.store, k);
    assert ApprovedFor(s.log, s.store.actions[k].binding);
    forall j | j in s.store.grants && j in s.store.actions
               && PlanKey(s.store.actions[j].binding) == PlanKey(s.store.actions[k].binding)
      ensures j == k
    {
      assert ActionOk(s.store, j);
      assert ApprovedFor(s.log, s.store.actions[j].binding);
    }
  }

  /** Every grant is for one use within five minutes, binds its action's exact operation, and was consumed, if it was,
      before it expired. */
  lemma GrantsAreShortLived(w: Wiring, steps: seq<Step>, k: Key)
    requires k in Run(w, INITIAL, steps).store.grants
    ensures var s := Run(w, INITIAL, steps).store;
            && var g := s.grants[k];
            && g.oneUse && g.expiresAt == g.issuedAt + 5 * 60 * SECOND
            && (g.consumedAt.Some? ==> g.consumedAt.value < g.expiresAt)
            && k in s.actions && g.grantRef == s.actions[k].grantRef && Key(g.tenantRef, g.actionRef) == k
            && var b := s.actions[k].binding;
               g.capability == b.capability && g.parameterHash == b.parameterHash
               && g.businessContextRef == b.businessContextRef
  {
    hide Run, ThreadsOk, MintedOk, HistoryOk, OneChangePerEvent, ReceiptsOk, ApprovalsOk, OutboxOk, StoreInv;
    ReachableInv(w, steps);
    ActionAt(Run(w, INITIAL, steps).store, k);
  }

  // ---------------------------------------------------------------- idempotency

  /** An idempotency key names one action for ever: two actions never share a key, and any later request under
      the key changes nothing and either returns that action or, for another operation, is refused. */
  lemma KeyNamesOneAction(w: Wiring, steps: seq<Step>, more: seq<Step>, k: Key, b: Action)
    requires k in Run(w, INITIAL, steps).store.actions
    requires b.binding.IdemKey() == Run(w, INITIAL, steps).store.actions[k].binding.IdemKey()
    ensures var s, u := Run(w, INITIAL, steps).store, Run(w, Run(w, INITIAL, steps), more).store;
            && (forall j :: j in u.actions && u.actions[j].binding.IdemKey() == b.binding.IdemKey() ==> j == k)
            && k in u.actions
            && PutRequested(u, b) == (u, if SameOperation(u.actions[k], b) then Ok((u.actions[k], false))
                                         else Err(IdempotencyConflict))
            && (SameOperation(u.actions[k], b) <==> SameOperation(s.actions[k], b))
  {
    hide Run, ThreadsOk, MintedOk, HistoryOk, OneChangePerEvent, ReceiptsOk, ApprovalsOk, OutboxOk, RowsOk, GrantsOk;
    ReachableInv(w, steps);
    RunKeeps(w, Run(w, INITIAL, steps), more);
    NothingIsUndone(w, steps, more, k);
    var u := Run(w, Run(w, INITIAL, steps), more).store;
    assert ActionOk(u, k);
    forall j | j in u.actions && u.actions[j].binding.IdemKey() == b.binding.IdemKey()
      ensures j == k
    {
      assert ActionOk(u, j);
    }
  }

  // ---------------------------------------------------------------- lineage

  function Statuses(past: seq<Change>): seq<Status> {
    seq(|past|, i requires 0 <= i < |past| => past[i].to)
  }

  lemma PastIsPath(k: Key, now: Status, past: seq<Change>, events: seq<AuditEvent>, spent: set<nat>)
    requires PastOk(k, now, past, events, spent)
    ensures IsPath(Statuses(past)) && |past| - 1 <= 9
  {
    hide CanTransition, Announces;
    var path := Statuses(past);
    forall i | 0 <= i < |path| - 1
      ensures CanTransition(path[i], path[i + 1])
    {
      assert CanTransition(past[i + 1 - 1].to, past[i + 1].to);
    }
    LifecycleIsBounded(path);
  }

  /** The changes of an action run from its creation to where it is now along allowed edges, at most nine of
      them, each announced by an audit event of its own that names the action, the status it moves to and, except for
      a completion, whose read may be stale by then, the status it moves from. */
  lemma LineageIsAudited(w: Wiring, steps: seq<Step>, k: Key)
    requires k in Run(w, INITIAL, steps).store.actions
    ensures var s := Run(w, INITIAL, steps);
            && k in s.log.history && s.log.history[k] != []
            && var past := s.log.history[k];
               && past[0].from == None && past[|past| - 1].to == s.store.actions[k].status
               && IsPath(Statuses(past)) && |past| - 1 <= 9
               && (forall i :: 0 < i < |past| ==> past[i].from == Some(past[i - 1].to))
               && (forall i :: 0 <= i < |past| ==>
                     past[i].audit < |s.events| && Announces(s.events[past[i].audit], k, past[i]))
               && (forall j, m, n :: j in s.log.history && 0 <= m < |past| && 0 <= n < |s.log.history[j]|
                     ==> past[m].audit == s.log.history[j][n].audit ==> j == k && m == n)
  {
    hide Run, ThreadsOk, MintedOk, StoreInv, ReceiptsOk, ApprovalsOk, OutboxOk, Announces, CanTransition;
    ReachableInv(w, steps);
    var s := Run(w, INITIAL, steps);
    assert PastOk(k, s.store.actions[k].status, s.log.history[k], s.events, s.log.spent);
    PastIsPath(k, s.store.actions[k].status, s.log.history[k], s.events, s.log.spent);
  }
}
