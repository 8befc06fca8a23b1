/** Any number of operations, evidence changes and outbox claimers interleaved at their atomic steps.

    Operations keep what they read while others run; claimers can crash and lose the outcome of a delivery
    (the rolled-back claim transaction of services/agentnexus/internal/actions/postgres.go). */
module ActionSystem {
  import opened ActionOps
  import opened ActionOutbox
  import opened ActionState
  import opened ActionStore
  import opened ActionTypes
  import opened Wrappers

  /** An operation waits to audit a wish, or to run a store command it has audited as event `audit`.
      A compensation keeps its original to move it on afterwards. */
  datatype Stage =
    | Wishing(wish: Wish)
    | Ready(command: Command, audit: nat, original: Option<Action>)

  datatype Thread = Thread(principal: Principal, stage: Stage)

  datatype Phase = Held | Tried(outcome: DispatchOutcome, at: Time) | Stamped

  datatype Claim = Claim(row: Key, seen: Dispatch, phase: Phase)

  /** One status change of an action and the event that announced it. */
  datatype Change = Change(from: Option<Status>, to: Status, audit: nat, byReceipt: bool)

  datatype System = System(
    store: Store, events: seq<AuditEvent>, evidence: Evidence,
    threads: map<nat, Thread>, claims: map<nat, Claim>, published: seq<DispatchMessage>,
    log: Log)

  /** What happened so far; no step depends on it, except that minted ids are new. */
  datatype Log = Log(
    minted: map<string, nat>,                          // by which thread
    authors: seq<nat>,                                 // of the audit events
    consumedFor: map<Key, (Key, ConsumedEvidence)>,    // by plan: the action and the record
    completedBy: map<Key, Receipt>,                    // by action
    history: map<Key, seq<Change>>,                    // by action
    spent: set<nat>,                                   // audit events whose change was applied
    lost: multiset<Key>,                               // rows whose successful delivery was never stamped
    failures: map<Key, seq<Time>>)                     // by row: when its recorded failed attempts were made

  datatype Step =
    | StartStep(thread: nat, principal: Principal, op: Op)
    | ConsumeStep(thread: nat)
    | AuditStep(thread: nat, id: string, now: Time)
    | CommandStep(thread: nat, at: Time)
    | AbortStep(thread: nat)
    | SeedStep(tenant: string, record: ConsumedEvidence)
    | RevokeStep(plan: Key)
    | AcquireStep(claimer: nat, row: Key, at: Time, eligibleOnly: bool)
    | DeliverStep(claimer: nat, failure: Option<string>, now: Time)
    | StampStep(claimer: nat, at: Time)
    | ReleaseStep(claimer: nat)
    | CrashStep(claimer: nat)

  const INITIAL := System(EMPTY, [], Evidence(map[], {}, {}), map[], map[], [],
                          Log(map[], [], map[], map[], map[], {}, multiset{}, map[]))

  // ---------------------------------------------------------------- the steps of an operation

  function Goto(s: System, t: nat, stage: Stage): System
    requires t in s.threads
  {
    s.(threads := s.threads[t := s.threads[t].(stage := stage)])
  }

  function Drop(s: System, t: nat): System {
    s.(threads := s.threads - {t})
  }

  function StartThread(w: Wiring, s: System, t: nat, p: Principal, op: Op): System {
    if t in s.threads then s
    else match Start(w, s.store, p, op)
      case Ok(Continue(wish)) => s.(threads := s.threads[t := Thread(p, Wishing(wish))])
      case _ => s
  }

  function Consume(s: System, t: nat): System {
    if t !in s.threads || !s.threads[t].stage.Wishing? || !s.threads[t].stage.wish.WantEvidence? then s
    else
      var a := s.threads[t].stage.wish.action;
      var plan := Key(a.binding.tenantRef, a.binding.approvalPlanRef);
      var (evidence, r) := ConsumeEvidence(s.evidence, plan);
      match r
      case Err(_) => Drop(s.(evidence := evidence), t)
      case Ok(record) =>
        var after := s.(evidence := evidence,
                        log := s.log.(consumedFor := s.log.consumedFor[plan := (a.binding.Id(), record)]));
        if Approves(record, a.binding) then Goto(after, t, Wishing(WantGrant(a, record.approvalRef)))
        else Drop(after, t)
  }

  function OriginalOf(wish: Wish): Option<Action> {
    if wish.WantCompensation? then Some(wish.original) else None
  }

  function Audit(w: Wiring, s: System, t: nat, id: string, now: Time): System {
    if t !in s.threads || !s.threads[t].stage.Wishing? || id in s.log.minted then s
    else
      var wish := s.threads[t].stage.wish;
      match Prepare(w, s.threads[t].principal, wish, id, |s.events| + 1, now)
      case Err(_) => s
      case Ok(prepared) =>
        var after := s.(events := s.events + [prepared.event],
                        log := s.log.(minted := s.log.minted[id := t], authors := s.log.authors + [t]));
        Goto(after, t, Ready(prepared.command, |s.events|, OriginalOf(wish)))
  }

  function Target(c: Command): Key {
    match c
    case Put(a) => a.binding.Id()
    case GrantCommand(a, _) => a.binding.Id()
    case DispatchCommand(k, _) => k
    case AdvanceCommand(k, _, _, _) => k
    case IngestCommand(r, _) => Key(r.tenantRef, r.actionRef)
  }

  function Goal(c: Command): Status {
    match c
    case Put(a) => a.status
    case GrantCommand(_, _) => Granted
    case DispatchCommand(_, _) => Dispatched
    case AdvanceCommand(_, _, to, _) => to
    case IngestCommand(_, to) => to
  }

  function Past(log: Log, k: Key): seq<Change> {
    if k in log.history then log.history[k] else []
  }

  /** The log after a command changed its target. */
  function Applied(log: Log, before: Store, c: Command, audit: nat): Log {
    var k := Target(c);
    var from := if k in before.actions then Some(before.actions[k].status) else None;
    log.(history := log.history[k := Past(log, k) + [Change(from, Goal(c), audit, c.IngestCommand?)]],
         spent := log.spent + {audit},
         completedBy := if c.IngestCommand? then log.completedBy[k := c.result.receipt] else log.completedBy)
  }

  function RunCommand(s: System, t: nat, at: Time): System {
    if t !in s.threads || !s.threads[t].stage.Ready? then s
    else
      var Ready(c, audit, original) := s.threads[t].stage;
      var (store, r) := Execute(s.store, c, at);
      match r
      case Err(_) => Drop(s, t)
      case Ok((a, changed)) =>
        if !changed then Drop(s, t)
        else
          var after := s.(store := store, log := Applied(s.log, s.store, c, audit));
          if original.Some? && original.value.status != Compensating
          then Goto(after, t, Wishing(CompensatingWish(original.value, a.binding.actionRef)))
          else Drop(after, t)
  }

  // ---------------------------------------------------------------- the steps of a claimer

  function Acquire(s: System, c: nat, row: Key, at: Time, eligibleOnly: bool): System {
    if c in s.claims then s
    else
      var (store, r) := AcquireDispatch(s.store, row, at, eligibleOnly);
      match r
      case None => s
      case Some(d) => s.(store := store, claims := s.claims[c := Claim(row, d, Held)])
  }

  function Deliver(s: System, c: nat, failure: Option<string>, now: Time): System {
    if c !in s.claims || !s.claims[c].phase.Held? then s
    else
      var claim := s.claims[c];
      s.(claims := s.claims[c := claim.(phase := Tried(Outcome(claim.seen, failure, now), now))],
         published := if failure == None then s.published + [MessageOf(claim.seen)] else s.published)
  }

  function Failures(log: Log, d: Key): seq<Time> {
    if d in log.failures then log.failures[d] else []
  }

  function Stamp(s: System, c: nat, at: Time): System {
    if c !in s.claims || !s.claims[c].phase.Tried? then s
    else
      var claim := s.claims[c];
      s.(store := RecordOutcome(s.store, claim.row, claim.phase.outcome, at),
         claims := s.claims[c := claim.(phase := Stamped)],
         log := if claim.phase.outcome.published then s.log
                else s.log.(failures := s.log.failures[claim.row := Failures(s.log, claim.row) + [claim.phase.at]]))
  }

  function Release(s: System, c: nat): System {
    if c !in s.claims || !s.claims[c].phase.Stamped? then s
    else s.(store := ReleaseDispatch(s.store, s.claims[c].row), claims := s.claims - {c})
  }

  predicate Unstamped(claim: Claim) {
    claim.phase.Tried? && claim.phase.outcome.published
  }

  /** The claimer dies in whatever phase it is: the row lock goes, an unrecorded outcome is lost. */
  function Crash(s: System, c: nat): System {
    if c !in s.claims then s
    else
      var claim := s.claims[c];
      s.(store := ReleaseDispatch(s.store, claim.row), claims := s.claims - {c},
         log := if Unstamped(claim) then s.log.(lost := s.log.lost + multiset{claim.row}) else s.log)
  }

  function Next(w: Wiring, s: System, step: Step): System {
    match step
    case StartStep(t, p, op) => StartThread(w, s, t, p, op)
    case ConsumeStep(t) => Consume(s, t)
    case AuditStep(t, id, now) => Audit(w, s, t, id, now)
    case CommandStep(t, at) => RunCommand(s, t, at)
    case AbortStep(t) => Drop(s, t)
    case SeedStep(tenant, record) =>
      s.(evidence := s.evidence.(records := s.evidence.records[Key(tenant, record.planRef) := record]))
    case RevokeStep(plan) => s.(evidence := s.evidence.(revoked := s.evidence.revoked + {plan}))
    case AcquireStep(c, row, at, eligibleOnly) => Acquire(s, c, row, at, eligibleOnly)
    case DeliverStep(c, failure, now) => Deliver(s, c, failure, now)
    case StampStep(c, at) => Stamp(s, c, at)
    case ReleaseStep(c) => Release(s, c)
    case CrashStep(c) => Crash(s, c)
  }

  function Run(w: Wiring, s: System, steps: seq<Step>): System
    decreases |steps|
  {
    if steps == [] then s else Run(w, Next(w, s, steps[0]), steps[1..])
  }

  // ---------------------------------------------------------------- what a thread may rely on

  /** A snapshot is some past version of the stored action. */
  ghost predicate SnapOk(s: Store, a: Action) {
    a.binding.Id() in s.actions && ActionEvolves(a, s.actions[a.binding.Id()])
  }

  function PlanKey(b: Binding): Key {
    Key(b.tenantRef, b.approvalPlanRef)
  }

  /** The approval an action needs, if it needs one, was consumed for it and names its exact operation. */
  ghost predicate ApprovedFor(log: Log, b: Binding) {
    b.approvalPlanRef != "" ==>
      && PlanKey(b) in log.consumedFor
      && log.consumedFor[PlanKey(b)].0 == b.Id()
      && Approves(log.consumedFor[PlanKey(b)].1, b)
  }

  ghost predicate ReceiptBinds(w: Wiring, r: ConnectorResult, b: Binding, to: Status) {
    Key(r.tenantRef, r.actionRef) == b.Id() && ReceiptVerdict(w, r.tenantRef, b, r.receipt) == Ok(to)
  }

  /** An action that may still be granted waits for approval exactly when it has a plan. */
  ghost predicate Ungranted(a: Action) {
    a.status == if a.binding.approvalPlanRef == "" then Requested else AwaitingApproval
  }

  ghost predicate WishOk(w: Wiring, s: Store, log: Log, p: Principal, wish: Wish) {
    match wish
    case WantPut(_) => true
    case WantEvidence(a) => SnapOk(s, a) && a.binding.tenantRef == p.tenantRef && Ungranted(a)
    case WantGrant(a, _) =>
      SnapOk(s, a) && a.binding.tenantRef == p.tenantRef && Ungranted(a) && ApprovedFor(log, a.binding)
    case WantDispatch(a) =>
      && SnapOk(s, a) && a.binding.tenantRef == p.tenantRef
      && a.binding.Id() in s.grants && a.grantRef == s.grants[a.binding.Id()].grantRef
      && a.status == Granted
    case WantAdvance(a, to, _, _, _) => SnapOk(s, a) && a.binding.tenantRef == p.tenantRef && PlainTarget(to)
    case WantIngest(a, r, to, _, _) =>
      && SnapOk(s, a) && a.binding.tenantRef == p.tenantRef
      && Spent(s, a.binding.Id()) && ReceiptBinds(w, r, a.binding, to)
    case WantCompensation(o) => SnapOk(s, o) && o.binding.tenantRef == p.tenantRef
  }

  ghost predicate CommandOk(w: Wiring, s: Store, log: Log, t: nat, c: Command) {
    match c
    case Put(a) => PutOk(s, a) && a.binding.actionRef in log.minted && log.minted[a.binding.actionRef] == t
    case GrantCommand(a, g) =>
      && a.binding.Id() in s.actions && s.actions[a.binding.Id()].binding == a.binding
      && Ungranted(a) && GrantFits(a.binding, g) && ApprovedFor(log, a.binding)
    case DispatchCommand(k, d) =>
      RowFits(s, k, d) && d.dispatchRef in log.minted && log.minted[d.dispatchRef] == t
    case AdvanceCommand(k, _, to, _) => k in s.actions && PlainTarget(to)
    case IngestCommand(r, to) =>
      var k := Key(r.tenantRef, r.actionRef);
      k in s.actions && Spent(s, k) && ReceiptBinds(w, r, s.actions[k].binding, to)
  }

  /** The event names the action, the status it moves to and, unless a receipt decides the move, the status
      it moves from. */
  ghost predicate Announces(e: AuditEvent, k: Key, change: Change) {
    && e.tenantRef == k.tenant && e.actionRef == k.ref && e.statusTo == change.to
    && (change.byReceipt || e.statusFrom == change.from)
  }

  /** The event a command was audited with. */
  ghost predicate CommandEvent(e: AuditEvent, c: Command) {
    && e.tenantRef == Target(c).tenant && e.actionRef == Target(c).ref && e.statusTo == Goal(c)
    && match c
       case Put(_) => e.statusFrom == None
       case GrantCommand(a, _) => e.statusFrom == Some(a.status)
       case DispatchCommand(_, _) => e.statusFrom == Some(Granted)
       case AdvanceCommand(_, from, _, _) => e.statusFrom == Some(from)
       case IngestCommand(_, to) => TerminalReceiptStatus(to)
  }

  ghost predicate ThreadOk(w: Wiring, s: System, t: nat)
    requires t in s.threads
  {
    match s.threads[t].stage
    case Wishing(wish) => WishOk(w, s.store, s.log, s.threads[t].principal, wish)
    case Ready(c, audit, original) =>
      && CommandOk(w, s.store, s.log, t, c)
      && audit < |s.events| && audit < |s.log.authors| && s.log.authors[audit] == t && audit !in s.log.spent
      && CommandEvent(s.events[audit], c)
      && (original.Some? ==> SnapOk(s.store, original.value)
                             && original.value.binding.tenantRef == s.threads[t].principal.tenantRef)
  }

  // ---------------------------------------------------------------- the invariant of the whole system

  ghost predicate ThreadsOk(w: Wiring, s: System) {
    forall t :: t in s.threads ==> ThreadOk(w, s, t)
  }

  /** Every stored reference was minted. */
  ghost predicate MintedOk(s: Store, log: Log) {
    && (forall k :: k in s.actions ==> k.ref in log.minted)
    && (forall d :: d in s.dispatches ==> d.ref in log.minted)
  }

  /** The changes of one action: created once, then moved along allowed edges up to where it is now, each
      change announced by its event. */
  ghost predicate PastOk(k: Key, now: Status, past: seq<Change>, events: seq<AuditEvent>, spent: set<nat>) {
    && past != [] && past[|past| - 1].to == now
    && (forall i :: 0 <= i < |past| ==>
          && past[i].audit in spent && past[i].audit < |events|
          && Announces(events[past[i].audit], k, past[i]))
    && past[0].from == None && past[0].to in {Requested, AwaitingApproval}
    && (forall i :: 0 < i < |past| ==>
          past[i].from == Some(past[i - 1].to) && CanTransition(past[i - 1].to, past[i].to))
  }

  ghost predicate HistoryOk(s: System) {
    && s.log.history.Keys == s.store.actions.Keys
    && (forall k :: k in s.log.history ==>
          PastOk(k, s.store.actions[k].status, s.log.history[k], s.events, s.log.spent))
    && |s.log.authors| == |s.events|
    && (forall a :: a in s.log.spent ==> a < |s.events|)
  }

  /** No event announces two changes. */
  ghost predicate OneChangePerEvent(log: Log) {
    forall j, k, m, n :: j in log.history && k in log.history && 0 <= m < |log.history[j]| && 0 <= n < |log.history[k]|
      ==> log.history[j][m].audit == log.history[k][n].audit ==> j == k && m == n
  }

  ghost predicate CompletedOk(w: Wiring, k: Key, a: Action, completedBy: map<Key, Receipt>) {
    && (a.receiptRef != "" || a.status == Succeeded ==> k in completedBy)
    && (k in completedBy ==>
          && ReceiptVerdict(w, k.tenant, a.binding, completedBy[k]).Ok?
          && a.receiptRef == completedBy[k].receiptRef
          && (a.status == Succeeded ==> completedBy[k].status == Succeeded))
  }

  ghost predicate ReceiptsOk(w: Wiring, s: Store, log: Log) {
    && (forall k :: k in s.actions ==> CompletedOk(w, k, s.actions[k], log.completedBy))
    && (forall k :: k in log.completedBy ==> k in s.actions && Rank(s.actions[k].status) >= Rank(Succeeded))
  }

  ghost predicate ApprovalsOk(s: System) {
    && s.log.consumedFor.Keys == s.evidence.consumed
    && (forall k :: k in s.store.grants && k in s.store.actions ==> ApprovedFor(s.log, s.store.actions[k].binding))
  }

  ghost predicate ClaimOk(s: Store, c: Claim) {
    && c.row in s.dispatches && c.row in s.claimed
    && (!c.phase.Stamped? ==> s.dispatches[c.row] == c.seen && !Final(c.seen))
    && (c.phase.Tried? ==> OutcomeFits(c.seen, c.phase.outcome))
  }

  ghost predicate ClaimsOk(s: Store, claims: map<nat, Claim>) {
    && (forall c :: c in claims ==> ClaimOk(s, claims[c]))
    && (forall c, d :: c in claims && d in claims ==> claims[c].row == claims[d].row ==> c == d)
  }

  ghost predicate MessagesOk(s: Store, published: seq<DispatchMessage>) {
    forall m :: m in published ==>
      Key(m.tenantRef, m.dispatchRef) in s.dispatches && MessageOf(s.dispatches[Key(m.tenantRef, m.dispatchRef)]) == m
  }

  ghost predicate InDoubt(claims: map<nat, Claim>, d: Key) {
    exists c :: c in claims && claims[c].row == d && Unstamped(claims[c])
  }

  /** Successful deliveries of a row: the stamped one, one in doubt, and those whose stamp was lost. */
  ghost function Deliveries(s: Store, claims: map<nat, Claim>, lost: multiset<Key>, d: Key): nat
    requires d in s.dispatches
  {
    (if s.dispatches[d].published then 1 else 0) + (if InDoubt(claims, d) then 1 else 0) + lost[d]
  }

  ghost predicate DeliveriesOk(s: Store, claims: map<nat, Claim>, published: seq<DispatchMessage>, lost: multiset<Key>) {
    && (forall d :: d in s.dispatches ==>
          multiset(published)[MessageOf(s.dispatches[d])] == Deliveries(s, claims, lost, d))
    && (forall d :: d in lost ==> d in s.dispatches)
  }

  ghost predicate OutboxOk(s: System) {
    && ClaimsOk(s.store, s.claims) && MessagesOk(s.store, s.published)
    && DeliveriesOk(s.store, s.claims, s.published, s.log.lost)
  }

  ghost predicate Inv(w: Wiring, s: System) {
    && StoreInv(s.store) && ThreadsOk(w, s) && MintedOk(s.store, s.log)
    && HistoryOk(s) && OneChangePerEvent(s.log)
    && ReceiptsOk(w, s.store, s.log) && ApprovalsOk(s) && OutboxOk(s)
  }

  // ---------------------------------------------------------------- stale reads stay usable

  lemma SnapStable(s: Store, u: Store, a: Action)
    requires SnapOk(s, a) && Evolves(s, u)
    ensures SnapOk(u, a)
  {
    var k := a.binding.Id();
    assert ActionEvolves(s.actions[k], u.actions[k]);
  }

  lemma GrantStable(s: Store, u: Store, k: Key)
    requires Evolves(s, u) && k in s.grants
    ensures k in u.grants && u.grants[k].grantRef == s.grants[k].grantRef
    ensures Spent(s, k) ==> Spent(u, k)
  {
    assert GrantEvolves(s.grants[k], u.grants[k]);
    assert s.grants[k].(consumedAt := None).grantRef == u.grants[k].(consumedAt := None).grantRef;
  }

  ghost predicate Grows<K, V(!new)>(m: map<K, V>, n: map<K, V>) {
    forall k :: k in m ==> k in n && n[k] == m[k]
  }

  lemma ApprovalStable(log: Log, after: Log, b: Binding)
    requires ApprovedFor(log, b) && Grows(log.consumedFor, after.consumedFor)
    ensures ApprovedFor(after, b)
  {
  }

  lemma WishStable(w: Wiring, s: Store, u: Store, log: Log, after: Log, p: Principal, wish: Wish)
    requires WishOk(w, s, log, p, wish)
    requires Evolves(s, u) && Grows(log.consumedFor, after.consumedFor)
    ensures WishOk(w, u, after, p, wish)
  {
    hide Evolves, SnapOk, ApprovedFor, ReceiptBinds, Spent, PlainTarget, Grows;
    match wish
    case WantPut(_) =>
    case WantEvidence(a) => SnapStable(s, u, a);
    case WantGrant(a, _) =>
      SnapStable(s, u, a);
      ApprovalStable(log, after, a.binding);
    case WantDispatch(a) =>
      SnapStable(s, u, a);
      GrantStable(s, u, a.binding.Id());
    case WantAdvance(a, _, _, _, _) => SnapStable(s, u, a);
    case WantIngest(a, _, _, _, _) =>
      SnapStable(s, u, a);
      SpentStable(s, u, a.binding.Id());
    case WantCompensation(o) => SnapStable(s, u, o);
  }

  lemma SpentStable(s: Store, u: Store, k: Key)
    requires Evolves(s, u) && Spent(s, k)
    ensures Spent(u, k)
  {
    GrantStable(s, u, k);
  }

  lemma BindingStable(s: Store, u: Store, k: Key)
    requires Evolves(s, u) && k in s.actions
    ensures k in u.actions && u.actions[k].binding == s.actions[k].binding
  {
    assert ActionEvolves(s.actions[k], u.actions[k]);
  }

  /** Whatever is new in u was minted by the thread `actor`. */
  ghost predicate NewBelongsTo(s: Store, u: Store, minted: map<string, nat>, actor: nat) {
    && (forall k :: k in u.actions && k !in s.actions ==> k.ref in minted && minted[k.ref] == actor)
    && (forall d :: d in u.dispatches && d !in s.dispatches ==> d.ref in minted && minted[d.ref] == actor)
  }

  lemma CommandStable(w: Wiring, s: Store, u: Store, log: Log, after: Log, t: nat, c: Command, actor: nat)
    requires CommandOk(w, s, log, t, c) && t != actor
    requires Evolves(s, u) && Grows(log.consumedFor, after.consumedFor) && Grows(log.minted, after.minted)
    requires NewBelongsTo(s, u, after.minted, actor)
    ensures CommandOk(w, u, after, t, c)
  {
    hide Evolves, ApprovedFor, ReceiptBinds, Spent, PlainTarget, GrantFits, RowBinds, Final;
    match c
    case Put(a) =>
    case GrantCommand(a, g) =>
      BindingStable(s, u, a.binding.Id());
      ApprovalStable(log, after, a.binding);
    case DispatchCommand(k, d) =>
      BindingStable(s, u, k);
      GrantStable(s, u, k);
      RowStable(s, u, k, d);
    case AdvanceCommand(k, _, _, _) => BindingStable(s, u, k);
    case IngestCommand(r, _) =>
      BindingStable(s, u, Key(r.tenantRef, r.actionRef));
      SpentStable(s, u, Key(r.tenantRef, r.actionRef));
  }

  lemma RowStable(s: Store, u: Store, k: Key, d: Dispatch)
    requires k in s.actions && k in u.actions && k in s.grants && k in u.grants
    requires u.actions[k].binding == s.actions[k].binding && u.grants[k].grantRef == s.grants[k].grantRef
    requires RowBinds(s.actions[k].binding, s.grants[k], d)
    ensures RowBinds(u.actions[k].binding, u.grants[k], d)
  {
  }

  /** How a system may move on under the threads other than `actor`. */
  ghost predicate MovesOn(s: System, u: System, actor: nat) {
    && Evolves(s.store, u.store)
    && s.events <= u.events && s.log.authors <= u.log.authors
    && Grows(s.log.minted, u.log.minted) && Grows(s.log.consumedFor, u.log.consumedFor)
    && NewBelongsTo(s.store, u.store, u.log.minted, actor)
    && (forall a :: a in u.log.spent && a !in s.log.spent ==> a < |u.log.authors| && u.log.authors[a] == actor)
    && (forall t :: t in u.threads && t != actor ==> t in s.threads && u.threads[t] == s.threads[t])
  }

  lemma ThreadStable(w: Wiring, s: System, u: System, actor: nat, t: nat)
    requires MovesOn(s, u, actor) && t in u.threads && t != actor && t in s.threads && ThreadOk(w, s, t)
    ensures ThreadOk(w, u, t)
  {
    hide Evolves, NewBelongsTo, Grows, WishOk, CommandOk, CommandEvent, SnapOk;
    match s.threads[t].stage
    case Wishing(wish) => WishStable(w, s.store, u.store, s.log, u.log, s.threads[t].principal, wish);
    case Ready(c, audit, original) =>
      CommandStable(w, s.store, u.store, s.log, u.log, t, c, actor);
      assert u.events[audit] == s.events[audit] && u.log.authors[audit] == s.log.authors[audit];
      if original.Some? {
        SnapStable(s.store, u.store, original.value);
      }
  }

  lemma ThreadsStable(w: Wiring, s: System, u: System, actor: nat)
    requires ThreadsOk(w, s) && MovesOn(s, u, actor)
    requires actor in u.threads ==> ThreadOk(w, u, actor)
    ensures ThreadsOk(w, u)
  {
    hide ThreadOk, Evolves, NewBelongsTo, Grows;
    forall t | t in u.threads
      ensures ThreadOk(w, u, t)
    {
      if t != actor {
        ThreadStable(w, s, u, actor, t);
      }
    }
  }

  // ---------------------------------------------------------------- reading and auditing

  lemma SnapOfStored(s: Store, k: Key)
    requires k in s.actions && ActionOk(s, k)
    ensures SnapOk(s, s.actions[k])
  {
  }

  /** A read leaves the operation with a wish it may rely on. */
  lemma StartGives(w: Wiring, s: Store, log: Log, p: Principal, op: Op, wish: Wish)
    requires StoreInv(s) && Start(w, s, p, op) == Ok(Continue(wish))
    ensures WishOk(w, s, log, p, wish)
  {
    hide ActionsOk, GrantsOk, IdemsOk, RowsOk, ReceiptVerdict, SnapOk, ApprovedFor;
    if !op.RequestAction? {
      var k := Key(p.tenantRef, OpRef(op));
      ActionAt(s, k);
      SnapOfStored(s, k);
      StartOnGives(w, s, log, p, op, s.actions[k], wish);
    }
  }

  lemma StartOnGives(w: Wiring, s: Store, log: Log, p: Principal, op: Op, a: Action, wish: Wish)
    requires !op.RequestAction? && StartOn(w, s, p, op, a) == Ok(Continue(wish))
    requires a.binding.Id() == Key(p.tenantRef, OpRef(op)) && a.binding.Id() in s.actions
    requires a == s.actions[a.binding.Id()] && ActionOk(s, a.binding.Id()) && SnapOk(s, a)
    requires a.binding.Id() in s.grants ==> GrantOk(s, a.binding.Id())
    ensures WishOk(w, s, log, p, wish)
  {
    hide ReceiptVerdict, SnapOk, CanTransition, Trusted, SameOperation;
  }

  /** Auditing a wish with a new id yields a command that may be run. */
  lemma PrepareGives(
      w: Wiring, s: Store, log: Log, after: Log, t: nat, p: Principal, wish: Wish, id: string, auditRef: nat, now: Time)
    requires WishOk(w, s, log, p, wish) && MintedOk(s, log) && id !in log.minted
    requires Prepare(w, p, wish, id, auditRef, now).Ok?
    requires after.minted == log.minted[id := t] && after.consumedFor == log.consumedFor
    ensures var prepared := Prepare(w, p, wish, id, auditRef, now).value;
            CommandOk(w, s, after, t, prepared.command) && CommandEvent(prepared.event, prepared.command)
  {
    hide ActionEvolves, Approves, IsHandleChar;
    assert Key(p.tenantRef, id) !in s.actions && Key(p.tenantRef, id) !in s.dispatches;
    if !wish.WantPut? && !wish.WantCompensation? {
      assert s.actions[wish.action.binding.Id()].binding == wish.action.binding by {
        SnapBinding(s, wish.action);
      }
    }
  }

  lemma SnapBinding(s: Store, a: Action)
    requires SnapOk(s, a)
    ensures s.actions[a.binding.Id()].binding == a.binding
  {
  }

  // ---------------------------------------------------------------- every step keeps the invariant

  lemma HistoryGrows(s: System, u: System)
    requires HistoryOk(s)
    requires u.store.actions == s.store.actions && u.log.history == s.log.history && u.log.spent == s.log.spent
    requires s.events <= u.events && |u.log.authors| == |u.events|
    ensures HistoryOk(u)
  {
    hide PastOk;
    forall k | k in u.log.history
      ensures PastOk(k, u.store.actions[k].status, u.log.history[k], u.events, u.log.spent)
    {
      PastGrows(k, s.store.actions[k].status, s.log.history[k], s.events, s.log.spent, u.events, u.log.spent);
    }
  }

  lemma PastGrows(
      k: Key, now: Status, past: seq<Change>, events: seq<AuditEvent>, spent: set<nat>, more: seq<AuditEvent>,
      later: set<nat>)
    requires PastOk(k, now, past, events, spent) && events <= more && spent <= later
    ensures PastOk(k, now, past, more, later)
  {
    hide Announces, CanTransition;
    forall i | 0 <= i < |past|
      ensures past[i].audit in later && past[i].audit < |more| && Announces(more[past[i].audit], k, past[i])
    {
      assert more[past[i].audit] == events[past[i].audit];
    }
  }

  lemma StartKeeps(w: Wiring, s: System, t: nat, p: Principal, op: Op)
    requires Inv(w, s)
    ensures Inv(w, StartThread(w, s, t, p, op))
  {
    hide StoreInv, ThreadsOk, MintedOk, HistoryOk, OneChangePerEvent, ReceiptsOk, ApprovalsOk, OutboxOk, Start, WishOk;
    var u := StartThread(w, s, t, p, op);
    if u != s {
      var wish := u.threads[t].stage.wish;
      StartGives(w, s.store, s.log, p, op, wish);
      EvolvesReflexive(s.store);
      ThreadsStable(w, s, u, t);
      assert HistoryOk(u) by {
        AuthorsMatch(s);
        HistoryGrows(s, u);
      }
      assert ApprovalsOk(u) && OutboxOk(u) by { SameOutbox(s, u); }
    }
  }

  lemma SameOutbox(s: System, u: System)
    requires ApprovalsOk(s) && OutboxOk(s)
    requires u.store == s.store && u.claims == s.claims && u.published == s.published && u.log.lost == s.log.lost
    requires u.log.consumedFor == s.log.consumedFor && u.evidence.consumed == s.evidence.consumed
    ensures ApprovalsOk(u) && OutboxOk(u)
  {
    hide ClaimsOk, MessagesOk, DeliveriesOk;
    forall k | k in u.store.grants && k in u.store.actions
      ensures ApprovedFor(u.log, u.store.actions[k].binding)
    {
      assert ApprovedFor(s.log, s.store.actions[k].binding);
    }
  }

  lemma DropKeeps(w: Wiring, s: System, t: nat)
    requires Inv(w, s)
    ensures Inv(w, Drop(s, t))
  {
    hide StoreInv, MintedOk, HistoryOk, OneChangePerEvent, ReceiptsOk, ApprovalsOk, OutboxOk, ThreadOk;
    var u := Drop(s, t);
    EvolvesReflexive(s.store);
    ThreadsStable(w, s, u, t);
    AuthorsMatch(s);
    HistoryGrows(s, u);
    SameOutbox(s, u);
  }

  lemma EvidenceKeeps(w: Wiring, s: System, evidence: Evidence)
    requires Inv(w, s) && evidence.consumed == s.evidence.consumed
    ensures Inv(w, s.(evidence := evidence))
  {
    hide StoreInv, MintedOk, HistoryOk, OneChangePerEvent, ReceiptsOk, ApprovalsOk, OutboxOk, ThreadOk;
    var u := s.(evidence := evidence);
    EvolvesReflexive(s.store);
    if t :| t in s.threads {
      assert ThreadOk(w, s, t);
      assert ThreadOk(w, u, t) by { SameThread(w, s, u, t); }
      ThreadsStable(w, s, u, t);
    }
    AuthorsMatch(s);
    HistoryGrows(s, u);
    SameOutbox(s, u);
  }

  lemma SameThread(w: Wiring, s: System, u: System, t: nat)
    requires t in s.threads && t in u.threads && u.threads[t] == s.threads[t] && ThreadOk(w, s, t)
    requires u.store == s.store && u.log == s.log && u.events == s.events
    ensures ThreadOk(w, u, t)
  {
    hide WishOk, CommandOk, CommandEvent, SnapOk;
  }

  lemma ConsumeKeeps(w: Wiring, s: System, t: nat)
    requires Inv(w, s)
    ensures Inv(w, Consume(s, t))
  {
    hide StoreInv, ThreadsOk, MintedOk, HistoryOk, OneChangePerEvent, ReceiptsOk, OutboxOk, WishOk, ThreadOk, Approves;
    var u := Consume(s, t);
    if t in s.threads && s.threads[t].stage.Wishing? && s.threads[t].stage.wish.WantEvidence? {
      var a := s.threads[t].stage.wish.action;
      var plan := Key(a.binding.tenantRef, a.binding.approvalPlanRef);
      var (evidence, r) := ConsumeEvidence(s.evidence, plan);
      if r.Err? {
        EvidenceKeeps(w, s, evidence);
        DropKeeps(w, s.(evidence := evidence), t);
      } else {
        EvolvesReflexive(s.store);
        ConsumedThread(w, s, t, u);
        ThreadsStable(w, s, u, t);
        AuthorsMatch(s);
        HistoryGrows(s, u);
        ConsumedApprovals(s, u, plan);
        SameClaims(s, u);
        assert MintedOk(u.store, u.log) by { MintedSame(s.store, s.log, u.log); }
        assert OneChangePerEvent(u.log) by { OneChangeSame(s.log, u.log); }
        assert ReceiptsOk(w, u.store, u.log) by { ReceiptsSame(w, s.store, s.log, u.log); }
      }
    }
  }

  lemma MintedSame(s: Store, log: Log, after: Log)
    requires MintedOk(s, log) && Grows(log.minted, after.minted)
    ensures MintedOk(s, after)
  {
  }

  lemma OneChangeSame(log: Log, after: Log)
    requires OneChangePerEvent(log) && after.history == log.history
    ensures OneChangePerEvent(after)
  {
  }

  lemma ReceiptsSame(w: Wiring, s: Store, log: Log, after: Log)
    requires ReceiptsOk(w, s, log) && after.completedBy == log.completedBy
    ensures ReceiptsOk(w, s, after)
  {
  }

  lemma SameClaims(s: System, u: System)
    requires OutboxOk(s)
    requires u.store == s.store && u.claims == s.claims && u.published == s.published && u.log.lost == s.log.lost
    ensures OutboxOk(u)
  {
    hide ClaimsOk, MessagesOk, DeliveriesOk;
  }

  lemma ConsumedApprovals(s: System, u: System, plan: Key)
    requires ApprovalsOk(s) && u.store == s.store && plan !in s.evidence.consumed
    requires u.evidence.consumed == s.evidence.consumed + {plan} && plan in u.log.consumedFor
    requires u.log.consumedFor == s.log.consumedFor[plan := u.log.consumedFor[plan]]
    ensures ApprovalsOk(u)
  {
    forall k | k in u.store.grants && k in u.store.actions
      ensures ApprovedFor(u.log, u.store.actions[k].binding)
    {
      assert ApprovedFor(s.log, s.store.actions[k].binding);
    }
  }

  /** The thread that consumed the evidence may go on to grant if the record approves its action. */
  lemma ConsumedThread(w: Wiring, s: System, t: nat, u: System)
    requires ThreadsOk(w, s) && u == Consume(s, t) && t in s.threads
    requires s.threads[t].stage.Wishing? && s.threads[t].stage.wish.WantEvidence?
    requires ConsumeEvidence(s.evidence, PlanKey(s.threads[t].stage.wish.action.binding)).1.Ok?
    ensures t in u.threads ==> ThreadOk(w, u, t)
  {
    assert ThreadOk(w, s, t);
  }

  lemma AuditKeeps(w: Wiring, s: System, t: nat, id: string, now: Time)
    requires Inv(w, s)
    ensures Inv(w, Audit(w, s, t, id, now))
  {
    hide StoreInv, ThreadsOk, MintedOk, HistoryOk, OneChangePerEvent, ReceiptsOk, ApprovalsOk, OutboxOk, WishOk, ThreadOk, Prepare;
    var u := Audit(w, s, t, id, now);
    if u != s {
      EvolvesReflexive(s.store);
      assert |s.log.authors| == |s.events| by { AuthorsMatch(s); }
      AuditedThread(w, s, t, id, now, u);
      ThreadsStable(w, s, u, t);
      HistoryGrows(s, u);
      MintedSame(s.store, s.log, u.log);
      OneChangeSame(s.log, u.log);
      ReceiptsSame(w, s.store, s.log, u.log);
      SameOutbox(s, u);
    }
  }

  lemma AuthorsMatch(s: System)
    requires HistoryOk(s)
    ensures |s.log.authors| == |s.events|
    ensures forall a :: a in s.log.spent ==> a < |s.events|
  {
  }

  lemma AuditedThread(w: Wiring, s: System, t: nat, id: string, now: Time, u: System)
    requires ThreadsOk(w, s) && MintedOk(s.store, s.log) && HistoryOk(s)
    requires u == Audit(w, s, t, id, now) && u != s
    ensures ThreadOk(w, u, t)
  {
    hide MintedOk, HistoryOk, Prepare, WishOk, CommandOk, CommandEvent, SnapOk;
    assert ThreadOk(w, s, t);
    AuthorsMatch(s);
    var wish := s.threads[t].stage.wish;
    PrepareGives(w, s.store, s.log, u.log, t, s.threads[t].principal, wish, id, |s.events| + 1, now);
    if wish.WantCompensation? {
      assert SnapOk(s.store, wish.original) && wish.original.binding.tenantRef == s.threads[t].principal.tenantRef by {
        CompensationWish(w, s.store, s.log, s.threads[t].principal, wish);
      }
    }
  }

  lemma CompensationWish(w: Wiring, s: Store, log: Log, p: Principal, wish: Wish)
    requires wish.WantCompensation? && WishOk(w, s, log, p, wish)
    ensures SnapOk(s, wish.original) && wish.original.binding.tenantRef == p.tenantRef
  {
  }

  // ---------------------------------------------------------------- running a command

  /** What a command that changes something does to its target. */
  lemma CommandEffect(w: Wiring, s: Store, log: Log, t: nat, c: Command, at: Time, e: AuditEvent)
    requires CommandOk(w, s, log, t, c) && CommandEvent(e, c)
    requires Target(c) in s.actions ==> ActionOk(s, Target(c))
    requires Execute(s, c, at).1.Ok? && Execute(s, c, at).1.value.1
    ensures var u, k := Execute(s, c, at).0, Target(c);
            && k in u.actions && u.actions == s.actions[k := u.actions[k]] && u.actions[k].status == Goal(c)
            && Execute(s, c, at).1.value.0 == u.actions[k]
            && (c.Put? <==> k !in s.actions)
            && (k !in s.actions ==> u.actions[k].receiptRef == "" && Goal(c) in {Requested, AwaitingApproval})
            && (k in s.actions ==>
                  && CanTransition(s.actions[k].status, Goal(c)) && u.actions[k].binding == s.actions[k].binding
                  && u.actions[k].receiptRef
                     == if c.IngestCommand? then c.result.receipt.receiptRef else s.actions[k].receiptRef)
    ensures Announces(e, Target(c),
                      Change(if Target(c) in s.actions then Some(s.actions[Target(c)].status) else None, Goal(c), 0,
                             c.IngestCommand?))
  {
    hide Spent, RowFits, GrantFits, ApprovedFor, ReceiptBinds;
    assert CanTransition(Granted, Dispatched);
  }

  /** What a command does to grants and rows. */
  lemma CommandRows(w: Wiring, s: Store, log: Log, t: nat, c: Command, at: Time)
    requires CommandOk(w, s, log, t, c)
    ensures var u := Execute(s, c, at).0;
            && u.claimed == s.claimed
            && (u.grants.Keys == s.grants.Keys || (c.GrantCommand? && u.grants.Keys == s.grants.Keys + {Target(c)}))
            && (u.actions.Keys == s.actions.Keys || (c.Put? && u.actions.Keys == s.actions.Keys + {Target(c)}))
            && (u.dispatches == s.dispatches
                || (c.DispatchCommand? && c.dispatch.Id() !in s.dispatches
                    && u.dispatches == s.dispatches[c.dispatch.Id() := c.dispatch]))
  {
    hide CommandOk, PutRequested, GrantAction, DispatchAction, Advance, IngestResult;
    match c
    case Put(a) => PutRows(s, a);
    case GrantCommand(a, g) => GrantRows(s, a, g);
    case DispatchCommand(k, d) =>
      FittingRow(w, s, log, t, c);
      DispatchRows(s, k, d, d.createdAt);
    case AdvanceCommand(k, from, to, reason) => AdvanceRows(s, k, from, to, reason, at);
    case IngestCommand(r, to) => IngestRows(s, r, to, at);
  }

  lemma PutRows(s: Store, a: Action)
    ensures var u := PutRequested(s, a).0;
            && u.claimed == s.claimed && u.grants == s.grants && u.dispatches == s.dispatches
            && (u.actions.Keys == s.actions.Keys || u.actions.Keys == s.actions.Keys + {a.binding.Id()})
  {
    hide SameOperation;
  }

  lemma GrantRows(s: Store, a: Action, g: Grant)
    ensures var u := GrantAction(s, a, g).0;
            && u.claimed == s.claimed && u.actions.Keys == s.actions.Keys && u.dispatches == s.dispatches
            && (u.grants.Keys == s.grants.Keys || u.grants.Keys == s.grants.Keys + {a.binding.Id()})
  {
    hide CanTransition;
  }

  lemma DispatchRows(s: Store, k: Key, d: Dispatch, at: Time)
    requires d.tenantRef == k.tenant
    ensures var u := DispatchAction(s, k, d, at).0;
            && u.claimed == s.claimed && u.actions.Keys == s.actions.Keys && u.grants.Keys == s.grants.Keys
            && (u.dispatches == s.dispatches || u.dispatches == s.dispatches[d.Id() := d])
  {
    hide CanTransition, ConsumeFault;
  }

  lemma AdvanceRows(s: Store, k: Key, from: Status, to: Status, reason: string, at: Time)
    ensures var u := Advance(s, k, from, to, reason, at).0;
            && u.claimed == s.claimed && u.actions.Keys == s.actions.Keys && u.grants == s.grants
            && u.dispatches == s.dispatches
  {
    hide CanTransition;
  }

  lemma IngestRows(s: Store, r: ConnectorResult, to: Status, at: Time)
    ensures var u := IngestResult(s, r, to, at).0;
            && u.claimed == s.claimed && u.actions.Keys == s.actions.Keys && u.grants == s.grants
            && u.dispatches == s.dispatches
  {
    hide CanTransition;
  }

  lemma FittingRow(w: Wiring, s: Store, log: Log, t: nat, c: Command)
    requires c.DispatchCommand? && CommandOk(w, s, log, t, c)
    ensures c.dispatch.Id() !in s.dispatches && c.dispatch.tenantRef == c.key.tenant
  {
  }

  /** A command that fails, or finds its work done, changes nothing. */
  lemma CommandIdle(s: Store, c: Command, at: Time)
    requires Execute(s, c, at).1.Err? || !Execute(s, c, at).1.value.1
    ensures Execute(s, c, at).0 == s
  {
    hide CanTransition, ConsumeFault, SameOperation;
  }

  lemma CommandKeepsStore(w: Wiring, s: Store, log: Log, t: nat, c: Command, at: Time)
    requires StoreInv(s) && CommandOk(w, s, log, t, c)
    ensures var u := Execute(s, c, at).0; StoreInv(u) && Evolves(s, u)
  {
    hide StoreInv, Evolves, PutRequested, GrantAction, DispatchAction, Advance, IngestResult;
    hide GrantFits, RowFits, ReceiptVerdict, PutOk, PlainTarget;
    match c
    case Put(a) => PutKeeps(s, a);
    case GrantCommand(a, g) => GrantKeeps(s, a, g);
    case DispatchCommand(k, d) => DispatchKeeps(s, k, d, d.createdAt);
    case AdvanceCommand(k, from, to, reason) => AdvanceKeeps(s, k, from, to, reason, at);
    case IngestCommand(r, to) =>
      assert TerminalReceiptStatus(to) by { VerdictIsTerminal(w, s.actions[Target(c)].binding, r, to); }
      IngestKeeps(s, r, to, at);
  }

  lemma VerdictIsTerminal(w: Wiring, b: Binding, r: ConnectorResult, to: Status)
    requires ReceiptBinds(w, r, b, to)
    ensures TerminalReceiptStatus(to) && r.receipt.status == to
  {
  }

  lemma AppliedHistory(s: System, u: System, c: Command, audit: nat)
    requires HistoryOk(s) && audit < |s.events| && audit !in s.log.spent
    requires u.events == s.events && u.log == Applied(s.log, s.store, c, audit)
    requires var k := Target(c);
             && k in u.store.actions && u.store.actions == s.store.actions[k := u.store.actions[k]]
             && u.store.actions[k].status == Goal(c)
             && (k in s.store.actions ==> CanTransition(s.store.actions[k].status, Goal(c)))
             && (k !in s.store.actions ==> Goal(c) in {Requested, AwaitingApproval})
             && Announces(s.events[audit], k,
                          Change(if k in s.store.actions then Some(s.store.actions[k].status) else None, Goal(c),
                                 0, c.IngestCommand?))
    ensures HistoryOk(u)
  {
    hide PastOk, CanTransition, Announces;
    var k := Target(c);
    forall j | j in u.log.history
      ensures PastOk(j, u.store.actions[j].status, u.log.history[j], u.events, u.log.spent)
    {
      if j != k {
        PastGrows(j, s.store.actions[j].status, s.log.history[j], s.events, s.log.spent, u.events, u.log.spent);
      } else {
        var from := if k in s.store.actions then Some(s.store.actions[k].status) else None;
        PastAppended(k, from, Past(s.log, k), s.events, s.log.spent, Change(from, Goal(c), audit, c.IngestCommand?));
      }
    }
  }

  lemma PastAppended(
      k: Key, now: Option<Status>, past: seq<Change>, events: seq<AuditEvent>, spent: set<nat>, change: Change)
    requires now == None ==> past == [] && change.to in {Requested, AwaitingApproval}
    requires now.Some? ==> PastOk(k, now.value, past, events, spent) && CanTransition(now.value, change.to)
    requires change.from == now && change.audit < |events|
    requires Announces(events[change.audit], k, change.(audit := 0))
    ensures PastOk(k, change.to, past + [change], events, spent + {change.audit})
  {
    hide CanTransition;
    var more := past + [change];
    assert Announces(events[change.audit], k, change);
    forall i | 0 <= i < |more|
      ensures more[i].audit in spent + {change.audit} && Announces(events[more[i].audit], k, more[i])
    {
      if i < |past| {
        assert more[i] == past[i];
      }
    }
    forall i | 0 < i < |more|
      ensures more[i].from == Some(more[i - 1].to) && CanTransition(more[i - 1].to, more[i].to)
    {
      assert more[i - 1] == past[i - 1];
      if i < |past| {
        assert more[i] == past[i];
      }
    }
  }

  lemma AppliedOneChange(s: System, c: Command, audit: nat)
    requires HistoryOk(s) && OneChangePerEvent(s.log) && audit !in s.log.spent
    ensures OneChangePerEvent(Applied(s.log, s.store, c, audit))
  {
    var log, after, k := s.log, Applied(s.log, s.store, c, audit), Target(c);
    forall j, m | j in after.history && 0 <= m < |after.history[j]|
      ensures after.history[j][m].audit == audit <==> j == k && m == |Past(log, k)|
      ensures !(j == k && m == |Past(log, k)|) ==>
                j in log.history && m < |log.history[j]| && after.history[j][m] == log.history[j][m]
    {
      if !(j == k && m == |Past(log, k)|) {
        assert j in log.history && after.history[j][m] == log.history[j][m];
        assert PastOk(j, s.store.actions[j].status, log.history[j], s.events, log.spent);
      }
    }
  }

  lemma AppliedReceipts(w: Wiring, s: Store, u: Store, log: Log, c: Command, audit: nat)
    requires ReceiptsOk(w, s, log)
    requires var k := Target(c);
             && k in u.actions && u.actions == s.actions[k := u.actions[k]] && u.actions[k].status == Goal(c)
             && (k !in s.actions ==> u.actions[k].receiptRef == "" && Goal(c) in {Requested, AwaitingApproval})
             && (k in s.actions ==>
                   && Rank(s.actions[k].status) < Rank(Goal(c)) && u.actions[k].binding == s.actions[k].binding
                   && u.actions[k].receiptRef
                      == if c.IngestCommand? then c.result.receipt.receiptRef else s.actions[k].receiptRef)
    requires Goal(c) == Succeeded ==> c.IngestCommand?
    requires c.IngestCommand? ==>
               Target(c) in s.actions && ReceiptBinds(w, c.result, s.actions[Target(c)].binding, c.to)
    ensures ReceiptsOk(w, u, Applied(log, s, c, audit))
  {
    hide TerminalReceiptStatus, ReceiptVerdict;
    var k, after := Target(c), Applied(log, s, c, audit);
    if c.IngestCommand? {
      assert c.result.receipt.status == c.to && Rank(c.to) >= Rank(Succeeded) by {
        VerdictIsTerminal(w, s.actions[k].binding, c.result, c.to);
        TerminalRank(c.to);
      }
    }
    forall j | j in u.actions
      ensures CompletedOk(w, j, u.actions[j], after.completedBy)
    {
      if j in s.actions {
        assert CompletedOk(w, j, s.actions[j], log.completedBy);
      }
    }
  }

  lemma TerminalRank(s: Status)
    requires TerminalReceiptStatus(s)
    ensures Rank(s) == Rank(Succeeded)
  {
  }

  lemma AppliedApprovals(s: System, u: System, c: Command)
    requires ApprovalsOk(s) && GrantsOk(s.store)
    requires u.evidence == s.evidence && u.log.consumedFor == s.log.consumedFor
    requires forall k :: k in s.store.actions ==> k in u.store.actions
                                                  && u.store.actions[k].binding == s.store.actions[k].binding
    requires forall k :: k in u.store.grants && k !in s.store.grants ==> c.GrantCommand? && k == Target(c)
    requires c.GrantCommand? ==>
               && Target(c) in s.store.actions
               && ApprovedFor(s.log, s.store.actions[Target(c)].binding)
    ensures ApprovalsOk(u)
  {
    forall k | k in u.store.grants && k in u.store.actions
      ensures ApprovedFor(u.log, u.store.actions[k].binding)
    {
      if k in s.store.grants {
        assert GrantOk(s.store, k);
        assert ApprovedFor(s.log, s.store.actions[k].binding);
      }
    }
  }

  /** At most the row `row` is new, and it is unpublished. */
  ghost predicate OneNewRow(s: Store, u: Store, row: Dispatch) {
    && (forall d :: d in s.dispatches ==> d in u.dispatches && u.dispatches[d] == s.dispatches[d])
    && (forall d :: d in u.dispatches && d !in s.dispatches ==>
          d == row.Id() && u.dispatches[d] == row && !Final(row))
  }

  lemma AppliedOutbox(s: System, u: System, row: Dispatch)
    requires OutboxOk(s) && OneNewRow(s.store, u.store, row)
    requires u.claims == s.claims && u.published == s.published && u.log.lost == s.log.lost
    requires u.store.claimed == s.store.claimed
    ensures OutboxOk(u)
  {
    hide ClaimOk, Deliveries, Final, MessageOf;
    forall c | c in u.claims
      ensures ClaimOk(u.store, u.claims[c])
    {
      assert ClaimOk(s.store, s.claims[c]);
      SameClaimedRow(s.store, u.store, s.claims[c]);
    }
    forall d | d in u.store.dispatches
      ensures multiset(u.published)[MessageOf(u.store.dispatches[d])] == Deliveries(u.store, u.claims, u.log.lost, d)
    {
      if d in s.store.dispatches {
        SameDeliveries(s.store, u.store, s.claims, s.log.lost, d);
      } else {
        FirstDeliveries(s, u, row);
      }
    }
  }

  lemma NewRowIsPending(s: Store, u: Store, row: Dispatch)
    requires u.dispatches == s.dispatches
             || (row.Id() !in s.dispatches && !Final(row) && u.dispatches == s.dispatches[row.Id() := row])
    ensures OneNewRow(s, u, row)
  {
  }

  lemma SameClaimedRow(s: Store, u: Store, c: Claim)
    requires ClaimOk(s, c) && u.claimed == s.claimed
    requires c.row in s.dispatches ==> c.row in u.dispatches && u.dispatches[c.row] == s.dispatches[c.row]
    ensures ClaimOk(u, c)
  {
    hide OutcomeFits;
  }

  lemma SameDeliveries(s: Store, u: Store, claims: map<nat, Claim>, lost: multiset<Key>, d: Key)
    requires d in s.dispatches && d in u.dispatches && u.dispatches[d] == s.dispatches[d]
    ensures Deliveries(u, claims, lost, d) == Deliveries(s, claims, lost, d)
  {
  }

  /** A new row has not been delivered. */
  lemma FirstDeliveries(s: System, u: System, row: Dispatch)
    requires OutboxOk(s) && row.Id() !in s.store.dispatches
    requires row.Id() in u.store.dispatches && u.store.dispatches[row.Id()] == row && !Final(row)
    ensures multiset(s.published)[MessageOf(row)] == 0
    ensures Deliveries(u.store, s.claims, s.log.lost, row.Id()) == 0
  {
    hide OutcomeFits;
    var m := MessageOf(row);
    assert Key(m.tenantRef, m.dispatchRef) == row.Id();
    assert m !in s.published;
    forall c | c in s.claims
      ensures s.claims[c].row != row.Id()
    {
      assert ClaimOk(s.store, s.claims[c]);
    }
  }

  lemma CommandKeeps(w: Wiring, s: System, t: nat, at: Time)
    requires Inv(w, s)
    ensures Inv(w, RunCommand(s, t, at))
  {
    hide StoreInv, ThreadsOk, MintedOk, HistoryOk, OneChangePerEvent, ReceiptsOk, ApprovalsOk, OutboxOk, ThreadOk;
    hide Execute, CommandOk, CommandEvent, SnapOk;
    if t in s.threads && s.threads[t].stage.Ready? {
      var Ready(c, audit, original) := s.threads[t].stage;
      var (store, r) := Execute(s.store, c, at);
      ReadyThread(w, s, t);
      if r.Err? || !r.value.1 {
        CommandIdle(s.store, c, at);
        DropKeeps(w, s, t);
      } else {
        var u := RunCommand(s, t, at);
        CommandKeepsStore(w, s.store, s.log, t, c, at);
        AppliedRecords(w, s, u, t, at);
        AppliedKeeps(w, s, u, t, at);
        AppliedThreads(w, s, u, t, at);
      }
    }
  }

  lemma ReadyThread(w: Wiring, s: System, t: nat)
    requires ThreadsOk(w, s) && t in s.threads && s.threads[t].stage.Ready?
    ensures var Ready(c, audit, original) := s.threads[t].stage;
            && CommandOk(w, s.store, s.log, t, c) && CommandEvent(s.events[audit], c)
            && audit < |s.events| && audit < |s.log.authors| && s.log.authors[audit] == t && audit !in s.log.spent
            && (original.Some? ==> SnapOk(s.store, original.value)
                                   && original.value.binding.tenantRef == s.threads[t].principal.tenantRef)
  {
    hide CommandOk, CommandEvent, SnapOk;
    assert ThreadOk(w, s, t);
  }

  lemma RunCommandGives(s: System, t: nat, at: Time)
    requires t in s.threads && s.threads[t].stage.Ready?
    requires var r := Execute(s.store, s.threads[t].stage.command, at).1; r.Ok? && r.value.1
    ensures var u, c := RunCommand(s, t, at), s.threads[t].stage.command;
            && u.store == Execute(s.store, c, at).0
            && u.log == Applied(s.log, s.store, c, s.threads[t].stage.audit)
            && u.events == s.events && u.evidence == s.evidence && u.claims == s.claims && u.published == s.published
  {
    hide Execute, Applied;
  }

  /** The records of actions after a command that changed something. */
  lemma AppliedRecords(w: Wiring, s: System, u: System, t: nat, at: Time)
    requires Inv(w, s) && u == RunCommand(s, t, at) && t in s.threads && s.threads[t].stage.Ready?
    requires var r := Execute(s.store, s.threads[t].stage.command, at).1; r.Ok? && r.value.1
    ensures HistoryOk(u) && OneChangePerEvent(u.log) && ReceiptsOk(w, u.store, u.log)
  {
    hide ThreadsOk, MintedOk, HistoryOk, OneChangePerEvent, ReceiptsOk, ApprovalsOk, OutboxOk, ThreadOk;
    hide Execute, CommandOk, CommandEvent, SnapOk, ActionsOk, GrantsOk, IdemsOk, RowsOk, Announces;
    hide CanTransition, ReceiptBinds, ApprovedFor, ActionOk, GrantOk, RunCommand;
    var Ready(c, audit, original) := s.threads[t].stage;
    RunCommandGives(s, t, at);
    ReadyThread(w, s, t);
    ActionAt(s.store, Target(c));
    CommandEffect(w, s.store, s.log, t, c, at, s.events[audit]);
    CommandGuards(w, s.store, s.log, t, c);
    AppliedHistory(s, u, c, audit);
    AppliedOneChange(s, c, audit);
    if Target(c) in s.store.actions {
      EdgesIntoSideEffects(s.store.actions[Target(c)].status, Goal(c));
    }
    AppliedReceipts(w, s.store, u.store, s.log, c, audit);
  }

  /** The other records after a command that changed something. */
  lemma AppliedKeeps(w: Wiring, s: System, u: System, t: nat, at: Time)
    requires Inv(w, s) && u == RunCommand(s, t, at) && t in s.threads && s.threads[t].stage.Ready?
    requires var r := Execute(s.store, s.threads[t].stage.command, at).1; r.Ok? && r.value.1
    requires Evolves(s.store, u.store)
    ensures MintedOk(u.store, u.log) && ApprovalsOk(u) && OutboxOk(u)
  {
    hide ThreadsOk, MintedOk, HistoryOk, OneChangePerEvent, ReceiptsOk, ApprovalsOk, OutboxOk, ThreadOk;
    hide Execute, CommandOk, CommandEvent, SnapOk, ActionsOk, GrantsOk, IdemsOk, RowsOk, Applied;
    hide ReceiptBinds, ApprovedFor, Evolves, OneNewRow, RunCommand;
    var Ready(c, audit, original) := s.threads[t].stage;
    RunCommandGives(s, t, at);
    ReadyThread(w, s, t);
    CommandRows(w, s.store, s.log, t, c, at);
    CommandGuards(w, s.store, s.log, t, c);
    AppliedLog(s.log, s.store, c, audit);
    forall k | k in s.store.actions
      ensures k in u.store.actions && u.store.actions[k].binding == s.store.actions[k].binding
    {
      BindingStable(s.store, u.store, k);
    }
    AppliedApprovals(s, u, c);
    AppliedMinted(w, s.store, u.store, s.log, u.log, t, c);
    var row := if c.DispatchCommand? then c.dispatch else NewDispatch(NO_ACTION, "", 0);
    NewRowIsPending(s.store, u.store, row);
    AppliedOutbox(s, u, row);
  }

  lemma AppliedLog(log: Log, before: Store, c: Command, audit: nat)
    ensures var after := Applied(log, before, c, audit);
            && after.minted == log.minted && after.authors == log.authors && after.consumedFor == log.consumedFor
            && after.lost == log.lost && after.spent == log.spent + {audit}
  {
  }

  /** The parts of a command's guarantee that outlive it. */
  lemma CommandGuards(w: Wiring, s: Store, log: Log, t: nat, c: Command)
    requires CommandOk(w, s, log, t, c)
    ensures c.IngestCommand? ==> Target(c) in s.actions && ReceiptBinds(w, c.result, s.actions[Target(c)].binding, c.to)
    ensures c.GrantCommand? ==> Target(c) in s.actions && ApprovedFor(log, s.actions[Target(c)].binding)
    ensures c.DispatchCommand? ==> !Final(c.dispatch)
    ensures Goal(c) == Succeeded ==> c.IngestCommand?
    ensures c.Put? ==> Target(c).ref in log.minted && log.minted[Target(c).ref] == t
    ensures c.DispatchCommand? ==> c.dispatch.dispatchRef in log.minted && log.minted[c.dispatch.dispatchRef] == t
  {
    hide ReceiptBinds, ApprovedFor, GrantFits;
  }

  lemma AppliedMinted(w: Wiring, s: Store, u: Store, log: Log, after: Log, t: nat, c: Command)
    requires MintedOk(s, log) && after.minted == log.minted
    requires c.Put? ==> Target(c).ref in log.minted
    requires c.DispatchCommand? ==> c.dispatch.dispatchRef in log.minted
    requires forall k :: k in u.actions && k !in s.actions ==> c.Put? && k == Target(c)
    requires forall d :: d in u.dispatches && d !in s.dispatches ==> c.DispatchCommand? && d == c.dispatch.Id()
    ensures MintedOk(u, after)
  {
  }

  /** The threads after a command that changed something. */
  lemma AppliedThreads(w: Wiring, s: System, u: System, t: nat, at: Time)
    requires Inv(w, s) && u == RunCommand(s, t, at) && t in s.threads && s.threads[t].stage.Ready?
    requires var r := Execute(s.store, s.threads[t].stage.command, at).1; r.Ok? && r.value.1
    requires Evolves(s.store, u.store)
    ensures ThreadsOk(w, u)
  {
    hide StoreInv, ThreadsOk, MintedOk, HistoryOk, OneChangePerEvent, ReceiptsOk, ApprovalsOk, OutboxOk, ThreadOk;
    hide Execute, CommandOk, CommandEvent, SnapOk, Evolves, Applied;
    var Ready(c, audit, original) := s.threads[t].stage;
    ReadyThread(w, s, t);
    CommandRows(w, s.store, s.log, t, c, at);
    CommandGuards(w, s.store, s.log, t, c);
    AppliedLog(s.log, s.store, c, audit);
    assert MovesOn(s, u, t);
    if t in u.threads {
      SnapStable(s.store, u.store, original.value);
      CompensatingThread(w, u, t, original.value, Execute(s.store, c, at).1.value.0.binding.actionRef);
    }
    ThreadsStable(w, s, u, t);
  }

  lemma CompensatingThread(w: Wiring, u: System, t: nat, original: Action, ref: string)
    requires t in u.threads && u.threads[t].stage == Wishing(CompensatingWish(original, ref))
    requires SnapOk(u.store, original) && original.binding.tenantRef == u.threads[t].principal.tenantRef
    ensures ThreadOk(w, u, t)
  {
  }

  // ---------------------------------------------------------------- the steps of a claimer

  /** What a claimer's step leaves alone. */
  ghost predicate OnlyOutboxMoves(s: System, u: System) {
    && Evolves(s.store, u.store)
    && u.store.actions == s.store.actions && u.store.grants == s.store.grants
    && u.store.dispatches.Keys == s.store.dispatches.Keys
    && u.events == s.events && u.evidence == s.evidence && u.threads == s.threads
    && u.log == s.log.(lost := u.log.lost, failures := u.log.failures)
  }

  lemma ThreadsSurvive(w: Wiring, s: System, u: System)
    requires ThreadsOk(w, s) && OnlyOutboxMoves(s, u)
    ensures ThreadsOk(w, u)
  {
    hide ThreadOk, Evolves;
    forall t | t in u.threads
      ensures ThreadOk(w, u, t)
    {
      assert ThreadOk(w, s, t);
      ThreadStable(w, s, u, t + 1, t);
    }
  }

  lemma ClaimerKeeps(w: Wiring, s: System, u: System)
    requires Inv(w, s) && StoreInv(u.store) && OnlyOutboxMoves(s, u) && OutboxOk(u)
    ensures Inv(w, u)
  {
    hide StoreInv, ThreadsOk, MintedOk, HistoryOk, OneChangePerEvent, ReceiptsOk, ApprovalsOk, OutboxOk, Evolves;
    ThreadsSurvive(w, s, u);
    AuthorsMatch(s);
    HistoryGrows(s, u);
    MintedRows(s.store, u.store, s.log, u.log);
    OneChangeSame(s.log, u.log);
    ReceiptsRows(w, s.store, u.store, s.log, u.log);
    ApprovalsRows(s, u);
  }

  lemma MintedRows(s: Store, u: Store, log: Log, after: Log)
    requires MintedOk(s, log) && after.minted == log.minted
    requires u.actions == s.actions && u.dispatches.Keys == s.dispatches.Keys
    ensures MintedOk(u, after)
  {
  }

  lemma ReceiptsRows(w: Wiring, s: Store, u: Store, log: Log, after: Log)
    requires ReceiptsOk(w, s, log) && u.actions == s.actions && after.completedBy == log.completedBy
    ensures ReceiptsOk(w, u, after)
  {
    hide CompletedOk;
  }

  lemma ApprovalsRows(s: System, u: System)
    requires ApprovalsOk(s) && u.store.actions == s.store.actions && u.store.grants == s.store.grants
    requires u.evidence == s.evidence && u.log.consumedFor == s.log.consumedFor
    ensures ApprovalsOk(u)
  {
    forall k | k in u.store.grants && k in u.store.actions
      ensures ApprovedFor(u.log, u.store.actions[k].binding)
    {
      assert ApprovedFor(s.log, s.store.actions[k].binding);
    }
  }

  /** Only the claimer of a row can leave a delivery of it in doubt. */
  lemma InDoubtIs(s: Store, claims: map<nat, Claim>, c: nat)
    requires ClaimsOk(s, claims) && c in claims
    ensures InDoubt(claims, claims[c].row) <==> Unstamped(claims[c])
  {
  }

  lemma InDoubtElsewhere(claims: map<nat, Claim>, after: map<nat, Claim>, c: nat, d: Key)
    requires forall e :: e != c ==> (e in claims <==> e in after)
    requires forall e :: e != c && e in claims && e in after ==> after[e] == claims[e]
    requires c in claims ==> claims[c].row != d || !Unstamped(claims[c])
    requires c in after ==> after[c].row != d || !Unstamped(after[c])
    ensures InDoubt(after, d) <==> InDoubt(claims, d)
  {
  }

  lemma RowsDiffer(s: Store, d: Key, e: Key)
    requires RowsOk(s) && d in s.dispatches && e in s.dispatches && d != e
    ensures MessageOf(s.dispatches[d]) != MessageOf(s.dispatches[e])
  {
    assert RowOk(s, d) && RowOk(s, e);
  }

  lemma AcquiredClaims(s: Store, u: Store, claims: map<nat, Claim>, c: nat, row: Key)
    requires ClaimsOk(s, claims) && row in s.dispatches && row !in s.claimed && !Final(s.dispatches[row])
    requires u == s.(claimed := s.claimed + {row})
    ensures ClaimsOk(u, claims[c := Claim(row, s.dispatches[row], Held)])
  {
    hide OutcomeFits;
    forall e | e in claims
      ensures ClaimOk(u, claims[e]) && claims[e].row != row
    {
      assert ClaimOk(s, claims[e]);
    }
  }

  lemma AcquiredOutbox(s: System, u: System, c: nat, row: Key, at: Time, eligibleOnly: bool)
    requires OutboxOk(s) && u == Acquire(s, c, row, at, eligibleOnly) && u != s
    ensures OutboxOk(u)
  {
    hide ClaimsOk, MessageOf, InDoubt;
    AcquiredClaims(s.store, u.store, s.claims, c, row);
    forall d | d in u.store.dispatches
      ensures Deliveries(u.store, u.claims, u.log.lost, d) == Deliveries(s.store, s.claims, s.log.lost, d)
    {
      InDoubtElsewhere(s.claims, u.claims, c, d);
    }
    SameDeliveryCounts(s, u);
  }

  /** Deliveries that neither appear nor disappear. */
  lemma SameDeliveryCounts(s: System, u: System)
    requires MessagesOk(s.store, s.published) && DeliveriesOk(s.store, s.claims, s.published, s.log.lost)
    requires u.published == s.published && u.store.dispatches.Keys == s.store.dispatches.Keys
    requires forall d :: d in s.store.dispatches ==> MessageOf(u.store.dispatches[d]) == MessageOf(s.store.dispatches[d])
    requires forall d :: d in s.store.dispatches ==>
               Deliveries(u.store, u.claims, u.log.lost, d) == Deliveries(s.store, s.claims, s.log.lost, d)
    requires forall d :: d in u.log.lost ==> d in s.store.dispatches
    ensures MessagesOk(u.store, u.published) && DeliveriesOk(u.store, u.claims, u.published, u.log.lost)
  {
    hide MessageOf, Deliveries;
  }

  lemma AcquireStepKeeps(w: Wiring, s: System, c: nat, row: Key, at: Time, eligibleOnly: bool)
    requires Inv(w, s)
    ensures Inv(w, Acquire(s, c, row, at, eligibleOnly))
  {
    hide StoreInv, ThreadsOk, MintedOk, HistoryOk, OneChangePerEvent, ReceiptsOk, ApprovalsOk, OutboxOk, Evolves;
    var u := Acquire(s, c, row, at, eligibleOnly);
    if u != s {
      AcquireKeeps(s.store, row, at, eligibleOnly);
      AcquiredOutbox(s, u, c, row, at, eligibleOnly);
      ClaimerKeeps(w, s, u);
    }
  }

  lemma DeliveredClaims(s: System, u: System, c: nat, failure: Option<string>, now: Time)
    requires ClaimsOk(s.store, s.claims) && u == Deliver(s, c, failure, now) && u != s
    ensures ClaimsOk(u.store, u.claims)
    ensures !Unstamped(s.claims[c]) && (Unstamped(u.claims[c]) <==> failure == None)
  {
    hide OutcomeFits, Outcome;
    assert ClaimOk(s.store, s.claims[c]);
    OutcomeRespectsBound(s.claims[c].seen, failure, now);
    forall e | e in u.claims
      ensures ClaimOk(u.store, u.claims[e])
    {
      assert ClaimOk(s.store, s.claims[e]);
    }
  }

  lemma DeliveredOutbox(s: System, u: System, c: nat, failure: Option<string>, now: Time)
    requires OutboxOk(s) && RowsOk(s.store) && u == Deliver(s, c, failure, now) && u != s
    ensures OutboxOk(u)
  {
    hide OutcomeFits, Outcome, RowsOk, MessageOf, Unstamped, InDoubt, ClaimsOk;
    var row := s.claims[c].row;
    var m := MessageOf(s.claims[c].seen);
    assert ClaimOk(s.store, s.claims[c]) by { ClaimAt(s, c); }
    DeliveredClaims(s, u, c, failure, now);
    InDoubtIs(s.store, s.claims, c);
    InDoubtIs(u.store, u.claims, c);
    assert multiset(s.published + [m]) == multiset(s.published) + multiset{m};
    forall d | d in u.store.dispatches
      ensures multiset(u.published)[MessageOf(u.store.dispatches[d])] == Deliveries(u.store, u.claims, u.log.lost, d)
    {
      if d != row {
        RowsDiffer(s.store, d, row);
        InDoubtElsewhere(s.claims, u.claims, c, d);
      }
    }
    DeliveredMessages(s, u, c);
  }

  lemma ClaimAt(s: System, c: nat)
    requires OutboxOk(s) && c in s.claims
    ensures ClaimOk(s.store, s.claims[c])
  {
  }

  lemma DeliveredMessages(s: System, u: System, c: nat)
    requires MessagesOk(s.store, s.published) && c in s.claims && ClaimOk(s.store, s.claims[c])
    requires !s.claims[c].phase.Stamped? && RowsOk(s.store)
    requires u.store == s.store
    requires u.published == s.published || u.published == s.published + [MessageOf(s.claims[c].seen)]
    ensures MessagesOk(u.store, u.published)
  {
    hide OutcomeFits;
    assert RowOk(s.store, s.claims[c].row);
  }

  lemma DeliverKeeps(w: Wiring, s: System, c: nat, failure: Option<string>, now: Time)
    requires Inv(w, s)
    ensures Inv(w, Deliver(s, c, failure, now))
  {
    hide ActionsOk, GrantsOk, IdemsOk, RowsOk, ThreadsOk, MintedOk, HistoryOk, OneChangePerEvent, ReceiptsOk, ApprovalsOk;
    hide OutboxOk, Evolves;
    var u := Deliver(s, c, failure, now);
    if u != s {
      EvolvesReflexive(s.store);
      DeliveredOutbox(s, u, c, failure, now);
      ClaimerKeeps(w, s, u);
    }
  }

  /** Recording the outcome of a claim on its row. */
  lemma StampedOutbox(s: System, u: System, c: nat, at: Time)
    requires OutboxOk(s) && u == Stamp(s, c, at) && u != s
    ensures OutboxOk(u)
  {
    hide OutcomeFits, Unstamped, InDoubt, ClaimsOk, ClaimOk, DeliveriesOk, MessagesOk, RecordOutcome;
    StampedClaims(s, u, c, at);
    forall d | d in s.store.dispatches
      ensures d in u.store.dispatches && MessageOf(u.store.dispatches[d]) == MessageOf(s.store.dispatches[d])
      ensures Deliveries(u.store, u.claims, u.log.lost, d) == Deliveries(s.store, s.claims, s.log.lost, d)
    {
      StampedDeliveries(s, u, c, at, d);
    }
    SameRowKeys(s.store, s.claims[c].row, s.claims[c].phase.outcome, at);
    LostRows(s);
    SameDeliveryCounts(s, u);
  }

  lemma SameRowKeys(s: Store, d: Key, o: DispatchOutcome, at: Time)
    ensures RecordOutcome(s, d, o, at).dispatches.Keys == s.dispatches.Keys
  {
  }

  lemma LostRows(s: System)
    requires OutboxOk(s)
    ensures forall d :: d in s.log.lost ==> d in s.store.dispatches
  {
  }

  lemma StampedDeliveries(s: System, u: System, c: nat, at: Time, d: Key)
    requires OutboxOk(s) && u == Stamp(s, c, at) && u != s && ClaimsOk(u.store, u.claims) && d in s.store.dispatches
    ensures d in u.store.dispatches && MessageOf(u.store.dispatches[d]) == MessageOf(s.store.dispatches[d])
    ensures Deliveries(u.store, u.claims, u.log.lost, d) == Deliveries(s.store, s.claims, s.log.lost, d)
  {
    hide OutcomeFits, Unstamped, InDoubt, ClaimsOk, DeliveriesOk, MessagesOk;
    var claim := s.claims[c];
    if d != claim.row {
      InDoubtElsewhere(s.claims, u.claims, c, d);
    } else {
      ClaimAt(s, c);
      InDoubtIs(s.store, s.claims, c);
      InDoubtIs(u.store, u.claims, c);
      UnstampedIs(claim);
      UnstampedIs(u.claims[c]);
    }
  }

  lemma UnstampedIs(claim: Claim)
    ensures claim.phase.Tried? ==> (Unstamped(claim) <==> claim.phase.outcome.published)
    ensures !claim.phase.Tried? ==> !Unstamped(claim)
  {
  }

  lemma StampedClaims(s: System, u: System, c: nat, at: Time)
    requires ClaimsOk(s.store, s.claims) && u == Stamp(s, c, at) && u != s
    ensures ClaimsOk(u.store, u.claims)
  {
    hide OutcomeFits;
    assert ClaimOk(s.store, s.claims[c]);
    forall e | e in u.claims
      ensures ClaimOk(u.store, u.claims[e])
    {
      assert ClaimOk(s.store, s.claims[e]);
    }
  }

  lemma StampKeeps(w: Wiring, s: System, c: nat, at: Time)
    requires Inv(w, s)
    ensures Inv(w, Stamp(s, c, at))
  {
    hide StoreInv, ThreadsOk, MintedOk, HistoryOk, OneChangePerEvent, ReceiptsOk, ApprovalsOk, OutboxOk, Evolves;
    hide OutcomeFits, Recorded;
    var u := Stamp(s, c, at);
    if u != s {
      ClaimAt(s, c);
      RecordKeeps(s.store, s.claims[c].row, s.claims[c].phase.outcome, at);
      StampedOutbox(s, u, c, at);
      ClaimerKeeps(w, s, u);
    }
  }

  lemma DroppedClaims(s: Store, u: Store, claims: map<nat, Claim>, c: nat)
    requires ClaimsOk(s, claims) && c in claims && u == ReleaseDispatch(s, claims[c].row)
    ensures ClaimsOk(u, claims - {c}) && !InDoubt(claims - {c}, claims[c].row)
  {
    hide OutcomeFits, Unstamped;
    forall e | e in claims - {c}
      ensures ClaimOk(u, claims[e]) && claims[e].row != claims[c].row
    {
      assert ClaimOk(s, claims[e]);
    }
  }

  /** Giving up a claim whose outcome is recorded, was a failure, or is from now on counted as lost. */
  lemma DroppedOutbox(s: System, u: System, c: nat)
    requires OutboxOk(s) && c in s.claims
    requires u.store == ReleaseDispatch(s.store, s.claims[c].row) && u.claims == s.claims - {c}
    requires u.published == s.published
    requires u.log.lost == s.log.lost + (if Unstamped(s.claims[c]) then multiset{s.claims[c].row} else multiset{})
    ensures OutboxOk(u)
  {
    hide Unstamped, InDoubt, ClaimsOk, MessagesOk, DeliveriesOk;
    var row := s.claims[c].row;
    DroppedClaims(s.store, u.store, s.claims, c);
    InDoubtIs(s.store, s.claims, c);
    forall d | d in u.store.dispatches
      ensures Deliveries(u.store, u.claims, u.log.lost, d) == Deliveries(s.store, s.claims, s.log.lost, d)
    {
      if d != row {
        InDoubtElsewhere(s.claims, u.claims, c, d);
      }
    }
    LostRows(s);
    assert row in s.store.dispatches by { ClaimAt(s, c); }
    SameDeliveryCounts(s, u);
  }

  lemma ReleaseStepKeeps(w: Wiring, s: System, c: nat)
    requires Inv(w, s)
    ensures Inv(w, Release(s, c))
  {
    hide StoreInv, ThreadsOk, MintedOk, HistoryOk, OneChangePerEvent, ReceiptsOk, ApprovalsOk, OutboxOk, Evolves;
    var u := Release(s, c);
    if u != s {
      ReleaseKeeps(s.store, s.claims[c].row);
      DroppedOutbox(s, u, c);
      ClaimerKeeps(w, s, u);
    }
  }

  lemma CrashKeeps(w: Wiring, s: System, c: nat)
    requires Inv(w, s)
    ensures Inv(w, Crash(s, c))
  {
    hide StoreInv, ThreadsOk, MintedOk, HistoryOk, OneChangePerEvent, ReceiptsOk, ApprovalsOk, OutboxOk, Evolves;
    var u := Crash(s, c);
    if u != s {
      ReleaseKeeps(s.store, s.claims[c].row);
      DroppedOutbox(s, u, c);
      ClaimerKeeps(w, s, u);
    }
  }
}
