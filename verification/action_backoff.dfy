/** When a row of the outbox is attempted again: what each failed delivery leaves on the stored row, in every state
    an interleaving can reach and after every drain of the in-memory store
    (services/agentnexus/internal/actions/outbox.go, model.go). */
module ActionBackoff {
  import opened ActionGuarantees
  import opened ActionMemory
  import opened ActionOps
  import opened ActionOutbox
  import opened ActionStore
  import opened ActionSystem
  import opened ActionTypes
  import opened Wrappers

  /** How long a row waits after its first, second, ... seventh failed attempt. */
  const WAITS: seq<Time> := [5 * SECOND, 10 * SECOND, 20 * SECOND, 40 * SECOND, 80 * SECOND, 160 * SECOND, 300 * SECOND]

  // ---------------------------------------------------------------- every reachable state

  /** What is stored after the failed attempts at the given times: before the eighth, the next attempt is due the wait
      for their number after the last of them. */
  ghost predicate RowTimed(row: Dispatch, failures: seq<Time>) {
    && |failures| + (if row.published then 1 else 0) == row.attempts
    && (row.attempts == 0 ==> row.nextAttemptAt == None)
    && (!row.published && 1 <= |failures| < 8 ==>
          row.nextAttemptAt == Some(failures[|failures| - 1] + WAITS[|failures| - 1]))
    && (!row.published ==> |failures| <= 8 && (row.deadLetteredAt.Some? <==> |failures| == 8))
  }

  ghost predicate ClaimTimed(c: Claim) {
    c.phase.Tried? && !c.phase.outcome.published ==>
      if c.seen.attempts < 7 then
        !c.phase.outcome.deadLetter && c.phase.outcome.nextAttemptAt == Some(c.phase.at + WAITS[c.seen.attempts])
      else c.phase.outcome.deadLetter
  }

  ghost predicate Timed(s: System) {
    && (forall d :: d in s.store.dispatches ==> RowTimed(s.store.dispatches[d], Failures(s.log, d)))
    && (forall c :: c in s.claims ==> ClaimTimed(s.claims[c]))
    && s.log.failures.Keys <= s.store.dispatches.Keys
  }

  /** Nothing about the outbox moves, except that a row may be new. */
  lemma SameTimes(s: System, u: System)
    requires Timed(s) && u.claims == s.claims && u.log.failures == s.log.failures
    requires s.store.dispatches.Keys <= u.store.dispatches.Keys
    requires forall d :: d in s.store.dispatches ==> u.store.dispatches[d] == s.store.dispatches[d]
    requires forall d :: d in u.store.dispatches && d !in s.store.dispatches ==> RowTimed(u.store.dispatches[d], [])
    ensures Timed(u)
  {
    hide RowTimed, ClaimTimed;
  }

  lemma CommandTimed(w: Wiring, s: System, t: nat, at: Time)
    requires Inv(w, s) && Timed(s)
    ensures Timed(RunCommand(s, t, at))
  {
    hide StoreInv, ThreadsOk, MintedOk, HistoryOk, OneChangePerEvent, ReceiptsOk, ApprovalsOk, OutboxOk, Timed;
    hide Execute, CommandEvent, CommandOk, SnapOk, Applied, RowTimed;
    var u := RunCommand(s, t, at);
    if t in s.threads && s.threads[t].stage.Ready? {
      var Ready(c, audit, original) := s.threads[t].stage;
      ReadyThread(w, s, t);
      CommandRows(w, s.store, s.log, t, c, at);
      AppliedFailures(s.log, s.store, c, audit);
      if c.DispatchCommand? {
        NewRow(w, s, t, c);
      }
      SameTimes(s, u);
    }
  }

  lemma AppliedFailures(log: Log, before: Store, c: Command, audit: nat)
    ensures Applied(log, before, c, audit).failures == log.failures
  {
  }

  lemma NewRow(w: Wiring, s: System, t: nat, c: Command)
    requires c.DispatchCommand? && CommandOk(w, s.store, s.log, t, c)
    ensures RowTimed(c.dispatch, [])
  {
  }

  lemma NextWait(d: Dispatch, failure: Option<string>, now: Time, c: nat, row: Key)
    ensures ClaimTimed(Claim(row, d, Tried(Outcome(d, failure, now), now)))
  {
    if d.attempts < 7 {
      BackoffSchedule();
    }
  }

  lemma StampTimed(w: Wiring, s: System, c: nat, at: Time)
    requires Inv(w, s) && Timed(s)
    ensures Timed(Stamp(s, c, at))
  {
    hide StoreInv, ThreadsOk, MintedOk, HistoryOk, OneChangePerEvent, ReceiptsOk, ApprovalsOk, OutboxOk, RowTimed;
    var u := Stamp(s, c, at);
    if u != s {
      var claim := s.claims[c];
      ClaimAt(s, c);
      assert ClaimTimed(claim);
      RecordedTimed(claim, Failures(s.log, claim.row), at);
    }
  }

  lemma RecordedTimed(claim: Claim, failures: seq<Time>, at: Time)
    requires claim.phase.Tried? && ClaimTimed(claim) && RowTimed(claim.seen, failures)
    requires OutcomeFits(claim.seen, claim.phase.outcome)
    ensures RowTimed(Recorded(claim.seen, claim.phase.outcome, at),
                     if claim.phase.outcome.published then failures else failures + [claim.phase.at])
  {
  }

  lemma NextTimed(w: Wiring, s: System, step: Step)
    requires Inv(w, s) && Timed(s)
    ensures Timed(Next(w, s, step))
  {
    hide Inv, Timed, Acquire, Deliver, Stamp, Release, Crash, RunCommand, Consume, Audit, StartThread;
    match step
    case CommandStep(t, at) => CommandTimed(w, s, t, at);
    case StampStep(c, at) => StampTimed(w, s, c, at);
    case DeliverStep(c, failure, now) => DeliverTimed(s, c, failure, now);
    case AcquireStep(c, row, at, eligibleOnly) => AcquireTimed(s, c, row, at, eligibleOnly);
    case ReleaseStep(c) => DroppedTimed(s, c);
    case CrashStep(c) => DroppedTimed(s, c);
    case _ =>
      OtherSteps(w, s, step);
      SameTimes(s, Next(w, s, step));
  }

  lemma DeliverTimed(s: System, c: nat, failure: Option<string>, now: Time)
    requires Timed(s)
    ensures Timed(Deliver(s, c, failure, now))
  {
    hide Outcome, RowTimed, ClaimTimed;
    if c in s.claims {
      NextWait(s.claims[c].seen, failure, now, c, s.claims[c].row);
    }
  }

  lemma AcquireTimed(s: System, c: nat, row: Key, at: Time, eligibleOnly: bool)
    requires Timed(s)
    ensures Timed(Acquire(s, c, row, at, eligibleOnly))
  {
    hide RowTimed, ClaimTimed, Claimable;
    if row in s.store.dispatches {
      JustHeld(row, s.store.dispatches[row]);
    }
  }

  lemma DroppedTimed(s: System, c: nat)
    requires Timed(s)
    ensures Timed(Release(s, c)) && Timed(Crash(s, c))
  {
    hide RowTimed, ClaimTimed, Unstamped;
  }

  /** Everything that is neither a store command nor a claimer's step leaves the outbox alone. */
  lemma OtherSteps(w: Wiring, s: System, step: Step)
    requires step.StartStep? || step.ConsumeStep? || step.AuditStep? || step.AbortStep? || step.SeedStep?
             || step.RevokeStep?
    ensures var u := Next(w, s, step);
            u.store == s.store && u.claims == s.claims && u.log.failures == s.log.failures
  {
    hide StartThread, Consume, Audit, Acquire, Deliver, Stamp, Release, Crash, RunCommand;
    if step.ConsumeStep? {
      ConsumingKeeps(s, step.thread);
    } else if step.StartStep? {
      StartingKeeps(w, s, step.thread, step.principal, step.op);
    } else if step.AuditStep? {
      AuditingKeeps(w, s, step.thread, step.id, step.now);
    }
  }

  lemma ConsumingKeeps(s: System, t: nat)
    ensures var u := Consume(s, t); u.store == s.store && u.claims == s.claims && u.log.failures == s.log.failures
  {
    hide ConsumeEvidence, Approves;
  }

  lemma StartingKeeps(w: Wiring, s: System, t: nat, p: Principal, op: Op)
    ensures var u := StartThread(w, s, t, p, op);
            u.store == s.store && u.claims == s.claims && u.log.failures == s.log.failures
  {
    hide Start;
  }

  lemma AuditingKeeps(w: Wiring, s: System, t: nat, id: string, now: Time)
    ensures var u := Audit(w, s, t, id, now);
            u.store == s.store && u.claims == s.claims && u.log.failures == s.log.failures
  {
    hide Prepare;
  }

  lemma JustHeld(row: Key, d: Dispatch)
    ensures ClaimTimed(Claim(row, d, Held))
  {
  }

  lemma {:induction false} RunTimed(w: Wiring, s: System, steps: seq<Step>)
    requires Inv(w, s) && Timed(s)
    ensures Timed(Run(w, s, steps))
    decreases |steps|
  {
    hide Inv, Next, Timed;
    if steps != [] {
      NextKeeps(w, s, steps[0]);
      NextTimed(w, s, steps[0]);
      RunTimed(w, Next(w, s, steps[0]), steps[1..]);
    }
  }

  /** In every reachable state: a pending row with n failed attempts recorded, n from 1 to 7, is due exactly the n-th of
      5, 10, 20, 40, 80, 160 and 300 seconds after its n-th failure; a row that never failed has no due time; and a row
      is dead-lettered exactly when it has failed eight times. */
  lemma BackoffOfEveryRow(w: Wiring, steps: seq<Step>, d: Key)
    requires d in Run(w, INITIAL, steps).store.dispatches
    ensures var s := Run(w, INITIAL, steps);
            var row, failures := s.store.dispatches[d], Failures(s.log, d);
            && (row.attempts == 0 ==> row.nextAttemptAt == None)
            && (!row.published ==>
                  && row.attempts == |failures| <= 8
                  && (row.deadLetteredAt.Some? <==> |failures| == 8)
                  && (1 <= |failures| <= 7 ==>
                        row.nextAttemptAt
                        == Some(failures[|failures| - 1] + [5, 10, 20, 40, 80, 160, 300][|failures| - 1] * SECOND)))
  {
    hide Run, Inv;
    InitialInv(w);
    RunTimed(w, INITIAL, steps);
    assert RowTimed(Run(w, INITIAL, steps).store.dispatches[d], Failures(Run(w, INITIAL, steps).log, d));
  }

  /** The times are those of the failed deliveries: recording one appends when it was made. */
  lemma FailureIsRecorded(w: Wiring, s: System, c: nat, failure: string, now: Time, at: Time)
    requires c in s.claims && s.claims[c].phase.Held?
    ensures var d, u := s.claims[c].row, Stamp(Deliver(s, c, Some(failure), now), c, at);
            Failures(u.log, d) == Failures(s.log, d) + [now]
  {
  }

  /** A drain never takes a row before it is due, and may take it from then on: with n failures recorded, not before
      the n-th wait after the last of them has passed; without any, at once. */
  lemma TakenWhenDue(w: Wiring, steps: seq<Step>, c: nat, d: Key, at: Time)
    requires d in Run(w, INITIAL, steps).store.dispatches && c !in Run(w, INITIAL, steps).claims
    ensures var s := Run(w, INITIAL, steps);
            var row, failures := s.store.dispatches[d], Failures(s.log, d);
            c in Acquire(s, c, d, at, true).claims <==>
              && d !in s.store.claimed && !row.published && |failures| < 8
              && (failures != [] ==>
                    at >= failures[|failures| - 1] + [5, 10, 20, 40, 80, 160, 300][|failures| - 1] * SECOND)
  {
    hide Run;
    BackoffOfEveryRow(w, steps, d);
  }

  // ---------------------------------------------------------------- drains of the in-memory store

  /** What a drain leaves on each row it attempted, by how the transport answered and when. */
  lemma DrainedRow(s: Store, tenant: string, at: Time, order: seq<Key>, transport: Transport, d: Key)
    requires OldestFirst(s, tenant, at, order) && d in order
    ensures d in s.dispatches && !s.dispatches[d].published && s.dispatches[d].deadLetteredAt == None
    ensures var row, after := s.dispatches[d], Drained(s, order, Answer(transport), at).dispatches[d];
            var message := DispatchMessage(row.tenantRef, row.actionRef, row.dispatchRef, row.capability,
                                           row.parameterHash, row.grantRef, row.kind);
            && after.attempts == row.attempts + 1
            && (transport.failure(message) == None ==> after.published && after.publishedAt == Some(at))
            && (transport.failure(message).Some? ==>
                  && !after.published && after.lastError == transport.failure(message).value
                  && (row.attempts >= 7 ==> after.deadLetteredAt == Some(at) && after.nextAttemptAt == None)
                  && (row.attempts < 7 ==>
                        && after.deadLetteredAt == None
                        && after.nextAttemptAt
                           == Some(transport.clock(message) + [5, 10, 20, 40, 80, 160, 300][row.attempts] * SECOND)))
  {
    hide Outcome, Recorded;
    var row := s.dispatches[d];
    assert Answer(transport)(row) == Outcome(row, transport.failure(MessageOf(row)), transport.clock(MessageOf(row)));
    AttemptedRow(row, transport.failure(MessageOf(row)), transport.clock(MessageOf(row)), at);
  }

  lemma AttemptedRow(row: Dispatch, failure: Option<string>, now: Time, at: Time)
    requires !row.published && row.deadLetteredAt == None
    ensures var after := Recorded(row, Outcome(row, failure, now), at);
            && after.attempts == row.attempts + 1
            && (failure == None ==> after.published && after.publishedAt == Some(at))
            && (failure.Some? ==>
                  && !after.published && after.lastError == failure.value
                  && (row.attempts >= 7 ==> after.deadLetteredAt == Some(at) && after.nextAttemptAt == None)
                  && (row.attempts < 7 ==>
                        && after.deadLetteredAt == None
                        && after.nextAttemptAt == Some(now + [5, 10, 20, 40, 80, 160, 300][row.attempts] * SECOND)))
  {
    BackoffSchedule();
  }

  /** A drain attempts a row only if it is pending, not in flight, and due. */
  lemma DrainedWhenDue(s: Store, tenant: string, at: Time, order: seq<Key>, d: Key)
    requires OldestFirst(s, tenant, at, order) && d in order
    ensures d in s.dispatches && d.tenant == tenant && d !in s.claimed
    ensures var row := s.dispatches[d];
            && !row.published && row.deadLetteredAt == None
            && (row.nextAttemptAt.Some? ==> row.nextAttemptAt.value <= at)
  {
  }

  /** Rows are attempted once, in the order of their creation, and none that is due is passed over for a younger one. */
  lemma DrainOrder(s: Store, tenant: string, at: Time, order: seq<Key>, i: nat, j: nat, d: Key)
    requires OldestFirst(s, tenant, at, order) && i < j < |order|
    ensures order[i] != order[j] && order[i] in s.dispatches && order[j] in s.dispatches
    ensures s.dispatches[order[i]].createdAt <= s.dispatches[order[j]].createdAt
    ensures Eligible(s, tenant, at, d) && d !in order ==> s.dispatches[order[j]].createdAt <= s.dispatches[d].createdAt
  {
    hide Claimable;
  }

  /** And every such row can be attempted. */
  lemma DueMeansEligible(s: Store, tenant: string, at: Time, d: Key)
    requires d in s.dispatches && d.tenant == tenant && d !in s.claimed
    requires var row := s.dispatches[d];
             && !row.published && row.deadLetteredAt == None
             && (row.nextAttemptAt.Some? ==> row.nextAttemptAt.value <= at)
    ensures Eligible(s, tenant, at, d)
  {
  }
}
