/** Operations run one at a time: each is a run of the interleaved system, and its changes appear in the audit log
    with their statuses and in their order. */
module ActionSequential {
  import opened ActionGuarantees
  import opened ActionMemory
  import opened ActionOps
  import opened ActionOutbox
  import opened ActionState
  import opened ActionStore
  import opened ActionSystem
  import opened ActionTypes
  import opened Wrappers

  // ---------------------------------------------------------------- an operation is a run

  /** The system holds what the ports hold. */
  ghost predicate Mirrors(s: System, world: World) {
    s.store == world.store && s.events == world.events && s.evidence == world.evidence
  }

  /** The steps of one operation on the thread t, undisturbed; steps it has no use for change nothing. The second
      audit of a compensation mints nothing, so its id is never used. */
  function OpSteps(
      t: nat, p: Principal, op: Op, id: string, unused: string, now: Time, firstFails: bool, secondFails: bool)
    : seq<Step>
  {
    [StartStep(t, p, op), ConsumeStep(t)] + WishSteps(t, id, now, firstFails)
    + WishSteps(t, unused, now, firstFails || secondFails) + [AbortStep(t)]
  }

  function WishSteps(t: nat, id: string, now: Time, fails: bool): seq<Step> {
    if fails then [] else [AuditStep(t, id, now), CommandStep(t, now)]
  }

  /** Audit and command of a wish, unless the append fails. */
  function AfterWish(w: Wiring, s: System, t: nat, id: string, now: Time, fails: bool): System {
    if fails then s else RunCommand(Audit(w, s, t, id, now), t, now)
  }

  predicate WishPrepares(w: Wiring, world: World, p: Principal, wish: Wish, id: string, now: Time) {
    Prepare(w, p, wish, id, |world.events| + 1, now).Ok?
  }

  /** The threads after a wish: gone with the thread t unless it goes on to move an original. */
  function ThreadsAfter(
      threads: map<nat, Thread>, t: nat, wish: Wish, r: Result<(Action, bool), Error>): map<nat, Thread>
    requires t in threads
  {
    if r.Ok? && r.value.1 && wish.WantCompensation? && wish.original.status != Compensating
    then threads[t := Thread(threads[t].principal, Wishing(CompensatingWish(wish.original, r.value.0.binding.actionRef)))]
    else threads - {t}
  }

  lemma WishIsRun(w: Wiring, s: System, world: World, t: nat, id: string, now: Time)
    requires t in s.threads && s.threads[t].stage.Wishing? && id !in s.log.minted && Mirrors(s, world)
    ensures var p, wish, fails := s.threads[t].principal, s.threads[t].stage.wish, world.outages(world.attempts);
            var u, (after, r) := AfterWish(w, s, t, id, now, fails), RunWish(w, world, p, wish, id, now);
            && Mirrors(u, after) && u.log.minted.Keys <= s.log.minted.Keys + {id}
            && after.outages == world.outages
            && (if !WishPrepares(w, world, p, wish, id, now) then after == world && u == s && r.Err?
                else after.attempts == world.attempts + 1
                     && (fails ==> u == s && r.Err?)
                     && (!fails ==> u.threads == ThreadsAfter(s.threads, t, wish, r)))
  {
    hide Prepare, Execute;
    var wish := s.threads[t].stage.wish;
    var prepared := Prepare(w, s.threads[t].principal, wish, id, |s.events| + 1, now);
    if prepared.Ok? && !world.outages(world.attempts) {
      PreparedIsRun(w, s, t, id, now);
    }
  }

  lemma PreparedIsRun(w: Wiring, s: System, t: nat, id: string, now: Time)
    requires t in s.threads && s.threads[t].stage.Wishing? && id !in s.log.minted
    requires Prepare(w, s.threads[t].principal, s.threads[t].stage.wish, id, |s.events| + 1, now).Ok?
    ensures var wish, u := s.threads[t].stage.wish, RunCommand(Audit(w, s, t, id, now), t, now);
            var prepared := Prepare(w, s.threads[t].principal, wish, id, |s.events| + 1, now).value;
            var (store, r) := Execute(s.store, prepared.command, now);
            && u.store == store && u.events == s.events + [prepared.event] && u.evidence == s.evidence
            && u.log.minted == s.log.minted[id := t]
            && u.threads == ThreadsAfter(s.threads, t, wish, r)
  {
    hide Prepare, Execute;
    var wish := s.threads[t].stage.wish;
    var prepared := Prepare(w, s.threads[t].principal, wish, id, |s.events| + 1, now).value;
    var mid := Audit(w, s, t, id, now);
    assert mid.threads[t].stage == Ready(prepared.command, |s.events|, OriginalOf(wish));
    var (store, r) := Execute(mid.store, prepared.command, now);
    if r.Err? || !r.value.1 {
      CommandIdle(mid.store, prepared.command, now);
    }
    assert mid.threads - {t} == s.threads - {t};
  }

  /** Neither kind of reference, so no wish can mint it. */
  predicate Unmintable(id: string) {
    !IsHandle(id, "act_") && !IsHandle(id, "grant_")
  }

  lemma UnmintableFails(w: Wiring, p: Principal, wish: Wish, id: string, unused: string, auditRef: nat, now: Time)
    requires Prepare(w, p, wish, id, auditRef, now).Err? && Unmintable(unused)
    ensures Prepare(w, p, wish, unused, auditRef, now).Err?
  {
    hide IsHandle;
  }

  lemma CompensationRef(w: Wiring, world: World, p: Principal, wish: Wish, id: string, now: Time)
    requires wish.WantCompensation? && RunWish(w, world, p, wish, id, now).1.Ok?
    requires RunWish(w, world, p, wish, id, now).1.value.1
    ensures RunWish(w, world, p, wish, id, now).1.value.0.binding.actionRef == id
  {
  }

  /** What a compensating wish does depends on no new id. */
  lemma NoIdNeeded(w: Wiring, world: World, p: Principal, wish: Wish, id: string, unused: string, now: Time)
    requires wish.WantAdvance?
    ensures RunWish(w, world, p, wish, id, now) == RunWish(w, world, p, wish, unused, now)
    ensures WishPrepares(w, world, p, wish, id, now)
  {
  }

  /** The world after a started operation that is not waiting for evidence any more. */
  function RunStarted(w: Wiring, world: World, p: Principal, wish: Wish, id: string, now: Time): World {
    if wish.WantCompensation? then RunCompensate(w, world, p, wish.original, id, now).0
    else RunWish(w, world, p, wish, id, now).0
  }

  lemma StartedIsRun(w: Wiring, s: System, world: World, t: nat, id: string, unused: string, now: Time)
    requires t in s.threads && s.threads.Keys == {t} && s.threads[t].stage.Wishing? && Mirrors(s, world)
    requires id !in s.log.minted && unused !in s.log.minted && id != unused && Unmintable(unused)
    ensures var first := world.outages(world.attempts);
            var second := first || world.outages(world.attempts + 1);
            var u := Drop(AfterWish(w, AfterWish(w, s, t, id, now, first), t, unused, now, second), t);
            var after := RunStarted(w, world, s.threads[t].principal, s.threads[t].stage.wish, id, now);
            && Mirrors(u, after) && u.threads == map[] && after.outages == world.outages
            && u.log.minted.Keys <= s.log.minted.Keys + {id, unused}
  {
    hide AfterWish, RunWish, Prepare, IsHandle, Unmintable, Mirrors;
    var p, wish := s.threads[t].principal, s.threads[t].stage.wish;
    var first := world.outages(world.attempts);
    var second := first || world.outages(world.attempts + 1);
    var mid := AfterWish(w, s, t, id, now, first);
    var after := RunWish(w, world, p, wish, id, now).0;
    WishIsRun(w, s, world, t, id, now);
    if second {
      SkippedWish(w, mid, t, unused, now);
      DropsAll(mid, t);
      if !first && t in mid.threads && WishPrepares(w, world, p, wish, id, now) {
        CompensationRef(w, world, p, wish, id, now);
        var next := mid.threads[t].stage.wish;
        FailedWish(w, after, p, next, id, now);
        MirrorsTried(mid, after);
      }
    } else if !WishPrepares(w, world, p, wish, id, now) {
      UnmintableFails(w, p, wish, id, unused, |world.events| + 1, now);
      WishIsRun(w, mid, world, t, unused, now);
      MirrorsEvents(s, world);
      DropsAll(mid, t);
    } else if t in mid.threads {
      var next := mid.threads[t].stage.wish;
      CompensationRef(w, world, p, wish, id, now);
      WishIsRun(w, mid, after, t, unused, now);
      NoIdNeeded(w, after, p, next, id, unused, now);
      DropsAll(AfterWish(w, mid, t, unused, now, second), t);
    } else {
      IdleThread(w, mid, t, unused, now, second);
    }
  }

  lemma SkippedWish(w: Wiring, s: System, t: nat, id: string, now: Time)
    ensures AfterWish(w, s, t, id, now, true) == s
  {
  }

  lemma MirrorsEvents(s: System, world: World)
    requires Mirrors(s, world)
    ensures |s.events| == |world.events|
  {
  }

  lemma MirrorsTried(s: System, world: World)
    requires Mirrors(s, world)
    ensures Mirrors(s, world.(attempts := world.attempts + 1))
  {
  }

  lemma DropsAll(s: System, t: nat)
    requires s.threads.Keys <= {t}
    ensures Drop(s, t).threads == map[] && Drop(s, t).log == s.log
    ensures forall world :: Mirrors(s, world) ==> Mirrors(Drop(s, t), world)
  {
  }

  /** A compensating wish whose append fails. */
  lemma FailedWish(w: Wiring, world: World, p: Principal, wish: Wish, id: string, now: Time)
    requires wish.WantAdvance? && world.outages(world.attempts)
    ensures RunWish(w, world, p, wish, id, now) == (world.(attempts := world.attempts + 1), Err(Unavailable))
  {
  }

  lemma IdleThread(w: Wiring, s: System, t: nat, id: string, now: Time, fails: bool)
    requires t !in s.threads
    ensures AfterWish(w, s, t, id, now, fails) == s && Drop(s, t) == s && Consume(s, t) == s
  {
    assert s.threads - {t} == s.threads;
  }

  /** The thread after its read and, if it needs approval, the consumption of its evidence. */
  function Opened(w: Wiring, s: System, t: nat, p: Principal, op: Op): System {
    Consume(StartThread(w, s, t, p, op), t)
  }

  /** The ports when the first wish of an operation is prepared. */
  ghost predicate OpenedAs(w: Wiring, u: System, world: World, after: World, t: nat, p: Principal, id: string, now: Time) {
    if t !in u.threads then u.threads == map[] && Mirrors(u, after) && after.outages == world.outages
    else
      && u.threads.Keys == {t} && u.threads[t].stage.Wishing? && u.threads[t].principal == p
      && var ports := world.(evidence := u.evidence);
         Mirrors(u, ports) && after == RunStarted(w, ports, p, u.threads[t].stage.wish, id, now)
  }

  lemma OpenedForEvidence(w: Wiring, s: System, world: World, t: nat, p: Principal, a: Action, id: string, now: Time)
    requires s.threads == map[t := Thread(p, Wishing(WantEvidence(a)))] && a.binding.tenantRef == p.tenantRef
    requires Mirrors(s, world)
    ensures var u, after := Consume(s, t), RunGrantWithEvidence(w, world, p, a, id, now).0;
            u.log.minted == s.log.minted && OpenedAs(w, u, world, after, t, p, id, now)
  {
    hide RunWish, Approves, ConsumeEvidence;
    var plan := Key(p.tenantRef, a.binding.approvalPlanRef);
    var (evidence, r) := ConsumeEvidence(s.evidence, plan);
    if r.Err? || !Approves(r.value, a.binding) {
      assert Consume(s, t).threads == s.threads - {t} == map[];
    } else {
      assert Consume(s, t).threads == map[t := Thread(p, Wishing(WantGrant(a, r.value.approvalRef)))];
    }
  }

  lemma RunOpIs(w: Wiring, world: World, p: Principal, op: Op, id: string, now: Time)
    ensures match Start(w, world.store, p, op)
            case Ok(Continue(wish)) =>
              RunOp(w, world, p, op, id, now).0
              == (if wish.WantEvidence? then RunGrantWithEvidence(w, world, p, wish.action, id, now).0
                  else RunStarted(w, world, p, wish, id, now))
            case _ => RunOp(w, world, p, op, id, now).0 == world
  {
    hide Start, RunWish, RunCompensate, RunGrantWithEvidence;
  }

  /** What the first two steps leave: the ports a wish starts from, or the end of the operation. */
  lemma OpenedWorld(w: Wiring, s: System, world: World, t: nat, p: Principal, op: Op, id: string, now: Time)
    requires s.threads == map[] && StoreInv(s.store) && Mirrors(s, world)
    ensures var u, after := Opened(w, s, t, p, op), RunOp(w, world, p, op, id, now).0;
            u.log.minted == s.log.minted && OpenedAs(w, u, world, after, t, p, id, now)
  {
    hide Start, RunStarted, StoreInv, RunOp, RunGrantWithEvidence, Consume;
    RunOpIs(w, world, p, op, id, now);
    var mid := StartThread(w, s, t, p, op);
    if Start(w, s.store, p, op).Ok? && Start(w, s.store, p, op).value.Continue? {
      var wish := Start(w, s.store, p, op).value.wish;
      assert mid.threads == map[t := Thread(p, Wishing(wish))];
      if wish.WantEvidence? {
        OwnTenant(w, s.store, s.log, p, op, wish);
        OpenedForEvidence(w, mid, world, t, p, wish.action, id, now);
      } else {
        NothingToConsume(mid, t);
      }
    } else {
      NothingToConsume(mid, t);
    }
  }

  lemma NothingToConsume(s: System, t: nat)
    requires t in s.threads && s.threads[t].stage.Wishing? ==> !s.threads[t].stage.wish.WantEvidence?
    ensures Consume(s, t) == s
  {
  }

  lemma OwnTenant(w: Wiring, s: Store, log: Log, p: Principal, op: Op, wish: Wish)
    requires StoreInv(s) && Start(w, s, p, op) == Ok(Continue(wish)) && wish.WantEvidence?
    ensures wish.action.binding.tenantRef == p.tenantRef
  {
    hide StoreInv, Start, SnapOk;
    StartGives(w, s, log, p, op, wish);
  }

  lemma TwoSteps(w: Wiring, s: System, a: Step, b: Step)
    ensures Run(w, s, [a, b]) == Next(w, Next(w, s, a), b)
  {
    hide Next;
    assert [a, b][1..] == [b] && [b][1..] == [];
    assert Run(w, Next(w, s, a), [b]) == Next(w, Next(w, s, a), b);
  }

  lemma RunWishSteps(w: Wiring, s: System, t: nat, id: string, now: Time, fails: bool)
    ensures Run(w, s, WishSteps(t, id, now, fails)) == AfterWish(w, s, t, id, now, fails)
  {
    hide Run, Audit, RunCommand;
    if fails {
      RunNothing(w, s);
    } else {
      TwoSteps(w, s, AuditStep(t, id, now), CommandStep(t, now));
    }
  }

  lemma RunOpened(w: Wiring, s: System, t: nat, p: Principal, op: Op)
    ensures Run(w, s, [StartStep(t, p, op), ConsumeStep(t)]) == Opened(w, s, t, p, op)
  {
    hide Run, StartThread, Consume;
    TwoSteps(w, s, StartStep(t, p, op), ConsumeStep(t));
  }

  lemma LastStep(w: Wiring, s: System, step: Step)
    ensures Run(w, s, [step]) == Next(w, s, step)
  {
    hide Next;
    assert [step][1..] == [];
  }

  lemma StepsOfOp(
      w: Wiring, s: System, t: nat, p: Principal, op: Op, id: string, unused: string, now: Time, firstFails: bool,
      secondFails: bool)
    ensures var second := firstFails || secondFails;
            Run(w, s, OpSteps(t, p, op, id, unused, now, firstFails, secondFails))
            == Drop(AfterWish(w, AfterWish(w, Opened(w, s, t, p, op), t, id, now, firstFails), t, unused, now, second), t)
  {
    hide Run, Opened, AfterWish, WishSteps, Drop;
    var a, b := [StartStep(t, p, op), ConsumeStep(t)], WishSteps(t, id, now, firstFails);
    var c, d := WishSteps(t, unused, now, firstFails || secondFails), [AbortStep(t)];
    RunAppend(w, s, a + b + c, d);
    RunAppend(w, s, a + b, c);
    RunAppend(w, s, a, b);
    RunOpened(w, s, t, p, op);
    RunWishSteps(w, Opened(w, s, t, p, op), t, id, now, firstFails);
    RunWishSteps(w, AfterWish(w, Opened(w, s, t, p, op), t, id, now, firstFails), t, unused, now, firstFails || secondFails);
    LastStep(w, Run(w, s, a + b + c), AbortStep(t));
  }

  /** An operation of the service that nothing interrupts is a run of the interleaved system, whichever of its audit
      appends fail, so every guarantee over all runs holds of it. */
  lemma OpIsRun(
      w: Wiring, s: System, world: World, t: nat, p: Principal, op: Op, id: string, unused: string, now: Time)
    requires s.threads == map[] && StoreInv(s.store) && Mirrors(s, world)
    requires id !in s.log.minted && unused !in s.log.minted && id != unused && Unmintable(unused)
    ensures var u := Run(w, s, OpSteps(t, p, op, id, unused, now, world.outages(world.attempts),
                                       world.outages(world.attempts + 1)));
            var after := RunOp(w, world, p, op, id, now).0;
            && Mirrors(u, after) && u.threads == map[] && after.outages == world.outages
            && u.log.minted.Keys <= s.log.minted.Keys + {id, unused}
  {
    hide Run, StoreInv, RunOp, Opened, AfterWish, RunStarted, IsHandle, Unmintable;
    var first, second := world.outages(world.attempts), world.outages(world.attempts + 1);
    StepsOfOp(w, s, t, p, op, id, unused, now, first, second);
    OpenedWorld(w, s, world, t, p, op, id, now);
    var u := Opened(w, s, t, p, op);
    if t in u.threads {
      StartedIsRun(w, u, world.(evidence := u.evidence), t, id, unused, now);
    } else {
      IdleThread(w, u, t, id, now, first);
      IdleThread(w, u, t, unused, now, first || second);
    }
  }

  // ---------------------------------------------------------------- the service from its start

  /** What happens to a service nobody disturbs: operations, and evidence arriving or being revoked. */
  datatype Call =
    | Operation(principal: Principal, op: Op, id: string, unused: string, now: Time)
    | Arrival(tenant: string, record: ConsumedEvidence)
    | Revocation(plan: Key)

  function Called(w: Wiring, world: World, call: Call): World {
    match call
    case Operation(p, op, id, _, now) => RunOp(w, world, p, op, id, now).0
    case Arrival(tenant, record) =>
      world.(evidence := world.evidence.(records := world.evidence.records[Key(tenant, record.planRef) := record]))
    case Revocation(plan) => world.(evidence := world.evidence.(revoked := world.evidence.revoked + {plan}))
  }

  function NewWorld(outages: nat -> bool): World {
    World(EMPTY, [], Evidence(map[], {}, {}), 0, outages)
  }

  /** The ports after the calls, one after the other, from empty ones. */
  function After(w: Wiring, outages: nat -> bool, calls: seq<Call>): World
    decreases |calls|
  {
    if calls == [] then NewWorld(outages)
    else Called(w, After(w, outages, calls[..|calls| - 1]), calls[|calls| - 1])
  }

  function CallSteps(world: World, t: nat, call: Call): seq<Step> {
    match call
    case Operation(p, op, id, unused, now) =>
      OpSteps(t, p, op, id, unused, now, world.outages(world.attempts), world.outages(world.attempts + 1))
    case Arrival(tenant, record) => [SeedStep(tenant, record)]
    case Revocation(plan) => [RevokeStep(plan)]
  }

  function AllSteps(w: Wiring, outages: nat -> bool, t: nat, calls: seq<Call>): seq<Step>
    decreases |calls|
  {
    if calls == [] then []
    else
      var init := calls[..|calls| - 1];
      AllSteps(w, outages, t, init) + CallSteps(After(w, outages, init), t, calls[|calls| - 1])
  }

  function IdsOf(call: Call): set<string> {
    if call.Operation? then {call.id, call.unused} else {}
  }

  /** Generated ids are new. */
  ghost predicate NewIds(calls: seq<Call>) {
    && (forall i :: 0 <= i < |calls| && calls[i].Operation? ==>
          calls[i].id != calls[i].unused && Unmintable(calls[i].unused))
    && (forall i, j :: 0 <= i < j < |calls| ==> IdsOf(calls[i]) !! IdsOf(calls[j]))
  }

  /** A service nobody disturbs runs through states of the interleaved system, with one operation at a time. */
  lemma {:induction false} CallsAreRun(w: Wiring, outages: nat -> bool, t: nat, calls: seq<Call>)
    requires NewIds(calls)
    ensures var s := Run(w, INITIAL, AllSteps(w, outages, t, calls));
            && Mirrors(s, After(w, outages, calls)) && s.threads == map[]
            && (forall id :: id in s.log.minted ==> exists i :: 0 <= i < |calls| && id in IdsOf(calls[i]))
    ensures Solo(t, AllSteps(w, outages, t, calls))
    decreases |calls|
  {
    hide Run, Inv, Next, RunOp, OpSteps, Unmintable;
    if calls == [] {
      RunNothing(w, INITIAL);
    } else {
      var init, call := calls[..|calls| - 1], calls[|calls| - 1];
      CallsAreRun(w, outages, t, init);
      var before, world := AllSteps(w, outages, t, init), After(w, outages, init);
      var s := Run(w, INITIAL, before);
      RunAppend(w, INITIAL, before, CallSteps(world, t, call));
      assert forall i :: 0 <= i < |init| ==> init[i] == calls[i];
      assert forall id :: id in s.log.minted ==> id !in IdsOf(call);
      OneCallIsRun(w, before, s, world, t, call);
      SoloAppend(t, before, CallSteps(world, t, call));
      var u := Run(w, s, CallSteps(world, t, call));
      forall id | id in u.log.minted
        ensures exists i :: 0 <= i < |calls| && id in IdsOf(calls[i])
      {
        if id in IdsOf(call) {
          assert id in IdsOf(calls[|calls| - 1]);
        } else {
          var i :| 0 <= i < |init| && id in IdsOf(init[i]);
          assert id in IdsOf(calls[i]);
        }
      }
    }
  }

  lemma OneCallIsRun(w: Wiring, before: seq<Step>, s: System, world: World, t: nat, call: Call)
    requires s == Run(w, INITIAL, before) && Mirrors(s, world) && s.threads == map[]
    requires forall id :: id in s.log.minted ==> id !in IdsOf(call)
    requires call.Operation? ==> call.id != call.unused && Unmintable(call.unused)
    ensures var u := Run(w, s, CallSteps(world, t, call));
            && Mirrors(u, Called(w, world, call)) && u.threads == map[]
            && u.log.minted.Keys <= s.log.minted.Keys + IdsOf(call)
    ensures Solo(t, CallSteps(world, t, call))
  {
    hide Run, RunOp, OpSteps, Unmintable;
    match call
    case Operation(p, op, id, unused, now) =>
      hide Inv;
      ReachableStore(w, before);
      OpIsRun(w, s, world, t, p, op, id, unused, now);
      OpIsSolo(t, p, op, id, unused, now, world.outages(world.attempts), world.outages(world.attempts + 1));
    case Arrival(tenant, record) => LastStep(w, s, SeedStep(tenant, record));
    case Revocation(plan) => LastStep(w, s, RevokeStep(plan));
  }

  lemma ReachableStore(w: Wiring, steps: seq<Step>)
    ensures StoreInv(Run(w, INITIAL, steps).store)
  {
    hide Run, StoreInv, ThreadsOk, MintedOk, HistoryOk, OneChangePerEvent, ReceiptsOk, ApprovalsOk, OutboxOk;
    ReachableInv(w, steps);
  }

  lemma SoloAppend(t: nat, a: seq<Step>, b: seq<Step>)
    requires Solo(t, a) && Solo(t, b)
    ensures Solo(t, a + b)
  {
  }

  // ---------------------------------------------------------------- lineage in order

  /** Only the thread t runs operations; claimers and evidence changes may interleave. */
  predicate Solo(t: nat, steps: seq<Step>) {
    forall step :: step in steps ==>
      (step.StartStep? || step.ConsumeStep? || step.AuditStep? || step.CommandStep? || step.AbortStep?) ==>
      step.thread == t
  }

  ghost predicate Increasing(past: seq<Change>) {
    forall i, j :: 0 <= i < j < |past| ==> past[i].audit < past[j].audit
  }

  ghost predicate Orderly(s: System, t: nat) {
    && s.threads.Keys <= {t}
    && (t in s.threads && s.threads[t].stage.Ready? ==> forall a :: a in s.log.spent ==> a < s.threads[t].stage.audit)
    && (forall k :: k in s.log.history ==> Increasing(s.log.history[k]))
  }

  lemma SpentHistory(s: System, k: Key)
    requires HistoryOk(s) && k in s.log.history
    ensures forall i :: 0 <= i < |s.log.history[k]| ==> s.log.history[k][i].audit in s.log.spent
  {
    hide Announces, CanTransition;
    assert PastOk(k, s.store.actions[k].status, s.log.history[k], s.events, s.log.spent);
  }

  lemma AppliedOrderly(s: System, c: Command, audit: nat)
    requires HistoryOk(s) && forall a :: a in s.log.spent ==> a < audit
    requires forall k :: k in s.log.history ==> Increasing(s.log.history[k])
    ensures var log := Applied(s.log, s.store, c, audit);
            forall k :: k in log.history ==> Increasing(log.history[k])
  {
    hide HistoryOk;
    if Target(c) in s.log.history {
      SpentHistory(s, Target(c));
    }
  }

  lemma CommandOrderly(s: System, t: nat, at: Time)
    requires HistoryOk(s) && Orderly(s, t)
    ensures Orderly(RunCommand(s, t, at), t)
  {
    hide Execute, HistoryOk, Increasing, Applied;
    if t in s.threads && s.threads[t].stage.Ready? {
      AppliedOrderly(s, s.threads[t].stage.command, s.threads[t].stage.audit);
    }
  }

  predicate ByClaimer(step: Step) {
    step.AcquireStep? || step.DeliverStep? || step.StampStep? || step.ReleaseStep? || step.CrashStep?
  }

  lemma ClaimersApplyNothing(w: Wiring, s: System, step: Step)
    requires ByClaimer(step)
    ensures Next(w, s, step).threads == s.threads
    ensures Next(w, s, step).log
            == s.log.(lost := Next(w, s, step).log.lost, failures := Next(w, s, step).log.failures)
  {
    hide AcquireDispatch, RecordOutcome, ReleaseDispatch, Outcome;
  }

  lemma NextOrderly(w: Wiring, s: System, t: nat, step: Step)
    requires HistoryOk(s) && Orderly(s, t) && Solo(t, [step])
    ensures Orderly(Next(w, s, step), t)
  {
    hide Start, Prepare, RunCommand, ConsumeEvidence, Increasing, Acquire, Deliver, Stamp, Release, Crash, HistoryOk;
    assert step in [step];
    AuthorsMatch(s);
    if step.CommandStep? {
      CommandOrderly(s, t, step.at);
    } else if ByClaimer(step) {
      ClaimersApplyNothing(w, s, step);
    }
  }

  lemma {:induction false} RunOrderly(w: Wiring, s: System, t: nat, steps: seq<Step>)
    requires Inv(w, s) && Orderly(s, t) && Solo(t, steps)
    ensures Orderly(Run(w, s, steps), t)
    decreases |steps|
  {
    hide Next, StoreInv, ThreadsOk, MintedOk, HistoryOk, OneChangePerEvent, ReceiptsOk, ApprovalsOk, OutboxOk, Orderly;
    if steps != [] {
      assert steps[0] in steps;
      NextOrderly(w, s, t, steps[0]);
      NextKeeps(w, s, steps[0]);
      RunOrderly(w, Next(w, s, steps[0]), t, steps[1..]);
    }
  }

  /** With one operation at a time no read is stale: a completion under way, and every change applied, is announced
      with the status it moves from. */
  ghost predicate Exact(s: System, t: nat) {
    && (t in s.threads ==> StageExact(s, s.threads[t].stage))
    && (forall k, i :: k in s.log.history && 0 <= i < |s.log.history[k]| ==> ChangeExact(s.events, s.log.history[k][i]))
  }

  ghost predicate StageExact(s: System, stage: Stage) {
    match stage
    case Wishing(wish) => wish.WantIngest? ==> IsCurrent(s.store, wish.action, wish.result)
    case Ready(c, audit, _) =>
      c.IngestCommand? ==>
        && Target(c) in s.store.actions && audit < |s.events|
        && s.events[audit].statusFrom == Some(s.store.actions[Target(c)].status)
  }

  ghost predicate IsCurrent(s: Store, a: Action, r: ConnectorResult) {
    Key(r.tenantRef, r.actionRef) in s.actions && s.actions[Key(r.tenantRef, r.actionRef)].status == a.status
  }

  ghost predicate ChangeExact(events: seq<AuditEvent>, change: Change) {
    change.audit < |events| && events[change.audit].statusFrom == change.from
  }

  lemma StartIsExact(w: Wiring, s: Store, p: Principal, op: Op, wish: Wish)
    requires ActionsOk(s) && Start(w, s, p, op) == Ok(Continue(wish)) && wish.WantIngest?
    ensures IsCurrent(s, wish.action, wish.result)
  {
    hide ReceiptVerdict, ActionOk, ValidPrincipal, RequestValid;
    assert ActionOk(s, Key(p.tenantRef, OpRef(op)));
    assert wish.action.binding.Id() == Key(p.tenantRef, OpRef(op)) by { StoredId(s, Key(p.tenantRef, OpRef(op))); }
  }

  lemma StoredId(s: Store, k: Key)
    requires k in s.actions && ActionOk(s, k)
    ensures s.actions[k].binding.Id() == k
  {
  }

  lemma PreparedIngest(w: Wiring, p: Principal, wish: Wish, id: string, auditRef: nat, now: Time)
    requires Prepare(w, p, wish, id, auditRef, now).Ok?
    ensures var prepared := Prepare(w, p, wish, id, auditRef, now).value;
            prepared.command.IngestCommand? ==>
              && wish.WantIngest? && prepared.event.statusFrom == Some(wish.action.status)
              && Target(prepared.command) == Key(wish.result.tenantRef, wish.result.actionRef)
  {
    hide IsHandle;
  }

  lemma OldChangesExact(s: System, t: nat, events: seq<AuditEvent>)
    requires Exact(s, t) && s.events <= events
    ensures forall k, i :: k in s.log.history && 0 <= i < |s.log.history[k]| ==>
              ChangeExact(events, s.log.history[k][i])
  {
    forall k, i | k in s.log.history && 0 <= i < |s.log.history[k]|
      ensures ChangeExact(events, s.log.history[k][i])
    {
      assert ChangeExact(s.events, s.log.history[k][i]);
    }
  }

  lemma AuditExact(w: Wiring, s: System, t: nat, id: string, now: Time)
    requires Exact(s, t) && s.threads.Keys <= {t}
    ensures Exact(Audit(w, s, t, id, now), t)
  {
    hide Prepare, IsCurrent, ChangeExact;
    var u := Audit(w, s, t, id, now);
    if u != s {
      var wish := s.threads[t].stage.wish;
      PreparedIngest(w, s.threads[t].principal, wish, id, |s.events| + 1, now);
      OldChangesExact(s, t, u.events);
      if wish.WantIngest? {
        CurrentMeans(s.store, wish.action, wish.result);
      }
    }
  }

  lemma CurrentMeans(s: Store, a: Action, r: ConnectorResult)
    requires IsCurrent(s, a, r)
    ensures Key(r.tenantRef, r.actionRef) in s.actions && s.actions[Key(r.tenantRef, r.actionRef)].status == a.status
  {
  }

  /** The change a command makes is the one its event announced. */
  lemma CommandExact(w: Wiring, s: System, t: nat, at: Time)
    requires Inv(w, s) && Exact(s, t)
    ensures Exact(RunCommand(s, t, at), t)
  {
    hide StoreInv, ThreadsOk, MintedOk, HistoryOk, OneChangePerEvent, ReceiptsOk, ApprovalsOk, OutboxOk;
    hide Execute, CommandOk, CommandEvent, SnapOk, ChangeExact, Applied, IsCurrent;
    if t in s.threads && s.threads[t].stage.Ready? {
      var Ready(c, audit, original) := s.threads[t].stage;
      var r := Execute(s.store, c, at).1;
      if r.Ok? && r.value.1 {
        AppliedExact(w, s, t, at);
      }
    }
  }

  lemma AppliedExact(w: Wiring, s: System, t: nat, at: Time)
    requires Inv(w, s) && Exact(s, t) && t in s.threads && s.threads[t].stage.Ready?
    requires var r := Execute(s.store, s.threads[t].stage.command, at).1; r.Ok? && r.value.1
    ensures var log := Applied(s.log, s.store, s.threads[t].stage.command, s.threads[t].stage.audit);
            forall k, i :: k in log.history && 0 <= i < |log.history[k]| ==> ChangeExact(s.events, log.history[k][i])
  {
    hide ThreadsOk, MintedOk, HistoryOk, OneChangePerEvent, ReceiptsOk, ApprovalsOk, OutboxOk;
    hide GrantsOk, IdemsOk, RowsOk, Execute, CommandOk, CommandEvent, SnapOk, ActionOk, CanTransition;
    var Ready(c, audit, original) := s.threads[t].stage;
    ReadyThread(w, s, t);
    ActionAt(s.store, Target(c));
    CommandEffect(w, s.store, s.log, t, c, at, s.events[audit]);
    var log := Applied(s.log, s.store, c, audit);
    forall k, i | k in log.history && 0 <= i < |log.history[k]|
      ensures ChangeExact(s.events, log.history[k][i])
    {
      if k in s.log.history && i < |s.log.history[k]| {
        assert ChangeExact(s.events, s.log.history[k][i]);
      }
    }
  }

  lemma ClaimersKeepActions(w: Wiring, s: System, step: Step)
    requires ByClaimer(step)
    ensures var u := Next(w, s, step); u.store.actions == s.store.actions && u.events == s.events
  {
    hide Claimable, Recorded, Outcome;
  }

  lemma SameExact(s: System, u: System, t: nat)
    requires Exact(s, t) && u.store.actions == s.store.actions && u.events == s.events
    requires u.log.history == s.log.history
    requires t in u.threads ==> t in s.threads && u.threads[t] == s.threads[t]
    ensures Exact(u, t)
  {
    hide ChangeExact;
  }

  lemma StartExact(w: Wiring, s: System, t: nat, p: Principal, op: Op)
    requires ActionsOk(s.store) && Exact(s, t)
    ensures Exact(StartThread(w, s, t, p, op), t)
  {
    hide Start, ChangeExact, IsCurrent, ActionsOk;
    var u := StartThread(w, s, t, p, op);
    if u != s && u.threads[t].stage.wish.WantIngest? {
      StartIsExact(w, s.store, p, op, u.threads[t].stage.wish);
    }
  }

  lemma NextExact(w: Wiring, s: System, t: nat, step: Step)
    requires Inv(w, s) && Exact(s, t) && s.threads.Keys <= {t} && Solo(t, [step])
    ensures Exact(Next(w, s, step), t)
  {
    hide GrantsOk, IdemsOk, RowsOk, ActionsOk, ThreadsOk, MintedOk, HistoryOk, OneChangePerEvent, ReceiptsOk, ApprovalsOk;
    hide OutboxOk, Start, Prepare, Audit, RunCommand, ConsumeEvidence, Acquire, Deliver, Stamp, Release, Crash, Exact;
    assert step in [step];
    if ByClaimer(step) {
      ClaimersApplyNothing(w, s, step);
      ClaimersKeepActions(w, s, step);
      SameExact(s, Next(w, s, step), t);
    } else {
      match step
      case StartStep(_, p, op) => StartExact(w, s, t, p, op);
      case ConsumeStep(_) => ConsumeExact(s, t);
      case AuditStep(_, id, now) => AuditExact(w, s, t, id, now);
      case CommandStep(_, at) => CommandExact(w, s, t, at);
      case _ => SameExact(s, Next(w, s, step), t);
    }
  }

  lemma ConsumeExact(s: System, t: nat)
    requires Exact(s, t)
    ensures Exact(Consume(s, t), t)
  {
    hide ConsumeEvidence, ChangeExact, Approves;
  }

  lemma {:induction false} RunExact(w: Wiring, s: System, t: nat, steps: seq<Step>)
    requires Inv(w, s) && Orderly(s, t) && Exact(s, t) && Solo(t, steps)
    ensures Exact(Run(w, s, steps), t)
    decreases |steps|
  {
    hide Next, StoreInv, ThreadsOk, MintedOk, OneChangePerEvent, ReceiptsOk, ApprovalsOk, OutboxOk, Exact, HistoryOk;
    if steps != [] {
      assert steps[0] in steps;
      NextExact(w, s, t, steps[0]);
      NextOrderly(w, s, t, steps[0]);
      NextKeeps(w, s, steps[0]);
      RunExact(w, Next(w, s, steps[0]), t, steps[1..]);
    }
  }

  /** The changes read off the audit log: each is announced with its action and both its statuses, in the order in
      which they were applied, from the creation of the action to where it is now. */
  ghost predicate FollowsLog(past: seq<Change>, events: seq<AuditEvent>, k: Key, now: Status) {
    && past != [] && past[0].from == None && past[|past| - 1].to == now
    && (forall i, j :: 0 <= i < j < |past| ==> past[i].audit < past[j].audit)
    && (forall i :: 0 <= i < |past| ==>
          && past[i].audit < |events|
          && events[past[i].audit].actionRef == k.ref && events[past[i].audit].tenantRef == k.tenant
          && events[past[i].audit].statusFrom == past[i].from && events[past[i].audit].statusTo == past[i].to
          && (i > 0 ==> past[i].from == Some(past[i - 1].to)))
  }

  /** With one operation at a time the changes of an action are a subsequence of the audit log, with matching
      statuses on both sides, completions included. */
  lemma ChangesFollowTheLog(w: Wiring, t: nat, steps: seq<Step>, k: Key)
    requires Solo(t, steps) && k in Run(w, INITIAL, steps).store.actions
    ensures var s := Run(w, INITIAL, steps);
            k in s.log.history && FollowsLog(s.log.history[k], s.events, k, s.store.actions[k].status)
  {
    hide Run, Inv;
    InitialInv(w);
    RunOrderly(w, INITIAL, t, steps);
    RunExact(w, INITIAL, t, steps);
    LineageIsAudited(w, steps, k);
    var s := Run(w, INITIAL, steps);
    assert forall i :: 0 <= i < |s.log.history[k]| ==> ChangeExact(s.events, s.log.history[k][i]);
  }

  /** So in every history of a service nobody disturbs, whichever audit appends fail, the audit log tells of every
      action exactly how it came to be what it is. */
  lemma ServiceFollowsTheLog(w: Wiring, outages: nat -> bool, calls: seq<Call>, k: Key) returns (past: seq<Change>)
    requires NewIds(calls) && k in After(w, outages, calls).store.actions
    ensures var world := After(w, outages, calls); FollowsLog(past, world.events, k, world.store.actions[k].status)
  {
    hide Run, AllSteps, After, FollowsLog;
    CallsAreRun(w, outages, 0, calls);
    ChangesFollowTheLog(w, 0, AllSteps(w, outages, 0, calls), k);
    past := Run(w, INITIAL, AllSteps(w, outages, 0, calls)).log.history[k];
  }

  lemma OpIsSolo(
      t: nat, p: Principal, op: Op, id: string, unused: string, now: Time, firstFails: bool, secondFails: bool)
    ensures Solo(t, OpSteps(t, p, op, id, unused, now, firstFails, secondFails))
  {
  }
}
