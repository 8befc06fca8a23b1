/** Histories of a service, from its start, in which a result id shared between two actions leaves one of them
    unfinished although its completion is audited and reported. */
module ActionHistories {
  import opened ActionOps
  import opened ActionSequential
  import opened ActionState
  import opened ActionStore
  import opened ActionTraces
  import opened ActionTypes
  import opened TrustClasses
  import opened Wrappers

  // ---------------------------------------------------------------- one action up to its dispatch

  /** An action that needs no approval, the ids generated on its way and the receipt its connector reports. */
  datatype Flight = Flight(
    request: ActionRequest, id: string, grant: string, dispatch: string, spares: (string, string, string),
    receipt: Receipt)

  function IdOf(p: Principal, f: Flight): Key { Key(p.tenantRef, f.id) }

  function IdemOf(p: Principal, f: Flight): Key { Key(p.tenantRef, f.request.idempotencyKey) }

  /** What a principal may do without approval, to an end that the wired verifier confirms. */
  predicate Accepted(w: Wiring, p: Principal, f: Flight) {
    && ValidPrincipal(p) && RequestValid(w, f.request) && f.request.approvalPlanRef.None?
    && Trusted(w, p, f.request.capability, f.request.parameterHash)
    && w.operationOk(f.request.businessContextRef, f.request.capability, f.request.parameterHash)
    && IsHandle(f.id, "act_") && IsHandle(f.grant, "grant_")
    && ReceiptVerdict(w, p.tenantRef, NewBinding(p, f.request, f.id, 0, 0), f.receipt) == Ok(Succeeded)
  }

  predicate InFlight(w: Wiring, p: Principal, f: Flight, s: Store) {
    && IdOf(p, f) in s.actions && s.actions[IdOf(p, f)].status == Dispatched
    && s.actions[IdOf(p, f)].binding.Id() == IdOf(p, f)
    && ReceiptVerdict(w, p.tenantRef, s.actions[IdOf(p, f)].binding, f.receipt) == Ok(Succeeded)
  }

  ghost predicate NeverDown(outages: nat -> bool) {
    forall n :: !outages(n)
  }

  function Takeoff(p: Principal, f: Flight, now: Time): seq<Call> {
    [Operation(p, RequestAction(f.request), f.id, f.spares.0, now),
     Operation(p, GrantOp(f.id), f.grant, f.spares.1, now),
     Operation(p, DispatchOp(f.id), f.dispatch, f.spares.2, now)]
  }

  lemma RequestLands(w: Wiring, world: World, p: Principal, f: Flight, now: Time)
    requires Accepted(w, p, f) && !world.outages(world.attempts) && IdemOf(p, f) !in world.store.byIdem
    ensures var after := RunOp(w, world, p, RequestAction(f.request), f.id, now).0;
            var a := NewAction(NewBinding(p, f.request, f.id, |world.events| + 1, now));
            && after.outages == world.outages && a.status == Requested
            && after.store == world.store.(actions := world.store.actions[IdOf(p, f) := a],
                                           byIdem := world.store.byIdem[IdemOf(p, f) := f.id])
  {
    hide IsHandle, ReceiptVerdict, ValidPrincipal;
  }

  lemma GrantLands(w: Wiring, world: World, p: Principal, f: Flight, a: Action, now: Time)
    requires Accepted(w, p, f) && !world.outages(world.attempts)
    requires IdOf(p, f) in world.store.actions && world.store.actions[IdOf(p, f)] == a
    requires a.status == Requested && IdOf(p, f) !in world.store.grants
    requires exists n, at :: a.binding == NewBinding(p, f.request, f.id, n, at)
    ensures var after := RunOp(w, world, p, GrantOp(f.id), f.grant, now).0;
            && after.outages == world.outages
            && after.store == world.store.(
                 grants := world.store.grants[IdOf(p, f) := NewGrant(a.binding, f.grant, now)],
                 actions := world.store.actions[
                   IdOf(p, f) := a.(status := Granted, grantRef := f.grant, approvalEvidenceRef := "",
                                    updatedAt := now)])
  {
    hide IsHandle, ReceiptVerdict, ValidPrincipal, RequestValid;
  }

  lemma DispatchLands(w: Wiring, world: World, p: Principal, f: Flight, a: Action, now: Time)
    requires Accepted(w, p, f) && !world.outages(world.attempts)
    requires IdOf(p, f) in world.store.actions && world.store.actions[IdOf(p, f)] == a
    requires a.status == Granted && a.binding.Id() == IdOf(p, f)
    requires IdOf(p, f) in world.store.grants && world.store.grants[IdOf(p, f)] == NewGrant(a.binding, f.grant, now)
    ensures var after := RunOp(w, world, p, DispatchOp(f.id), f.dispatch, now).0;
            && after.outages == world.outages
            && after.store.byIdem == world.store.byIdem && after.store.inbox == world.store.inbox
            && after.store.grants.Keys == world.store.grants.Keys
            && after.store.actions == world.store.actions[IdOf(p, f) := a.(status := Dispatched, updatedAt := now)]
  {
    hide IsHandle, ReceiptVerdict, ValidPrincipal, RequestValid, Trusted;
  }

  lemma SameVerdict(w: Wiring, p: Principal, f: Flight, n: nat, at: Time)
    ensures ReceiptVerdict(w, p.tenantRef, NewBinding(p, f.request, f.id, n, at), f.receipt)
            == ReceiptVerdict(w, p.tenantRef, NewBinding(p, f.request, f.id, 0, 0), f.receipt)
  {
  }

  /** The one request, grant and dispatch change nothing else. */
  ghost predicate TookOff(w: Wiring, p: Principal, f: Flight, s: Store, t: Store) {
    && InFlight(w, p, f, t) && t.inbox == s.inbox
    && (forall k :: k in s.actions && k != IdOf(p, f) ==> k in t.actions && t.actions[k] == s.actions[k])
    && t.actions.Keys == s.actions.Keys + {IdOf(p, f)} && t.grants.Keys == s.grants.Keys + {IdOf(p, f)}
    && t.byIdem == s.byIdem[IdemOf(p, f) := f.id]
  }

  lemma AfterThree(w: Wiring, outages: nat -> bool, calls: seq<Call>, a: Call, b: Call, c: Call)
    ensures After(w, outages, calls + [a, b, c])
            == Called(w, Called(w, Called(w, After(w, outages, calls), a), b), c)
  {
    hide Called, NewWorld;
    assert calls + [a, b, c] == calls + [a] + [b] + [c];
    AfterOne(w, outages, calls, a);
    AfterOne(w, outages, calls + [a], b);
    AfterOne(w, outages, calls + [a] + [b], c);
  }

  lemma AfterOne(w: Wiring, outages: nat -> bool, calls: seq<Call>, c: Call)
    ensures After(w, outages, calls + [c]) == Called(w, After(w, outages, calls), c)
  {
    hide Called, NewWorld;
    assert (calls + [c])[..|calls|] == calls;
  }

  lemma TakesOff(w: Wiring, outages: nat -> bool, calls: seq<Call>, p: Principal, f: Flight, now: Time)
    requires var world := After(w, outages, calls);
             && world.outages == outages && IdemOf(p, f) !in world.store.byIdem
             && IdOf(p, f) !in world.store.actions && IdOf(p, f) !in world.store.grants
    requires Accepted(w, p, f) && NeverDown(outages)
    ensures var after := After(w, outages, calls + Takeoff(p, f, now));
            after.outages == outages && TookOff(w, p, f, After(w, outages, calls).store, after.store)
  {
    hide RunOp, ReceiptVerdict, Accepted, After, NewGrant, ValidPrincipal, IsHandle, Trusted;
    var world, steps := After(w, outages, calls), Takeoff(p, f, now);
    AfterThree(w, outages, calls, steps[0], steps[1], steps[2]);
    RequestLands(w, world, p, f, now);
    var one := Called(w, world, steps[0]);
    var a := one.store.actions[IdOf(p, f)];
    GrantLands(w, one, p, f, a, now);
    var two := Called(w, one, steps[1]);
    DispatchLands(w, two, p, f, two.store.actions[IdOf(p, f)], now);
    SameVerdict(w, p, f, |world.events| + 1, now);
    assert ReceiptVerdict(w, p.tenantRef, NewBinding(p, f.request, f.id, 0, 0), f.receipt) == Ok(Succeeded) by {
      AcceptedReceipt(w, p, f);
    }
  }

  lemma AcceptedReceipt(w: Wiring, p: Principal, f: Flight)
    requires Accepted(w, p, f)
    ensures ReceiptVerdict(w, p.tenantRef, NewBinding(p, f.request, f.id, 0, 0), f.receipt) == Ok(Succeeded)
    ensures ValidPrincipal(p)
  {
  }

  // ---------------------------------------------------------------- two actions and one result id

  function BothInFlight(p: Principal, a: Flight, b: Flight, now: Time): seq<Call> {
    Takeoff(p, a, now) + Takeoff(p, b, now)
  }

  /** Both are dispatched and the first one's receipt is reported under the result id. */
  function FirstReports(
      p: Principal, a: Flight, b: Flight, resultId: string, id: string, spare: string, now: Time): seq<Call>
  {
    BothInFlight(p, a, b, now) + [Operation(p, IngestReceipt(resultId, a.receipt), id, spare, now)]
  }

  lemma BothTakeOff(w: Wiring, outages: nat -> bool, p: Principal, a: Flight, b: Flight, now: Time)
    requires Accepted(w, p, a) && Accepted(w, p, b) && NeverDown(outages)
    requires a.id != b.id && a.request.idempotencyKey != b.request.idempotencyKey
    ensures var world := After(w, outages, BothInFlight(p, a, b, now));
            && world.outages == outages && world.store.inbox == {}
            && InFlight(w, p, a, world.store) && InFlight(w, p, b, world.store)
  {
    hide Accepted, After, Takeoff, InFlight, TookOff;
    AtStart(w, outages);
    assert [] + Takeoff(p, a, now) == Takeoff(p, a, now);
    var mid, world := After(w, outages, Takeoff(p, a, now)), After(w, outages, BothInFlight(p, a, b, now));
    TakesOff(w, outages, [], p, a, now);
    StillFree(w, p, a, b, mid.store);
    TakesOff(w, outages, Takeoff(p, a, now), p, b, now);
    StillInFlight(w, p, a, b, mid.store, world.store);
  }

  lemma AtStart(w: Wiring, outages: nat -> bool)
    ensures After(w, outages, []).outages == outages && After(w, outages, []).store == ActionStore.EMPTY
  {
  }

  lemma StillFree(w: Wiring, p: Principal, a: Flight, b: Flight, s: Store)
    requires TookOff(w, p, a, ActionStore.EMPTY, s)
    requires a.id != b.id && a.request.idempotencyKey != b.request.idempotencyKey
    ensures IdOf(p, b) !in s.actions && IdOf(p, b) !in s.grants && IdemOf(p, b) !in s.byIdem
    ensures s.inbox == {} && InFlight(w, p, a, s)
  {
    hide InFlight;
  }

  lemma StillInFlight(w: Wiring, p: Principal, a: Flight, b: Flight, s: Store, t: Store)
    requires InFlight(w, p, a, s) && TookOff(w, p, b, s, t) && a.id != b.id
    ensures InFlight(w, p, a, t) && InFlight(w, p, b, t) && t.inbox == s.inbox
  {
    hide ReceiptVerdict;
  }

  lemma FirstLands(
      w: Wiring, outages: nat -> bool, p: Principal, a: Flight, b: Flight, resultId: string, id: string, spare: string,
      now: Time)
    requires Accepted(w, p, a) && Accepted(w, p, b) && NeverDown(outages) && resultId != ""
    requires a.id != b.id && a.request.idempotencyKey != b.request.idempotencyKey
    ensures var world := After(w, outages, FirstReports(p, a, b, resultId, id, spare, now));
            && world.outages == outages && InFlight(w, p, b, world.store)
            && Key(p.tenantRef, resultId) in world.store.inbox
  {
    hide Accepted, RunOp, ReceiptVerdict, After, ValidPrincipal, Takeoff;
    BothTakeOff(w, outages, p, a, b, now);
    AcceptedReceipt(w, p, a);
    AfterOne(w, outages, BothInFlight(p, a, b, now), Operation(p, IngestReceipt(resultId, a.receipt), id, spare, now));
    var world := After(w, outages, BothInFlight(p, a, b, now));
    ReportLands(w, world, p, a, b, resultId, id, now);
  }

  lemma ReportLands(
      w: Wiring, world: World, p: Principal, a: Flight, b: Flight, resultId: string, id: string, now: Time)
    requires InFlight(w, p, a, world.store) && InFlight(w, p, b, world.store) && a.id != b.id
    requires ValidPrincipal(p) && resultId != "" && !world.outages(world.attempts) && world.store.inbox == {}
    ensures var after := RunOp(w, world, p, IngestReceipt(resultId, a.receipt), id, now).0;
            && after.outages == world.outages && InFlight(w, p, b, after.store)
            && Key(p.tenantRef, resultId) in after.store.inbox
  {
    hide ReceiptVerdict, RunOp, MoveEvent;
    ReceiptNames(w, p.tenantRef, world.store.actions[IdOf(p, a)].binding, a.receipt);
    IngestRuns(w, world, p, resultId, a.receipt, id, now);
  }

  lemma ReceiptNames(w: Wiring, tenant: string, b: Binding, r: Receipt)
    requires ReceiptVerdict(w, tenant, b, r).Ok?
    ensures r.actionRef == b.actionRef
  {
  }

  /** For any two requests that need no approval: after a history in which the first one's receipt was reported under
      a result id, a verified receipt of the second one under the same id is audited and reported as success, and the
      second action stays dispatched. */
  lemma SharedResultIdHappens(
      w: Wiring, outages: nat -> bool, p: Principal, a: Flight, b: Flight, resultId: string, report: string,
      spare: string, now: Time, id: string, later: Time)
    requires Accepted(w, p, a) && Accepted(w, p, b) && NeverDown(outages) && resultId != ""
    requires a.id != b.id && a.request.idempotencyKey != b.request.idempotencyKey
    ensures var world := After(w, outages, FirstReports(p, a, b, resultId, report, spare, now));
            var (after, r) := RunOp(w, world, p, IngestReceipt(resultId, b.receipt), id, later);
            && InFlight(w, p, b, world.store)
            && r.Ok? && |after.events| == |world.events| + 1
            && after.store == world.store && r.value.status == Dispatched
  {
    hide Accepted, RunOp, ReceiptVerdict, After, ValidPrincipal, FirstReports;
    FirstLands(w, outages, p, a, b, resultId, report, spare, now);
    AcceptedReceipt(w, p, b);
    var world := After(w, outages, FirstReports(p, a, b, resultId, report, spare, now));
    ReceiptNames(w, p.tenantRef, world.store.actions[IdOf(p, b)].binding, b.receipt);
    SharedResultIdCompletesNothing(w, world, p, resultId, b.receipt, id, later);
  }

  // ---------------------------------------------------------------- a resolution that resolves nothing

  /** The first one's receipt is reported under the result id that the second one's resolution will use, and the
      second one goes into reconciliation. */
  function SecondReconciles(
      p: Principal, a: Flight, b: Flight, ids: (string, string, string), spares: (string, string, string), now: Time)
    : seq<Call>
  {
    FirstReports(p, a, b, "reconcile:" + b.id, ids.0, spares.0, now)
    + [Operation(p, MarkResultUnknown(b.id), ids.1, spares.1, now)]
    + [Operation(p, BeginReconciliation(b.id), ids.2, spares.2, now)]
  }

  /** The action moved and nothing else did. */
  ghost predicate Moved(k: Key, to: Status, world: World, after: World)
    requires k in world.store.actions
  {
    && after.outages == world.outages && after.store.inbox == world.store.inbox && k in after.store.actions
    && after.store.actions[k].status == to && after.store.actions[k].binding == world.store.actions[k].binding
  }

  lemma Moves(w: Wiring, world: World, p: Principal, ref: string, id: string, now: Time)
    requires var k := Key(p.tenantRef, ref); k in world.store.actions && world.store.actions[k].binding.Id() == k
    requires ValidPrincipal(p) && !world.outages(world.attempts)
    ensures var (k, status) := (Key(p.tenantRef, ref), world.store.actions[Key(p.tenantRef, ref)].status);
            && (status == Dispatched ==>
                  Moved(k, ResultUnknown, world, RunOp(w, world, p, MarkResultUnknown(ref), id, now).0))
            && (status == ResultUnknown ==>
                  Moved(k, Reconciling, world, RunOp(w, world, p, BeginReconciliation(ref), id, now).0))
  {
    hide ValidPrincipal, ReceiptVerdict, StartRequest, StartGrant, StartIngest, StartResolve, StartCompensate;
  }

  /** After such a history, recovering a verified receipt that attests success is audited and reported as success,
      and the second action is still reconciling. */
  lemma IdleResolutionHappens(
      w: Wiring, outages: nat -> bool, p: Principal, a: Flight, b: Flight, ids: (string, string, string),
      spares: (string, string, string), now: Time, id: string, later: Time)
    requires Accepted(w, p, a) && Accepted(w, p, b) && NeverDown(outages)
    requires a.id != b.id && a.request.idempotencyKey != b.request.idempotencyKey
    requires NewIds(SecondReconciles(p, a, b, ids, spares, now))
    ensures var world := After(w, outages, SecondReconciles(p, a, b, ids, spares, now));
            var (after, r) := RunOp(w, world, p, ResolveReconciliation(b.id, Succeeded, Some(b.receipt)), id, later);
            var k := IdOf(p, b);
            && k in world.store.actions && world.store.actions[k].status == Reconciling
            && r.Ok? && |after.events| == |world.events| + 1
            && k in after.store.actions && after.store.actions[k].status == Reconciling
  {
    hide Accepted, RunOp, ReceiptVerdict, After, ValidPrincipal, FirstReports, NewIds;
    var calls, resultId := SecondReconciles(p, a, b, ids, spares, now), "reconcile:" + b.id;
    var first := FirstReports(p, a, b, resultId, ids.0, spares.0, now);
    var mark, begin := Operation(p, MarkResultUnknown(b.id), ids.1, spares.1, now),
                       Operation(p, BeginReconciliation(b.id), ids.2, spares.2, now);
    FirstLands(w, outages, p, a, b, resultId, ids.0, spares.0, now);
    AcceptedReceipt(w, p, b);
    AfterOne(w, outages, first, mark);
    AfterOne(w, outages, first + [mark], begin);
    Moves(w, After(w, outages, first), p, b.id, ids.1, now);
    Moves(w, After(w, outages, first + [mark]), p, b.id, ids.2, now);
    ServiceStore(w, outages, calls);
    ResolutionCompletes(w, After(w, outages, calls), p, b.id, Succeeded, Some(b.receipt), id, later);
  }

  lemma ServiceStore(w: Wiring, outages: nat -> bool, calls: seq<Call>)
    requires NewIds(calls)
    ensures StoreInv(After(w, outages, calls).store)
  {
    hide StoreInv, After, NewIds, AllSteps;
    CallsAreRun(w, outages, 0, calls);
    ReachableStore(w, AllSteps(w, outages, 0, calls));
  }

  // ---------------------------------------------------------------- such a history

  /** A wiring that checks the length of the idempotency key and accepts everything else. */
  const OPEN: Wiring := Wiring(
    (r: ActionRequest) => 16 <= |r.idempotencyKey| <= 128, _ => true, (_, _, _) => true, None, Some((_, _) => true),
    false)

  const CALLER: Principal := Principal("t", "p", "c", "r", FirstParty, "o", Some(0), Some(1))

  /** Names of different lengths are different. */
  function Name(prefix: string, length: nat): (s: string)
    requires |prefix| <= length
    ensures |s| == length
  {
    prefix + seq(length - |prefix|, _ => 'x')
  }

  /** The flight whose generated ids have lengths from n on. */
  function FlightOf(n: nat): Flight
    requires 22 <= n <= 100
  {
    var request := ActionRequest(Name("", n), "b", "c", "h", "a", "l", None, "", "s", 0);
    Flight(request, Name("act_", n), Name("grant_", n + 2), Name("dsp_", n + 4),
           (Name("", n + 1), Name("", n + 3), Name("", n + 5)),
           Receipt("r", Name("act_", n), Succeeded, "c", "h", "s", "d", 0, "g"))
  }

  lemma FlightAccepted(n: nat)
    requires 22 <= n <= 100
    ensures Accepted(OPEN, CALLER, FlightOf(n))
  {
  }

  lemma NotMinted(length: nat)
    requires length > 0
    ensures Unmintable(Name("", length))
  {
    assert Name("", length)[0] == 'x';
  }

  /** Generated ids that grow in length are new. */
  lemma LongerIsNew(calls: seq<Call>, n: nat)
    requires forall i :: 0 <= i < |calls| ==>
               && calls[i].Operation? && Unmintable(calls[i].unused)
               && |calls[i].id| == n + 2 * i && |calls[i].unused| == n + 2 * i + 1
    ensures NewIds(calls)
  {
    hide Unmintable;
  }

  /** One history in which both happen, so neither result above is about nothing. */
  lemma SuchHistoriesHappen()
    ensures var (a, b) := (FlightOf(22), FlightOf(28));
            && Accepted(OPEN, CALLER, a) && Accepted(OPEN, CALLER, b)
            && a.id != b.id && a.request.idempotencyKey != b.request.idempotencyKey
            && NewIds(SecondReconciles(CALLER, a, b, (Name("", 34), Name("", 36), Name("", 38)),
                                       (Name("", 35), Name("", 37), Name("", 39)), 0))
  {
    hide Accepted, Unmintable, Name, NewIds;
    FlightAccepted(22);
    FlightAccepted(28);
    var calls := SecondReconciles(CALLER, FlightOf(22), FlightOf(28), (Name("", 34), Name("", 36), Name("", 38)),
                                  (Name("", 35), Name("", 37), Name("", 39)), 0);
    forall i | 0 <= i < |calls|
      ensures calls[i].Operation? && |calls[i].id| == 22 + 2 * i && calls[i].unused == Name("", 23 + 2 * i)
      ensures Unmintable(calls[i].unused)
    {
      NotMinted(23 + 2 * i);
    }
    LongerIsNew(calls, 22);
  }
}
