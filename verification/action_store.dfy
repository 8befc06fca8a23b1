/** The atomic operations of the action store as functions on its value
    (MemoryStore in services/agentnexus/internal/actions/model.go). */
module ActionStore {
  import opened ActionState
  import opened ActionTypes
  import opened Wrappers

  datatype Store = Store(
    actions: map<Key, Action>,
    byIdem: map<Key, string>,       // idempotency key to action ref
    grants: map<Key, Grant>,        // by action
    dispatches: map<Key, Dispatch>, // by dispatch ref
    claimed: set<Key>,              // dispatch rows in flight
    inbox: set<Key>,                // by result id
    receipts: map<Key, Receipt>)    // by receipt ref

  const EMPTY := Store(map[], map[], map[], map[], {}, {}, map[])

  function Lookup(s: Store, k: Key): Action {
    if k in s.actions then s.actions[k] else NO_ACTION
  }

  predicate SameOperation(a: Action, b: Action) {
    && a.binding.capability == b.binding.capability
    && a.binding.parameterHash == b.binding.parameterHash
    && a.binding.businessContextRef == b.binding.businessContextRef
  }

  function PutRequested(s: Store, a: Action): (Store, Result<(Action, bool), Error>) {
    var idem := a.binding.IdemKey();
    if idem in s.byIdem then
      var existing := Lookup(s, Key(idem.tenant, s.byIdem[idem]));
      if !SameOperation(existing, a) then (s, Err(IdempotencyConflict)) else (s, Ok((existing, false)))
    else
      (s.(actions := s.actions[a.binding.Id() := a], byIdem := s.byIdem[idem := a.binding.actionRef]), Ok((a, true)))
  }

  function GrantAction(s: Store, a: Action, g: Grant): (Store, Result<Action, Error>) {
    var k := a.binding.Id();
    if k !in s.actions then (s, Err(NotFound))
    else if !CanTransition(s.actions[k].status, Granted) then (s, Err(ForbiddenTransition))
    else if k in s.grants then (s, Err(EvidenceConsumed))
    else
      var granted := s.actions[k].(status := Granted, grantRef := g.grantRef,
                                   approvalEvidenceRef := a.approvalEvidenceRef, updatedAt := g.issuedAt);
      (s.(grants := s.grants[k := g], actions := s.actions[k := granted]), Ok(granted))
  }

  /** The one-use consumption rule of a grant. */
  function ConsumeFault(g: Grant, at: Time): Option<Error> {
    if !g.oneUse then Some(ForbiddenTransition)
    else if g.consumedAt.Some? then Some(EvidenceConsumed)
    else if at >= g.expiresAt then Some(ForbiddenTransition)
    else None
  }

  function DispatchAction(s: Store, k: Key, d: Dispatch, at: Time): (Store, Result<Action, Error>) {
    if k !in s.actions then (s, Err(NotFound))
    else if !CanTransition(s.actions[k].status, Dispatched) then (s, Err(ForbiddenTransition))
    else if k !in s.grants then (s, Err(NotFound))
    else if ConsumeFault(s.grants[k], at).Some? then (s, Err(ConsumeFault(s.grants[k], at).value))
    else
      var dispatched := s.actions[k].(status := Dispatched, updatedAt := at);
      (s.(grants := s.grants[k := s.grants[k].(consumedAt := Some(at))],
          dispatches := s.dispatches[Key(k.tenant, d.dispatchRef) := d],
          actions := s.actions[k := dispatched]),
       Ok(dispatched))
  }

  function Advance(s: Store, k: Key, from: Status, to: Status, reason: string, at: Time)
    : (Store, Result<Action, Error>)
  {
    if k !in s.actions then (s, Err(NotFound))
    else if s.actions[k].status != from || !CanTransition(from, to) then (s, Err(ForbiddenTransition))
    else
      var moved := s.actions[k].(status := to, updatedAt := at,
                                 failureReason := if reason != "" then reason else s.actions[k].failureReason);
      (s.(actions := s.actions[k := moved]), Ok(moved))
  }

  function IngestResult(s: Store, r: ConnectorResult, to: Status, at: Time): (Store, Result<(Action, bool), Error>) {
    var k, inboxKey := Key(r.tenantRef, r.actionRef), Key(r.tenantRef, r.resultId);
    if inboxKey in s.inbox then (s, Ok((Lookup(s, k), false)))
    else if k !in s.actions then (s, Err(NotFound))
    else if !CanTransition(s.actions[k].status, to) then (s, Err(ForbiddenTransition))
    else
      var done := s.actions[k].(status := to, receiptRef := r.receipt.receiptRef, updatedAt := at);
      (s.(inbox := s.inbox + {inboxKey},
          receipts := s.receipts[Key(r.tenantRef, r.receipt.receiptRef) := r.receipt],
          actions := s.actions[k := done]),
       Ok((done, true)))
  }

  // ---------------------------------------------------------------- outbox rows

  predicate Final(d: Dispatch) {
    d.published || d.deadLetteredAt.Some?
  }

  /** Unpublished, not dead-lettered and, for a drain, past its scheduled next attempt. */
  predicate Claimable(d: Dispatch, at: Time, eligibleOnly: bool) {
    !Final(d) && !(eligibleOnly && d.nextAttemptAt.Some? && d.nextAttemptAt.value > at)
  }

  function AcquireDispatch(s: Store, d: Key, at: Time, eligibleOnly: bool): (Store, Option<Dispatch>) {
    if d !in s.dispatches || !Claimable(s.dispatches[d], at, eligibleOnly) || d in s.claimed then (s, None)
    else (s.(claimed := s.claimed + {d}), Some(s.dispatches[d]))
  }

  function ReleaseDispatch(s: Store, d: Key): Store {
    s.(claimed := s.claimed - {d})
  }

  /** One delivery attempt recorded on a row. */
  function Recorded(d: Dispatch, o: DispatchOutcome, at: Time): Dispatch {
    var tried := d.(attempts := d.attempts + 1);
    if o.published then tried.(published := true, publishedAt := Some(at))
    else
      var failed := tried.(lastError := o.lastError, nextAttemptAt := o.nextAttemptAt);
      if o.deadLetter then failed.(deadLetteredAt := Some(at), nextAttemptAt := None) else failed
  }

  function RecordOutcome(s: Store, d: Key, o: DispatchOutcome, at: Time): Store {
    if d !in s.dispatches then s
    else s.(dispatches := s.dispatches[d := Recorded(s.dispatches[d], o, at)])
  }

  // ---------------------------------------------------------------- the joint invariant

  const MAX_DISPATCH_ATTEMPTS := 8

  ghost predicate BindsOperation(b: Binding, k: Key, capability: string, hash: string) {
    b.Id() == k && b.capability == capability && b.parameterHash == hash
  }

  /** The action's one-use grant has been consumed. */
  ghost predicate Spent(s: Store, k: Key) {
    k in s.grants && s.grants[k].consumedAt.Some?
  }

  ghost predicate RowFor(s: Store, d: Key, k: Key) {
    d in s.dispatches && s.dispatches[d].ActionId() == k
  }

  ghost predicate HasRow(s: Store, k: Key) {
    exists d :: RowFor(s, d, k)
  }

  ghost predicate ActionOk(s: Store, k: Key)
    requires k in s.actions
  {
    var a := s.actions[k];
    && a.binding.Id() == k
    && a.binding.IdemKey() in s.byIdem && s.byIdem[a.binding.IdemKey()] == k.ref
    && (a.status == Requested ==> a.binding.approvalPlanRef == "")
    && (a.status == AwaitingApproval ==> a.binding.approvalPlanRef != "")
    && (k in s.grants <==> a.grantRef != "")
    && (a.status in {Requested, AwaitingApproval} ==> k !in s.grants)
    && (a.status == Granted ==> k in s.grants && !Spent(s, k))
    && (PastDispatch(a.status) || a.receiptRef != "" ==> Spent(s, k))
  }

  ghost predicate GrantBinds(b: Binding, g: Grant) {
    && BindsOperation(b, Key(g.tenantRef, g.actionRef), g.capability, g.parameterHash)
    && g.businessContextRef == b.businessContextRef
    && g.oneUse && g.expiresAt == g.issuedAt + 5 * 60 * SECOND
  }

  ghost predicate GrantOk(s: Store, k: Key)
    requires k in s.grants
  {
    var g := s.grants[k];
    && k in s.actions
    && GrantBinds(s.actions[k].binding, g)
    && g.grantRef == s.actions[k].grantRef
    && (g.consumedAt.Some? ==> g.consumedAt.value < g.expiresAt && HasRow(s, k))
  }

  ghost predicate IdemOk(s: Store, i: Key)
    requires i in s.byIdem
  {
    var k := Key(i.tenant, s.byIdem[i]);
    k in s.actions && s.actions[k].binding.idempotencyKey == i.ref
  }

  /** Pending with attempts left, published within the bound, or dead-lettered exactly at the bound. */
  ghost predicate PhaseOk(d: Dispatch) {
    if d.published then d.deadLetteredAt == None && 1 <= d.attempts <= MAX_DISPATCH_ATTEMPTS
    else if d.deadLetteredAt.Some? then d.attempts == MAX_DISPATCH_ATTEMPTS
    else d.attempts < MAX_DISPATCH_ATTEMPTS
  }

  ghost predicate RowBinds(b: Binding, g: Grant, row: Dispatch) {
    && BindsOperation(b, row.ActionId(), row.capability, row.parameterHash)
    && row.grantRef == g.grantRef
    && row.kind == DispatchExecute
  }

  ghost predicate RowOk(s: Store, d: Key)
    requires d in s.dispatches
  {
    var row := s.dispatches[d];
    var k := row.ActionId();
    && row.Id() == d
    && Spent(s, k) && k in s.actions
    && RowBinds(s.actions[k].binding, s.grants[k], row)
    && PhaseOk(row)
  }

  ghost predicate ActionsOk(s: Store) {
    forall k :: k in s.actions ==> ActionOk(s, k)
  }

  ghost predicate GrantsOk(s: Store) {
    forall k :: k in s.grants ==> GrantOk(s, k)
  }

  ghost predicate IdemsOk(s: Store) {
    forall i :: i in s.byIdem ==> IdemOk(s, i)
  }

  ghost predicate RowsOk(s: Store) {
    && (forall d :: d in s.dispatches ==> RowOk(s, d))
    && (forall d, e :: d in s.dispatches && e in s.dispatches ==>
          s.dispatches[d].ActionId() == s.dispatches[e].ActionId() ==> d == e)
  }

  ghost predicate StoreInv(s: Store) {
    ActionsOk(s) && GrantsOk(s) && IdemsOk(s) && RowsOk(s) && s.claimed <= s.dispatches.Keys
  }

  /** What every reader of the store may rely on, whatever runs in between. */
  ghost predicate ActionEvolves(a: Action, b: Action) {
    && a.binding == b.binding
    && (a.status == b.status || Rank(a.status) < Rank(b.status))
    && (a.grantRef != "" ==> b.grantRef == a.grantRef && b.approvalEvidenceRef == a.approvalEvidenceRef)
  }

  ghost predicate GrantEvolves(g: Grant, h: Grant) {
    && g.(consumedAt := None) == h.(consumedAt := None)
    && (g.consumedAt.Some? ==> h == g)
  }

  ghost predicate RowEvolves(d: Dispatch, e: Dispatch) {
    && MessageOf(d) == MessageOf(e) && d.createdAt == e.createdAt
    && d.attempts <= e.attempts
    && (Final(d) ==> e == d)
  }

  ghost predicate Evolves(s: Store, t: Store) {
    && (forall k :: k in s.actions ==> k in t.actions && ActionEvolves(s.actions[k], t.actions[k]))
    && (forall k :: k in s.grants ==> k in t.grants && GrantEvolves(s.grants[k], t.grants[k]))
    && (forall i :: i in s.byIdem ==> i in t.byIdem && t.byIdem[i] == s.byIdem[i])
    && (forall d :: d in s.dispatches ==> d in t.dispatches && RowEvolves(s.dispatches[d], t.dispatches[d]))
    && s.inbox <= t.inbox
  }

  function MessageOf(d: Dispatch): DispatchMessage {
    DispatchMessage(d.tenantRef, d.actionRef, d.dispatchRef, d.capability, d.parameterHash, d.grantRef, d.kind)
  }

  lemma EvolvesTransitive(s: Store, t: Store, u: Store)
    requires Evolves(s, t) && Evolves(t, u)
    ensures Evolves(s, u)
  {
    forall k | k in s.actions
      ensures k in u.actions && ActionEvolves(s.actions[k], u.actions[k])
    {
      assert ActionEvolves(s.actions[k], t.actions[k]) && ActionEvolves(t.actions[k], u.actions[k]);
    }
    forall k | k in s.grants
      ensures k in u.grants && GrantEvolves(s.grants[k], u.grants[k])
    {
      assert GrantEvolves(s.grants[k], t.grants[k]) && GrantEvolves(t.grants[k], u.grants[k]);
    }
    forall d | d in s.dispatches
      ensures d in u.dispatches && RowEvolves(s.dispatches[d], u.dispatches[d])
    {
      assert RowEvolves(s.dispatches[d], t.dispatches[d]) && RowEvolves(t.dispatches[d], u.dispatches[d]);
    }
  }

  /** A consumed grant has exactly one outbox row, and a row belongs to a consumed grant. */
  lemma ConsumedMeansOneRow(s: Store, k: Key)
    requires StoreInv(s) && k in s.actions
    ensures Spent(s, k) <==> exists d :: RowFor(s, d, k)
    ensures forall d, e :: RowFor(s, d, k) && RowFor(s, e, k) ==> d == e
    ensures s.actions[k].status == Granted ==> k in s.grants && s.grants[k].consumedAt == None
    ensures s.actions[k].receiptRef != "" || PastDispatch(s.actions[k].status) ==> HasRow(s, k)
  {
    assert ActionOk(s, k);
    if k in s.grants {
      assert GrantOk(s, k);
    }
    if d :| RowFor(s, d, k) {
      assert RowOk(s, d);
    }
  }

  // ---------------------------------------------------------------- one part of the invariant at a time

  /** Only the action k, its grant and new idempotency keys may differ. */
  lemma ActionsFrame(s: Store, t: Store, k: Key)
    requires ActionsOk(s)
    requires forall j :: j != k && j in t.actions ==> j in s.actions && t.actions[j] == s.actions[j]
    requires forall j :: j != k ==> (j in t.grants <==> j in s.grants)
    requires forall j :: j != k && j in s.grants && j in t.grants ==> t.grants[j] == s.grants[j]
    requires forall i :: i in s.byIdem ==> i in t.byIdem && t.byIdem[i] == s.byIdem[i]
    requires k in t.actions ==> ActionOk(t, k)
    ensures ActionsOk(t)
  {
    forall j | j in t.actions
      ensures ActionOk(t, j)
    {
      if j != k {
        assert ActionOk(s, j);
      }
    }
  }

  ghost predicate SameOwner(a: Action, b: Action) {
    a.binding == b.binding && a.grantRef == b.grantRef
  }

  ghost predicate RowsCarryOver(s: Store, t: Store) {
    forall d :: d in s.dispatches ==>
      && d in t.dispatches
      && t.dispatches[d].ActionId() == s.dispatches[d].ActionId()
  }

  lemma GrantsFrame(s: Store, t: Store, k: Key)
    requires GrantsOk(s) && RowsCarryOver(s, t)
    requires forall j :: j != k && j in t.grants ==> j in s.grants && t.grants[j] == s.grants[j]
    requires forall j :: j != k && j in s.actions ==> j in t.actions && SameOwner(s.actions[j], t.actions[j])
    requires k in t.grants ==> GrantOk(t, k)
    ensures GrantsOk(t)
  {
    forall j | j in t.grants
      ensures GrantOk(t, j)
    {
      if j != k {
        assert GrantOk(s, j);
        if d :| RowFor(s, d, j) {
          assert RowFor(t, d, j);
        }
      }
    }
  }

  lemma IdemsFrame(s: Store, t: Store)
    requires IdemsOk(s)
    requires forall k :: k in s.actions ==> k in t.actions && t.actions[k].binding == s.actions[k].binding
    requires forall i :: i in t.byIdem ==> (i in s.byIdem && t.byIdem[i] == s.byIdem[i]) || IdemOk(t, i)
    ensures IdemsOk(t)
  {
    forall i | i in t.byIdem
      ensures IdemOk(t, i)
    {
      if i in s.byIdem {
        assert IdemOk(s, i);
      }
    }
  }

  /** Only the row d may differ, and no other row is for its action. */
  lemma RowsFrame(s: Store, t: Store, d: Key)
    requires RowsOk(s)
    requires forall k :: k in s.actions ==> k in t.actions && t.actions[k].binding == s.actions[k].binding
    requires forall k :: Spent(s, k) ==> k in t.grants && t.grants[k] == s.grants[k]
    requires forall e :: e != d && e in t.dispatches ==> e in s.dispatches && t.dispatches[e] == s.dispatches[e]
    requires d in t.dispatches ==> RowOk(t, d)
    requires d in t.dispatches ==>
               forall e :: e in s.dispatches && s.dispatches[e].ActionId() == t.dispatches[d].ActionId() ==> e == d
    ensures RowsOk(t)
  {
    forall e | e in t.dispatches
      ensures RowOk(t, e)
    {
      if e != d {
        assert RowOk(s, e);
      }
    }
  }

  /** No row may differ. */
  lemma SameRows(s: Store, t: Store)
    requires RowsOk(s) && t.dispatches == s.dispatches
    requires forall k :: k in s.actions ==> k in t.actions && t.actions[k].binding == s.actions[k].binding
    requires forall k :: Spent(s, k) ==> k in t.grants && t.grants[k] == s.grants[k]
    ensures RowsOk(t)
  {
    forall e | e in t.dispatches
      ensures RowOk(t, e)
    {
      assert RowOk(s, e);
    }
  }

  lemma OnlyRow(s: Store, d: Key)
    requires RowsOk(s) && d in s.dispatches
    ensures forall e :: e in s.dispatches && s.dispatches[e].ActionId() == s.dispatches[d].ActionId() ==> e == d
  {
  }

  /** Only the action k, its grant and the row d may differ, and they differ by moving on. */
  lemma EvolvesFrame(s: Store, t: Store, k: Key, d: Key)
    requires forall j :: j != k && j in s.actions ==> j in t.actions && t.actions[j] == s.actions[j]
    requires k in s.actions ==> k in t.actions && ActionEvolves(s.actions[k], t.actions[k])
    requires forall j :: j != k && j in s.grants ==> j in t.grants && t.grants[j] == s.grants[j]
    requires k in s.grants ==> k in t.grants && GrantEvolves(s.grants[k], t.grants[k])
    requires forall i :: i in s.byIdem ==> i in t.byIdem && t.byIdem[i] == s.byIdem[i]
    requires forall e :: e != d && e in s.dispatches ==> e in t.dispatches && t.dispatches[e] == s.dispatches[e]
    requires d in s.dispatches ==> d in t.dispatches && RowEvolves(s.dispatches[d], t.dispatches[d])
    requires s.inbox <= t.inbox
    ensures Evolves(s, t)
  {
  }

  lemma EvolvesReflexive(s: Store)
    ensures Evolves(s, s)
  {
  }

  /** What the invariant says of one action, one grant and one row. */
  lemma ActionAt(s: Store, k: Key)
    requires StoreInv(s)
    ensures k in s.actions ==> ActionOk(s, k)
    ensures k in s.grants ==> GrantOk(s, k)
    ensures k !in s.actions ==> k !in s.grants
  {
    hide RowsOk, IdemsOk;
    if k in s.grants {
      assert GrantOk(s, k);
    }
  }

  lemma RowAt(s: Store, d: Key)
    requires StoreInv(s) && d in s.dispatches
    ensures RowOk(s, d)
  {
  }

  // ---------------------------------------------------------------- every operation keeps it

  /** What a caller of PutRequested must establish about the new action. */
  ghost predicate PutOk(s: Store, a: Action) {
    && a.binding.Id() !in s.actions
    && a.status == (if a.binding.approvalPlanRef == "" then Requested else AwaitingApproval)
    && a.grantRef == "" && a.receiptRef == ""
  }

  lemma PutKeeps(s: Store, a: Action)
    requires StoreInv(s) && PutOk(s, a)
    ensures var t := PutRequested(s, a).0; StoreInv(t) && Evolves(s, t)
  {
    hide ActionsOk, GrantsOk, IdemsOk, RowsOk, Evolves;
    EvolvesReflexive(s);
    var t, k := PutRequested(s, a).0, a.binding.Id();
    ActionAt(s, k);
    if t != s {
      ActionsFrame(s, t, k);
      GrantsFrame(s, t, k);
      IdemsFrame(s, t);
      SameRows(s, t);
      EvolvesFrame(s, t, k, k);
    }
  }

  lemma NoRowBeforeDispatch(s: Store, k: Key)
    requires RowsOk(s) && !Spent(s, k)
    ensures forall d :: d in s.dispatches ==> s.dispatches[d].ActionId() != k
  {
    forall d | d in s.dispatches
      ensures s.dispatches[d].ActionId() != k
    {
      assert RowOk(s, d);
    }
  }

  ghost predicate GrantFits(b: Binding, g: Grant) {
    GrantBinds(b, g) && g.grantRef != "" && g.consumedAt == None
  }

  lemma GrantLocal(s: Store, a: Action, g: Grant)
    requires var k := a.binding.Id();
             && k in s.actions && ActionOk(s, k) && GrantFits(s.actions[k].binding, g)
             && GrantAction(s, a, g).0 != s
    ensures var t, k := GrantAction(s, a, g).0, a.binding.Id();
            && ActionOk(t, k) && GrantOk(t, k) && ActionEvolves(s.actions[k], t.actions[k])
            && t == s.(actions := s.actions[k := t.actions[k]], grants := s.grants[k := g])
            && k !in s.grants && !Spent(t, k) && SameBinding(s, t, k)
  {
  }

  ghost predicate SameBinding(s: Store, t: Store, k: Key) {
    k in s.actions && k in t.actions && s.actions[k].binding == t.actions[k].binding
  }

  lemma GrantNeedsAction(s: Store, a: Action, g: Grant)
    requires GrantAction(s, a, g).0 != s
    ensures a.binding.Id() in s.actions
  {
  }

  lemma GrantKeeps(s: Store, a: Action, g: Grant)
    requires StoreInv(s)
    requires a.binding.Id() in s.actions ==> GrantFits(s.actions[a.binding.Id()].binding, g)
    ensures var t := GrantAction(s, a, g).0; StoreInv(t) && Evolves(s, t)
  {
    hide ActionsOk, GrantsOk, IdemsOk, RowsOk, Evolves, ActionOk, GrantOk, ActionEvolves, GrantAction, GrantFits;
    var t, k := GrantAction(s, a, g).0, a.binding.Id();
    EvolvesReflexive(s);
    ActionAt(s, k);
    if t != s {
      assert k in s.actions by { GrantNeedsAction(s, a, g); }
      GrantLocal(s, a, g);
      ActionsFrame(s, t, k);
      GrantsFrame(s, t, k);
      IdemsFrame(s, t);
      SameRows(s, t);
      EvolvesFrame(s, t, k, k);
    }
  }

  /** In any store, whatever its state: a grant that is there is never replaced, and granting again is refused. */
  lemma GrantIsNotReplaced(s: Store, a: Action, g: Grant)
    requires a.binding.Id() in s.grants
    ensures GrantAction(s, a, g).0 == s && GrantAction(s, a, g).1.Err?
    ensures a.binding.Id() in s.actions && s.actions[a.binding.Id()].status in {Requested, AwaitingApproval} ==>
              GrantAction(s, a, g).1 == Err(EvidenceConsumed)
  {
  }

  /** What a caller of DispatchAction must establish about the new row. */
  ghost predicate RowFits(s: Store, k: Key, d: Dispatch) {
    && k in s.actions && k in s.grants
    && d.Id() !in s.dispatches
    && d.ActionId() == k
    && RowBinds(s.actions[k].binding, s.grants[k], d)
    && !Final(d) && d.attempts == 0 && d.nextAttemptAt == None
  }

  lemma DispatchLocal(s: Store, k: Key, d: Dispatch, at: Time)
    requires RowFits(s, k, d) && ActionOk(s, k) && GrantOk(s, k)
    requires DispatchAction(s, k, d, at).0 != s
    ensures var t := DispatchAction(s, k, d, at).0;
            && k in t.actions && k in t.grants && d.Id() in t.dispatches
            && ActionOk(t, k) && GrantOk(t, k) && RowOk(t, d.Id())
            && ActionEvolves(s.actions[k], t.actions[k]) && GrantEvolves(s.grants[k], t.grants[k])
            && t == s.(actions := s.actions[k := t.actions[k]], grants := s.grants[k := t.grants[k]],
                       dispatches := s.dispatches[d.Id() := d])
            && !Spent(s, k) && SameOwner(s.actions[k], t.actions[k])
  {
    var t := DispatchAction(s, k, d, at).0;
    assert RowFor(t, d.Id(), k);
  }

  lemma DispatchKeeps(s: Store, k: Key, d: Dispatch, at: Time)
    requires StoreInv(s) && RowFits(s, k, d)
    ensures var t := DispatchAction(s, k, d, at).0; StoreInv(t) && Evolves(s, t)
  {
    hide ActionsOk, GrantsOk, IdemsOk, RowsOk, Evolves, ActionOk, GrantOk, RowOk, ActionEvolves, GrantEvolves;
    hide DispatchAction, RowBinds;
    var t := DispatchAction(s, k, d, at).0;
    EvolvesReflexive(s);
    ActionAt(s, k);
    if t != s {
      DispatchLocal(s, k, d, at);
      NoRowBeforeDispatch(s, k);
      ActionsFrame(s, t, k);
      GrantsFrame(s, t, k);
      IdemsFrame(s, t);
      RowsFrame(s, t, d.Id());
      EvolvesFrame(s, t, k, d.Id());
    }
  }

  /** Statuses an action may be moved to without a grant, a row or a receipt. */
  predicate PlainTarget(to: Status) {
    to in {Executing, ResultUnknown, Reconciling, Failed, Compensating, HumanTakeover}
  }

  lemma MoveLocal(s: Store, t: Store, k: Key, b: Action)
    requires k in s.actions && ActionOk(s, k)
    requires t.actions == s.actions[k := b] && t.byIdem == s.byIdem && t.grants == s.grants
    requires SameOwner(s.actions[k], b) && b.approvalEvidenceRef == s.actions[k].approvalEvidenceRef
    requires CanTransition(s.actions[k].status, b.status) && b.status !in {AwaitingApproval, Granted}
    requires PastDispatch(b.status) || b.receiptRef != "" ==> Spent(s, k)
    ensures ActionOk(t, k) && ActionEvolves(s.actions[k], b)
  {
  }

  /** Replacing one action by a later version of itself. */
  lemma MoveKeeps(s: Store, t: Store, k: Key, b: Action)
    requires StoreInv(s) && k in s.actions
    requires t.actions == s.actions[k := b]
    requires t.byIdem == s.byIdem && t.grants == s.grants && t.dispatches == s.dispatches
    requires t.claimed == s.claimed && s.inbox <= t.inbox
    requires SameOwner(s.actions[k], b) && b.approvalEvidenceRef == s.actions[k].approvalEvidenceRef
    requires CanTransition(s.actions[k].status, b.status) && b.status !in {AwaitingApproval, Granted}
    requires PastDispatch(b.status) || b.receiptRef != "" ==> Spent(s, k)
    ensures StoreInv(t) && Evolves(s, t)
  {
    hide ActionsOk, GrantsOk, IdemsOk, RowsOk, Evolves, ActionOk, ActionEvolves, CanTransition;
    ActionAt(s, k);
    MoveLocal(s, t, k, b);
    ActionsFrame(s, t, k);
    SameGrantAndRows(s, t, k);
    EvolvesFrame(s, t, k, k);
  }

  lemma SameGrantAndRows(s: Store, t: Store, k: Key)
    requires GrantsOk(s) && IdemsOk(s) && RowsOk(s)
    requires t.byIdem == s.byIdem && t.grants == s.grants && t.dispatches == s.dispatches
    requires forall j :: j in s.actions ==> j in t.actions && SameOwner(s.actions[j], t.actions[j])
    ensures GrantsOk(t) && IdemsOk(t) && RowsOk(t)
  {
    if k in s.grants {
      assert GrantOk(s, k);
      if d :| RowFor(s, d, k) {
        assert RowFor(t, d, k);
      }
    }
    GrantsFrame(s, t, k);
    IdemsFrame(s, t);
    SameRows(s, t);
  }

  lemma AdvanceKeeps(s: Store, k: Key, from: Status, to: Status, reason: string, at: Time)
    requires StoreInv(s) && PlainTarget(to)
    ensures var t := Advance(s, k, from, to, reason, at).0; StoreInv(t) && Evolves(s, t)
  {
    hide ActionsOk, GrantsOk, IdemsOk, RowsOk, Evolves;
    EvolvesReflexive(s);
    var t := Advance(s, k, from, to, reason, at).0;
    ActionAt(s, k);
    if t != s {
      MoveKeeps(s, t, k, t.actions[k]);
    }
  }

  lemma IngestKeeps(s: Store, r: ConnectorResult, to: Status, at: Time)
    requires StoreInv(s) && TerminalReceiptStatus(to)
    requires Spent(s, Key(r.tenantRef, r.actionRef))
    ensures var t := IngestResult(s, r, to, at).0; StoreInv(t) && Evolves(s, t)
  {
    hide ActionsOk, GrantsOk, IdemsOk, RowsOk, Evolves;
    EvolvesReflexive(s);
    var k, t := Key(r.tenantRef, r.actionRef), IngestResult(s, r, to, at).0;
    ActionAt(s, k);
    if t != s {
      MoveKeeps(s, t, k, t.actions[k]);
    }
  }

  lemma AcquireKeeps(s: Store, d: Key, at: Time, eligibleOnly: bool)
    requires StoreInv(s)
    ensures var t := AcquireDispatch(s, d, at, eligibleOnly).0; StoreInv(t) && Evolves(s, t)
  {
    hide ActionsOk, GrantsOk, IdemsOk, RowsOk, Evolves;
    SetClaimedKeeps(s, AcquireDispatch(s, d, at, eligibleOnly).0.claimed);
  }

  lemma ReleaseKeeps(s: Store, d: Key)
    requires StoreInv(s)
    ensures var t := ReleaseDispatch(s, d); StoreInv(t) && Evolves(s, t)
  {
    hide ActionsOk, GrantsOk, IdemsOk, RowsOk, Evolves;
    SetClaimedKeeps(s, s.claimed - {d});
  }

  lemma SetClaimedKeeps(s: Store, claimed: set<Key>)
    requires StoreInv(s) && claimed <= s.dispatches.Keys
    ensures var t := s.(claimed := claimed); StoreInv(t) && Evolves(s, t)
  {
    hide ActionsOk, GrantsOk, IdemsOk, RowsOk, Evolves;
    var t, k := s.(claimed := claimed), Key("", "");
    ActionAt(s, k);
    ActionsFrame(s, t, k);
    SameGrantAndRows(s, t, k);
    EvolvesFrame(s, t, k, k);
  }

  /** An outcome that respects the attempt bound of the row it is recorded on. */
  ghost predicate OutcomeFits(d: Dispatch, o: DispatchOutcome) {
    !Final(d) && (o.published || (o.deadLetter <==> d.attempts + 1 >= MAX_DISPATCH_ATTEMPTS))
  }

  lemma RecordLocal(s: Store, d: Key, o: DispatchOutcome, at: Time)
    requires d in s.dispatches && RowOk(s, d) && OutcomeFits(s.dispatches[d], o)
    requires GrantOk(s, s.dispatches[d].ActionId())
    ensures var t := RecordOutcome(s, d, o, at);
            && t == s.(dispatches := s.dispatches[d := t.dispatches[d]])
            && RowOk(t, d) && RowEvolves(s.dispatches[d], t.dispatches[d])
            && t.dispatches[d].ActionId() == s.dispatches[d].ActionId()
            && GrantOk(t, s.dispatches[d].ActionId())
  {
    assert RowFor(RecordOutcome(s, d, o, at), d, s.dispatches[d].ActionId());
  }

  lemma RecordKeeps(s: Store, d: Key, o: DispatchOutcome, at: Time)
    requires StoreInv(s) && (d in s.dispatches ==> OutcomeFits(s.dispatches[d], o))
    ensures var t := RecordOutcome(s, d, o, at); StoreInv(t) && Evolves(s, t)
  {
    hide ActionsOk, GrantsOk, IdemsOk, RowsOk, Evolves, ActionOk, GrantOk, RowEvolves, OutcomeFits;
    var t := RecordOutcome(s, d, o, at);
    EvolvesReflexive(s);
    if d in s.dispatches {
      RowAt(s, d);
      var k := s.dispatches[d].ActionId();
      ActionAt(s, k);
      RecordLocal(s, d, o, at);
      OnlyRow(s, d);
      SameActions(s, t);
      GrantsFrame(s, t, k);
      IdemsFrame(s, t);
      RowsFrame(s, t, d);
      EvolvesFrame(s, t, k, d);
    }
  }

  lemma SameActions(s: Store, t: Store)
    requires ActionsOk(s) && t.actions == s.actions && t.byIdem == s.byIdem && t.grants == s.grants
    ensures ActionsOk(t)
    ensures forall k :: k in s.actions ==> ActionEvolves(s.actions[k], t.actions[k])
  {
    forall k | k in t.actions
      ensures ActionOk(t, k)
    {
      assert ActionOk(s, k);
    }
  }
}
