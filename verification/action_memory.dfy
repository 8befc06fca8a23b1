/** The in-memory store, evidence consumer and audit sink, which update their maps in place
    (services/agentnexus/internal/actions/model.go). */
module ActionMemory {
  import opened ActionOps
  import opened ActionOutbox
  import opened ActionState
  import opened ActionStore
  import opened ActionSystem
  import opened ActionTypes
  import opened Wrappers

  /** How one pass of deliveries goes. A pass sends no message twice, so answers and clock readings by message stand
      for any answers and any clock. */
  datatype Transport = Transport(failure: DispatchMessage -> Option<string>, clock: DispatchMessage -> Time)

  function Answer(transport: Transport): Dispatch -> DispatchOutcome {
    d => Outcome(d, transport.failure(MessageOf(d)), transport.clock(MessageOf(d)))
  }

  /** The deliverer a claim is made with: it publishes the message of a row and keeps what the transport accepted. */
  class Deliverer {
    const transport: Transport
    var sent: seq<DispatchMessage>
    var published: nat

    constructor (transport: Transport)
      ensures this.transport == transport && sent == [] && published == 0
    {
      this.transport, sent, published := transport, [], 0;
    }

    method Deliver(d: Dispatch) returns (o: DispatchOutcome)
      modifies this
      ensures o == Answer(transport)(d)
      ensures var message := MessageOf(d);
              match transport.failure(message)
              case None => o.published
              case Some(e) =>
                && !o.published && o.lastError == e && (o.deadLetter <==> d.attempts >= 7)
                && (d.attempts < 7 ==>
                      o.nextAttemptAt
                      == Some(transport.clock(message) + [5, 10, 20, 40, 80, 160, 300][d.attempts] * SECOND))
      ensures sent == old(sent) + Accepted(transport, [d])
      ensures published == old(published) + |Accepted(transport, [d])|
    {
      var message := MessageOf(d);
      var failed := transport.failure(message);
      if failed.None? {
        sent := sent + [message];
        published := published + 1;
        return DispatchOutcome(true, None, "", false);
      }
      var attempts := d.attempts + 1;
      if attempts >= MAX_DISPATCH_ATTEMPTS {
        return DispatchOutcome(false, None, failed.value, true);
      }
      var delay := DispatchRetryDelay(attempts);
      BackoffSchedule();
      o := DispatchOutcome(false, Some(transport.clock(message) + delay), failed.value, false);
    }
  }

  /** The messages the transport accepts out of the rows delivered in order. */
  function Accepted(transport: Transport, rows: seq<Dispatch>): seq<DispatchMessage>
    decreases |rows|
  {
    if rows == [] then []
    else
      var before, last := Accepted(transport, rows[..|rows| - 1]), MessageOf(rows[|rows| - 1]);
      if transport.failure(last).None? then before + [last] else before
  }

  const DEFAULT_DISPATCH_CLAIM_BATCH: nat := 1000

  /** The rows of a tenant a drain may attempt. */
  ghost predicate Eligible(s: Store, tenant: string, at: Time, d: Key) {
    d in s.dispatches && d.tenant == tenant && d !in s.claimed && Claimable(s.dispatches[d], at, true)
  }

  ghost function RowsAt(s: Store, order: seq<Key>): (rows: seq<Dispatch>)
    requires forall d :: d in order ==> d in s.dispatches
    ensures |rows| == |order|
  {
    seq(|order|, i requires 0 <= i < |order| => s.dispatches[order[i]])
  }

  /** The store after one recorded attempt on each of the given rows. */
  ghost function Drained(s: Store, order: seq<Key>, verdict: Dispatch -> DispatchOutcome, at: Time): Store {
    s.(dispatches := map d | d in s.dispatches ::
         if d in order then Recorded(s.dispatches[d], verdict(s.dispatches[d]), at) else s.dispatches[d])
  }

  /** A pass attempts distinct eligible rows, oldest first, and leaves out none that is older. */
  ghost predicate OldestFirst(s: Store, tenant: string, at: Time, order: seq<Key>) {
    && (forall i :: 0 <= i < |order| ==> Eligible(s, tenant, at, order[i]))
    && (forall i, j :: 0 <= i < j < |order| ==>
          order[i] != order[j] && s.dispatches[order[i]].createdAt <= s.dispatches[order[j]].createdAt)
    && (forall d, i :: Eligible(s, tenant, at, d) && d !in order && 0 <= i < |order| ==>
          s.dispatches[order[i]].createdAt <= s.dispatches[d].createdAt)
  }

  /** Rows are stored under their own reference. */
  ghost predicate KeyedRows(s: Store) {
    forall d :: d in s.dispatches ==> s.dispatches[d].Id() == d
  }

  class MemoryStore {
    var actions: map<Key, Action>
    var byIdem: map<Key, string>
    var grants: map<Key, Grant>
    var dispatches: map<Key, Dispatch>
    var claimed: set<Key>
    var inbox: set<Key>
    var receipts: map<Key, Receipt>

    ghost function View(): Store
      reads this
    {
      Store(actions, byIdem, grants, dispatches, claimed, inbox, receipts)
    }

    ghost predicate Keyed()
      reads this
    {
      KeyedRows(View())
    }

    constructor ()
      ensures View() == EMPTY && Keyed()
    {
      actions, byIdem, grants, dispatches := map[], map[], map[], map[];
      claimed, inbox, receipts := {}, {}, map[];
    }

    method PutRequested(action: Action) returns (r: Result<(Action, bool), Error>)
      modifies this
      ensures (View(), r) == ActionStore.PutRequested(old(View()), action)
    {
      var idemKey := action.binding.IdemKey();
      if idemKey in byIdem {
        var ref := Key(action.binding.tenantRef, byIdem[idemKey]);
        var existing := if ref in actions then actions[ref] else NO_ACTION;
        if existing.binding.capability != action.binding.capability
           || existing.binding.parameterHash != action.binding.parameterHash
           || existing.binding.businessContextRef != action.binding.businessContextRef
        {
          return Err(IdempotencyConflict);
        }
        return Ok((existing, false));
      }
      actions := actions[action.binding.Id() := action];
      byIdem := byIdem[idemKey := action.binding.actionRef];
      r := Ok((action, true));
    }

    method GetByIdempotencyKey(tenantRef: string, idempotencyKey: string) returns (r: Result<Action, Error>)
      ensures r == if Key(tenantRef, idempotencyKey) !in byIdem then Err(NotFound)
                   else Ok(Lookup(View(), Key(tenantRef, byIdem[Key(tenantRef, idempotencyKey)])))
    {
      if Key(tenantRef, idempotencyKey) !in byIdem {
        return Err(NotFound);
      }
      var ref := Key(tenantRef, byIdem[Key(tenantRef, idempotencyKey)]);
      r := Ok(if ref in actions then actions[ref] else NO_ACTION);
    }

    method GetAction(tenantRef: string, actionRef: string) returns (r: Result<Action, Error>)
      ensures r == Read(View(), Key(tenantRef, actionRef))
    {
      if Key(tenantRef, actionRef) !in actions {
        return Err(NotFound);
      }
      r := Ok(actions[Key(tenantRef, actionRef)]);
    }

    method Grant(action: Action, grant: ActionTypes.Grant) returns (r: Result<Action, Error>)
      modifies this
      ensures (View(), r) == GrantAction(old(View()), action, grant)
    {
      var key := action.binding.Id();
      if key !in actions {
        return Err(NotFound);
      }
      var stored := actions[key];
      if !CanTransition(stored.status, Granted) {
        return Err(ForbiddenTransition);
      }
      if key in grants {
        return Err(EvidenceConsumed);
      }
      grants := grants[key := grant];
      stored := stored.(status := Granted, grantRef := grant.grantRef);
      stored := stored.(approvalEvidenceRef := action.approvalEvidenceRef, updatedAt := grant.issuedAt);
      actions := actions[key := stored];
      r := Ok(stored);
    }

    method Dispatch(tenantRef: string, actionRef: string, dispatch: ActionTypes.Dispatch, at: Time)
      returns (r: Result<Action, Error>)
      modifies this
      ensures (View(), r) == DispatchAction(old(View()), Key(tenantRef, actionRef), dispatch, at)
    {
      var key := Key(tenantRef, actionRef);
      if key !in actions {
        return Err(NotFound);
      }
      var stored := actions[key];
      if !CanTransition(stored.status, Dispatched) {
        return Err(ForbiddenTransition);
      }
      if key !in grants {
        return Err(NotFound);
      }
      var grant := grants[key];
      var fault := ConsumeFault(grant, at);
      if fault.Some? {
        return Err(fault.value);
      }
      grant := grant.(consumedAt := Some(at));
      grants := grants[key := grant];
      dispatches := dispatches[Key(tenantRef, dispatch.dispatchRef) := dispatch];
      stored := stored.(status := Dispatched, updatedAt := at);
      actions := actions[key := stored];
      r := Ok(stored);
    }

    method Transition(tenantRef: string, actionRef: string, from: Status, to: Status, reason: string, at: Time)
      returns (r: Result<Action, Error>)
      modifies this
      ensures (View(), r) == Advance(old(View()), Key(tenantRef, actionRef), from, to, reason, at)
    {
      hide CanTransition;
      var key := Key(tenantRef, actionRef);
      if key !in actions {
        return Err(NotFound);
      }
      var stored := actions[key];
      if stored.status != from {
        return Err(ForbiddenTransition);
      }
      if !CanTransition(from, to) {
        return Err(ForbiddenTransition);
      }
      stored := stored.(status := to, updatedAt := at);
      if reason != "" {
        stored := stored.(failureReason := reason);
      }
      actions := actions[key := stored];
      r := Ok(stored);
    }

    method IngestResult(result: ConnectorResult, to: Status, at: Time) returns (r: Result<(Action, bool), Error>)
      modifies this
      ensures (View(), r) == ActionStore.IngestResult(old(View()), result, to, at)
    {
      var inboxKey := Key(result.tenantRef, result.resultId);
      var key := Key(result.tenantRef, result.actionRef);
      if inboxKey in inbox {
        return Ok((if key in actions then actions[key] else NO_ACTION, false));
      }
      if key !in actions {
        return Err(NotFound);
      }
      var stored := actions[key];
      if !CanTransition(stored.status, to) {
        return Err(ForbiddenTransition);
      }
      inbox := inbox + {inboxKey};
      receipts := receipts[Key(result.tenantRef, result.receipt.receiptRef) := result.receipt];
      stored := stored.(status := to, receiptRef := result.receipt.receiptRef, updatedAt := at);
      actions := actions[key := stored];
      r := Ok((stored, true));
    }

    method ResultApplied(tenantRef: string, resultId: string) returns (applied: bool)
      ensures applied <==> Key(tenantRef, resultId) in inbox
    {
      applied := Key(tenantRef, resultId) in inbox;
    }

    // -------------------------------------------------------------- claiming outbox rows

    method AcquireDispatch(tenantRef: string, dispatchRef: string, at: Time, eligibleOnly: bool)
      returns (r: Option<ActionTypes.Dispatch>)
      modifies this
      ensures (View(), r) == ActionStore.AcquireDispatch(old(View()), Key(tenantRef, dispatchRef), at, eligibleOnly)
    {
      var key := Key(tenantRef, dispatchRef);
      if key !in dispatches || !Claimable(dispatches[key], at, eligibleOnly) || key in claimed {
        return None;
      }
      claimed := claimed + {key};
      r := Some(dispatches[key]);
    }

    method ReleaseDispatch(tenantRef: string, dispatchRef: string)
      modifies this
      ensures View() == ActionStore.ReleaseDispatch(old(View()), Key(tenantRef, dispatchRef))
    {
      claimed := claimed - {Key(tenantRef, dispatchRef)};
    }

    method ApplyDispatchOutcome(tenantRef: string, dispatchRef: string, outcome: DispatchOutcome, at: Time)
      modifies this
      ensures View() == RecordOutcome(old(View()), Key(tenantRef, dispatchRef), outcome, at)
    {
      var key := Key(tenantRef, dispatchRef);
      if key !in dispatches {
        return;
      }
      var dispatch := dispatches[key];
      dispatch := dispatch.(attempts := dispatch.attempts + 1);
      if outcome.published {
        dispatch := dispatch.(published := true, publishedAt := Some(at));
        dispatches := dispatches[key := dispatch];
        return;
      }
      dispatch := dispatch.(lastError := outcome.lastError, nextAttemptAt := outcome.nextAttemptAt);
      if outcome.deadLetter {
        dispatch := dispatch.(deadLetteredAt := Some(at), nextAttemptAt := None);
      }
      dispatches := dispatches[key := dispatch];
    }

    /** Acquire, deliver, record, release one row; a row in flight or final is skipped. */
    method ClaimDispatch(tenantRef: string, dispatchRef: string, at: Time, deliver: Deliverer?)
      returns (r: Result<bool, Error>)
      requires deliver != null ==> deliver as object != this
      modifies this, if deliver == null then {} else {deliver}
      ensures deliver == null ==> r == Err(InvalidInput) && View() == old(View())
      ensures deliver != null ==>
                var key, s := Key(tenantRef, dispatchRef), old(View());
                if key in s.dispatches && !Final(s.dispatches[key]) && key !in s.claimed then
                  && r == Ok(true)
                  && View() == Drained(s, [key], Answer(deliver.transport), at)
                  && deliver.sent == old(deliver.sent) + Accepted(deliver.transport, [s.dispatches[key]])
                else
                  r == Ok(false) && View() == s && deliver.sent == old(deliver.sent)
    {
      if deliver == null {
        return Err(InvalidInput);
      }
      var dispatch := AcquireDispatch(tenantRef, dispatchRef, at, false);
      if dispatch.None? {
        return Ok(false);
      }
      var outcome := deliver.Deliver(dispatch.value);
      ApplyDispatchOutcome(tenantRef, dispatchRef, outcome, at);
      ReleaseDispatch(tenantRef, dispatchRef);
      r := Ok(true);
    }

    /** The oldest eligible, unclaimed, unvisited row, now in flight. */
    method AcquireNextDispatch(tenantRef: string, at: Time, visited: set<string>)
      returns (r: Option<ActionTypes.Dispatch>)
      requires Keyed()
      modifies this`claimed
      ensures r == None ==>
                && View() == old(View())
                && forall d :: Eligible(View(), tenantRef, at, d) ==> d.ref in visited
      ensures r.Some? ==>
                var d, s := r.value.Id(), old(View());
                && Eligible(s, tenantRef, at, d) && d.ref !in visited && s.dispatches[d] == r.value
                && (forall e :: Eligible(s, tenantRef, at, e) && e.ref !in visited ==>
                      s.dispatches[d].createdAt <= s.dispatches[e].createdAt)
                && View() == s.(claimed := s.claimed + {d})
    {
      var next: Option<ActionTypes.Dispatch> := None;
      var keys := dispatches.Keys;
      while keys != {}
        invariant keys <= dispatches.Keys
        invariant next.Some? ==>
                    var d := next.value.Id();
                    Eligible(View(), tenantRef, at, d) && d.ref !in visited && dispatches[d] == next.value
        invariant forall d :: d !in keys && Eligible(View(), tenantRef, at, d) && d.ref !in visited ==>
                    next.Some? && next.value.createdAt <= dispatches[d].createdAt
        decreases |keys|
      {
        var key :| key in keys;
        keys := keys - {key};
        var dispatch := dispatches[key];
        if dispatch.tenantRef == tenantRef && dispatch.dispatchRef !in visited && key !in claimed
           && Claimable(dispatch, at, true)
           && (next.None? || dispatch.createdAt < next.value.createdAt)
        {
          next := Some(dispatch);
        }
      }
      if next.None? {
        return None;
      }
      claimed := claimed + {Key(tenantRef, next.value.dispatchRef)};
      r := next;
    }

    /** One pass over a store nobody else uses: every eligible row is attempted once, oldest first, up to the
        bound; every attempt is recorded and nothing else changes. */
    method ClaimPendingDispatches(tenantRef: string, limit: int, at: Time, deliver: Deliverer?)
      returns (r: Result<nat, Error>, ghost order: seq<Key>)
      requires Keyed() && (deliver != null ==> deliver as object != this)
      modifies this, if deliver == null then {} else {deliver}
      ensures deliver == null ==> r == Err(InvalidInput) && View() == old(View())
      ensures deliver != null ==>
                var bound := if limit <= 0 then DEFAULT_DISPATCH_CLAIM_BATCH else limit;
                && r == Ok(|order|) && |order| <= bound
                && OldestFirst(old(View()), tenantRef, at, order)
                && (|order| < bound ==> forall d :: Eligible(old(View()), tenantRef, at, d) ==> d in order)
                && View() == Drained(old(View()), order, Answer(deliver.transport), at)
                && deliver.sent == old(deliver.sent) + Accepted(deliver.transport, RowsAt(old(View()), order))
                && deliver.published
                   == old(deliver.published) + |Accepted(deliver.transport, RowsAt(old(View()), order))|
    {
      hide Drained, OldestFirst, Eligible, Accepted, RowsAt, KeyedRows, RecordOutcome;
      order := [];
      if deliver == null {
        r := Err(InvalidInput);
        return;
      }
      var bound: nat := if limit <= 0 then DEFAULT_DISPATCH_CLAIM_BATCH else limit;
      var visited: set<string> := {};
      var count := 0;
      ghost var s := View();
      NothingDrained(s, tenantRef, at, Answer(deliver.transport), deliver.transport);
      var exhausted := false;
      while count < bound && !exhausted
        invariant count == |order| <= bound
        invariant forall d :: d in order ==> d in s.dispatches
        invariant View() == Drained(s, order, Answer(deliver.transport), at)
        invariant OldestFirst(s, tenantRef, at, order)
        invariant forall d :: d in s.dispatches && d.tenant == tenantRef ==> (d.ref in visited <==> d in order)
        invariant deliver.sent == old(deliver.sent) + Accepted(deliver.transport, RowsAt(s, order))
        invariant deliver.published == old(deliver.published) + |Accepted(deliver.transport, RowsAt(s, order))|
        invariant exhausted ==> forall d :: Eligible(s, tenantRef, at, d) ==> d in order
        decreases !exhausted, bound - count
      {
        DrainedKeyed(s, order, Answer(deliver.transport), at);
        var dispatch := AcquireNextDispatch(tenantRef, at, visited);
        if dispatch.None? {
          NoneLeft(s, tenantRef, at, order, Answer(deliver.transport), visited);
          exhausted := true;
        } else {
          ghost var d := dispatch.value.Id();
          OldestNext(s, tenantRef, at, order, Answer(deliver.transport), visited, d);
          visited := visited + {dispatch.value.dispatchRef};
          var outcome := deliver.Deliver(dispatch.value);
          ApplyDispatchOutcome(tenantRef, dispatch.value.dispatchRef, outcome, at);
          ReleaseDispatch(tenantRef, dispatch.value.dispatchRef);
          ClaimLeavesNoTrace(Drained(s, order, Answer(deliver.transport), at), d, outcome, at);
          DrainedOneMore(s, order, d, Answer(deliver.transport), at);
          AcceptedOneMore(deliver.transport, s, order, d);
          order := order + [d];
          count := count + 1;
        }
      }
      r := Ok(count);
    }
  }

  /** An eligible row that was not visited is still as it was. */
  lemma EligibleAfter(s: Store, tenant: string, at: Time, order: seq<Key>, verdict: Dispatch -> DispatchOutcome, d: Key)
    requires d !in order
    ensures Eligible(Drained(s, order, verdict, at), tenant, at, d) <==> Eligible(s, tenant, at, d)
    ensures d in s.dispatches ==> Drained(s, order, verdict, at).dispatches[d] == s.dispatches[d]
  {
  }

  lemma NothingDrained(
      s: Store, tenant: string, at: Time, verdict: Dispatch -> DispatchOutcome, transport: Transport)
    ensures Drained(s, [], verdict, at) == s && OldestFirst(s, tenant, at, []) && Accepted(transport, RowsAt(s, [])) == []
  {
    assert Drained(s, [], verdict, at).dispatches == s.dispatches;
  }

  lemma DrainedKeyed(s: Store, order: seq<Key>, verdict: Dispatch -> DispatchOutcome, at: Time)
    requires KeyedRows(s)
    ensures KeyedRows(Drained(s, order, verdict, at))
  {
  }

  lemma ClaimLeavesNoTrace(s: Store, d: Key, o: DispatchOutcome, at: Time)
    requires d in s.dispatches && d !in s.claimed
    ensures ActionStore.ReleaseDispatch(RecordOutcome(s.(claimed := s.claimed + {d}), d, o, at), d)
            == RecordOutcome(s, d, o, at)
  {
    hide Recorded;
    assert s.claimed + {d} - {d} == s.claimed;
  }

  lemma NoneLeft(
      s: Store, tenant: string, at: Time, order: seq<Key>, verdict: Dispatch -> DispatchOutcome, visited: set<string>)
    requires forall d :: d in s.dispatches && d.tenant == tenant ==> (d.ref in visited <==> d in order)
    requires forall d :: Eligible(Drained(s, order, verdict, at), tenant, at, d) ==> d.ref in visited
    ensures forall d :: Eligible(s, tenant, at, d) ==> d in order
  {
    forall d | Eligible(s, tenant, at, d)
      ensures d in order
    {
      if d !in order {
        EligibleAfter(s, tenant, at, order, verdict, d);
      }
    }
  }

  lemma OldestNext(
      s: Store, tenant: string, at: Time, order: seq<Key>, verdict: Dispatch -> DispatchOutcome, visited: set<string>,
      d: Key)
    requires OldestFirst(s, tenant, at, order)
    requires forall e :: e in s.dispatches && e.tenant == tenant ==> (e.ref in visited <==> e in order)
    requires var t := Drained(s, order, verdict, at);
             && Eligible(t, tenant, at, d) && d.ref !in visited
             && forall e :: Eligible(t, tenant, at, e) && e.ref !in visited ==>
                  t.dispatches[d].createdAt <= t.dispatches[e].createdAt
    ensures OldestFirst(s, tenant, at, order + [d]) && d !in order && d in s.dispatches
    ensures Drained(s, order, verdict, at).dispatches[d] == s.dispatches[d]
  {
    hide Claimable, Recorded;
    assert d !in order;
    EligibleAfter(s, tenant, at, order, verdict, d);
    var t, next := Drained(s, order, verdict, at), order + [d];
    forall i | 0 <= i < |next|
      ensures Eligible(s, tenant, at, next[i])
    {
      assert i < |order| ==> next[i] == order[i];
    }
    forall i, j | 0 <= i < j < |next|
      ensures next[i] != next[j] && s.dispatches[next[i]].createdAt <= s.dispatches[next[j]].createdAt
    {
      assert i < |order| && next[i] == order[i] && (j < |order| ==> next[j] == order[j]);
    }
    forall e, i | Eligible(s, tenant, at, e) && e !in next && 0 <= i < |next|
      ensures s.dispatches[next[i]].createdAt <= s.dispatches[e].createdAt
    {
      EligibleAfter(s, tenant, at, order, verdict, e);
      assert e !in order && (i < |order| ==> next[i] == order[i]);
      assert t.dispatches[d].createdAt <= t.dispatches[e].createdAt;
    }
  }

  lemma DrainedOneMore(s: Store, order: seq<Key>, d: Key, verdict: Dispatch -> DispatchOutcome, at: Time)
    requires d in s.dispatches && d !in order
    ensures Drained(s, order + [d], verdict, at)
            == RecordOutcome(Drained(s, order, verdict, at), d, verdict(s.dispatches[d]), at)
  {
    hide Recorded;
    var t, u := Drained(s, order, verdict, at), Drained(s, order + [d], verdict, at);
    assert u.dispatches == t.dispatches[d := Recorded(s.dispatches[d], verdict(s.dispatches[d]), at)];
  }

  lemma AcceptedOneMore(transport: Transport, s: Store, order: seq<Key>, d: Key)
    requires d in s.dispatches && forall e :: e in order ==> e in s.dispatches
    ensures Accepted(transport, RowsAt(s, order + [d]))
            == Accepted(transport, RowsAt(s, order)) + Accepted(transport, [s.dispatches[d]])
  {
    var rows := RowsAt(s, order + [d]);
    assert rows[..|rows| - 1] == RowsAt(s, order);
    assert [s.dispatches[d]][..0] == [];
  }

  // ---------------------------------------------------------------- evidence and audit

  class MemoryEvidenceConsumer {
    var records: map<Key, ConsumedEvidence>
    var consumed: set<Key>
    var revoked: set<Key>

    ghost function View(): Evidence
      reads this
    {
      Evidence(records, consumed, revoked)
    }

    constructor ()
      ensures View() == Evidence(map[], {}, {})
    {
      records, consumed, revoked := map[], {}, {};
    }

    method Seed(tenantRef: string, evidence: ConsumedEvidence)
      modifies this
      ensures View() == old(View()).(records := old(records)[Key(tenantRef, evidence.planRef) := evidence])
    {
      records := records[Key(tenantRef, evidence.planRef) := evidence];
    }

    method Revoke(tenantRef: string, planRef: string)
      modifies this
      ensures View() == old(View()).(revoked := old(revoked) + {Key(tenantRef, planRef)})
    {
      revoked := revoked + {Key(tenantRef, planRef)};
    }

    method ConsumeApprovalEvidence(tenantRef: string, planRef: string) returns (r: Result<ConsumedEvidence, Error>)
      modifies this
      ensures (View(), r) == ConsumeEvidence(old(View()), Key(tenantRef, planRef))
    {
      var key := Key(tenantRef, planRef);
      if key in revoked {
        return Err(EvidenceRejected);
      }
      if key !in records {
        return Err(NotFound);
      }
      if key in consumed {
        return Err(EvidenceConsumed);
      }
      consumed := consumed + {key};
      r := Ok(records[key]);
    }
  }

  /** A sink whose failure can be set and cleared at any moment, even between two appends of one operation. */
  class MemoryAuditSink {
    const outages: nat -> bool // whether it is failing when append number n is tried
    var attempts: nat
    var events: seq<AuditEvent>
    var minted: nat

    ghost predicate Valid()
      reads this
    {
      minted == |events|
    }

    constructor (outages: nat -> bool)
      ensures Valid() && events == [] && attempts == 0 && this.outages == outages
    {
      this.outages, attempts, events, minted := outages, 0, [], 0;
    }

    /** The reference of the event, or nothing appended. */
    method AppendActionAudit(event: AuditEvent) returns (r: Result<nat, Error>)
      requires Valid()
      modifies this
      ensures Valid() && attempts == old(attempts) + 1
      ensures outages(old(attempts)) ==> r == Err(Unavailable) && events == old(events)
      ensures !outages(old(attempts)) ==> r == Ok(|events|) && events == old(events) + [event]
    {
      attempts := attempts + 1;
      if outages(attempts - 1) {
        return Err(Unavailable);
      }
      minted := minted + 1;
      events := events + [event];
      r := Ok(minted);
    }
  }

  // ---------------------------------------------------------------- a drain is one of the interleaved runs

  function ClaimSteps(c: nat, row: Key, eligibleOnly: bool, at: Time, failure: Option<string>, now: Time): seq<Step> {
    [AcquireStep(c, row, at, eligibleOnly), DeliverStep(c, failure, now), StampStep(c, at), ReleaseStep(c)]
  }

  lemma ClaimIsRun(
      w: Wiring, s: System, c: nat, row: Key, eligibleOnly: bool, at: Time, failure: Option<string>, now: Time)
    requires c !in s.claims && row in s.store.dispatches && row !in s.store.claimed
    requires Claimable(s.store.dispatches[row], at, eligibleOnly)
    ensures var u, d := Run(w, s, ClaimSteps(c, row, eligibleOnly, at, failure, now)), s.store.dispatches[row];
            u == s.(store := RecordOutcome(s.store, row, Outcome(d, failure, now), at),
                    published := if failure == None then s.published + [MessageOf(d)] else s.published,
                    log := s.log.(failures := u.log.failures))
  {
    hide Outcome, MessageOf, Claimable, Acquire, Deliver, Stamp, Release, RecordOutcome, ReleaseDispatch, Run;
    var steps, d := ClaimSteps(c, row, eligibleOnly, at, failure, now), s.store.dispatches[row];
    RunFour(w, s, steps);
    AcquireGives(s, c, row, at, eligibleOnly);
    var s1 := Acquire(s, c, row, at, eligibleOnly);
    DeliverGives(s1, c, failure, now);
    var s2 := Deliver(s1, c, failure, now);
    StampGives(s2, c, at);
    var s3 := Stamp(s2, c, at);
    ReleaseGives(s3, c);
    ClaimLeavesNoTrace(s.store, row, Outcome(d, failure, now), at);
    assert s3.claims - {c} == s.claims;
  }

  lemma AcquireGives(s: System, c: nat, row: Key, at: Time, eligibleOnly: bool)
    requires c !in s.claims && row in s.store.dispatches && row !in s.store.claimed
    requires Claimable(s.store.dispatches[row], at, eligibleOnly)
    ensures Acquire(s, c, row, at, eligibleOnly)
            == s.(store := s.store.(claimed := s.store.claimed + {row}),
                  claims := s.claims[c := Claim(row, s.store.dispatches[row], Held)])
  {
    hide Claimable;
  }

  lemma DeliverGives(s: System, c: nat, failure: Option<string>, now: Time)
    requires c in s.claims && s.claims[c].phase.Held?
    ensures var d := s.claims[c].seen;
            Deliver(s, c, failure, now)
            == s.(claims := s.claims[c := Claim(s.claims[c].row, d, Tried(Outcome(d, failure, now), now))],
                  published := if failure == None then s.published + [MessageOf(d)] else s.published)
  {
    hide Outcome, MessageOf;
  }

  lemma StampGives(s: System, c: nat, at: Time)
    requires c in s.claims && s.claims[c].phase.Tried?
    ensures var claim := s.claims[c];
            Stamp(s, c, at)
            == s.(store := RecordOutcome(s.store, claim.row, claim.phase.outcome, at),
                  claims := s.claims[c := Claim(claim.row, claim.seen, Stamped)],
                  log := s.log.(failures := Stamp(s, c, at).log.failures))
  {
    hide RecordOutcome;
  }

  lemma ReleaseGives(s: System, c: nat)
    requires c in s.claims && s.claims[c].phase.Stamped?
    ensures Release(s, c)
            == s.(store := ActionStore.ReleaseDispatch(s.store, s.claims[c].row), claims := s.claims - {c})
  {
  }

  lemma RunFour(w: Wiring, s: System, steps: seq<Step>)
    requires |steps| == 4
    ensures Run(w, s, steps) == Next(w, Next(w, Next(w, Next(w, s, steps[0]), steps[1]), steps[2]), steps[3])
  {
    hide Next;
    var s1 := Next(w, s, steps[0]);
    var s2 := Next(w, s1, steps[1]);
    var s3 := Next(w, s2, steps[2]);
    assert steps[1..][1..] == steps[2..] && steps[2..][1..] == steps[3..] && steps[3..][1..] == [];
    assert Run(w, s3, steps[3..]) == Next(w, s3, steps[3]);
    assert Run(w, s2, steps[2..]) == Run(w, s3, steps[3..]);
    assert Run(w, s1, steps[1..]) == Run(w, s2, steps[2..]);
  }

  lemma {:induction false} RunAppend(w: Wiring, s: System, first: seq<Step>, second: seq<Step>)
    ensures Run(w, s, first + second) == Run(w, Run(w, s, first), second)
    decreases |first|
  {
    hide Next;
    if first == [] {
      assert first + second == second;
    } else {
      assert (first + second)[1..] == first[1..] + second;
      RunAppend(w, Next(w, s, first[0]), first[1..], second);
    }
  }

  function AnsweredSteps(c: nat, row: Key, d: Dispatch, at: Time, transport: Transport): seq<Step> {
    ClaimSteps(c, row, true, at, transport.failure(MessageOf(d)), transport.clock(MessageOf(d)))
  }

  ghost function DrainSteps(
      c: nat, s: Store, order: seq<Key>, at: Time, transport: Transport): seq<Step>
    requires forall d :: d in order ==> d in s.dispatches
    decreases |order|
  {
    if order == [] then []
    else
      var d := order[|order| - 1];
      DrainSteps(c, s, order[..|order| - 1], at, transport) + AnsweredSteps(c, d, s.dispatches[d], at, transport)
  }

  /** So whatever holds in every interleaving holds of drains of the in-memory store. */
  lemma {:induction false} DrainIsRun(
      w: Wiring, s: System, c: nat, tenant: string, order: seq<Key>, at: Time, transport: Transport)
    requires c !in s.claims && OldestFirst(s.store, tenant, at, order)
    ensures forall d :: d in order ==> d in s.store.dispatches
    ensures Run(w, s, DrainSteps(c, s.store, order, at, transport))
            == s.(store := Drained(s.store, order, Answer(transport), at),
                  published := s.published + Accepted(transport, RowsAt(s.store, order)),
                    log := s.log.(failures := Run(w, s, DrainSteps(c, s.store, order, at, transport)).log.failures))
    decreases |order|
  {
    hide Outcome, MessageOf, Claimable, RecordOutcome, Next, Run, OldestFirst, Accepted, RowsAt, Drained;
    DrainRows(s.store, tenant, at, order);
    var verdict := Answer(transport);
    if order == [] {
      NothingDrained(s.store, tenant, at, verdict, transport);
      assert s.published + [] == s.published && Run(w, s, []) == s by { RunNothing(w, s); }
    } else {
      var init, d := order[..|order| - 1], order[|order| - 1];
      assert order == init + [d];
      ShorterDrain(s.store, tenant, at, order);
      var row := s.store.dispatches[d];
      DrainIsRun(w, s, c, tenant, init, at, transport);
      var u := Run(w, s, DrainSteps(c, s.store, init, at, transport));
      RunAppend(w, s, DrainSteps(c, s.store, init, at, transport), AnsweredSteps(c, d, row, at, transport));
      EligibleAfter(s.store, tenant, at, init, verdict, d);
      ClaimIsRun(w, u, c, d, true, at, transport.failure(MessageOf(row)), transport.clock(MessageOf(row)));
      DrainedOneMore(s.store, init, d, verdict, at);
      AcceptedOneMore(transport, s.store, init, d);
      AcceptedOne(transport, row);
    }
  }

  lemma RunNothing(w: Wiring, s: System)
    ensures Run(w, s, []) == s
  {
  }

  lemma DrainRows(s: Store, tenant: string, at: Time, order: seq<Key>)
    requires OldestFirst(s, tenant, at, order)
    ensures forall d :: d in order ==> d in s.dispatches
  {
  }

  lemma AcceptedOne(transport: Transport, d: Dispatch)
    ensures Accepted(transport, [d]) == if transport.failure(MessageOf(d)) == None then [MessageOf(d)] else []
  {
    assert [d][..0] == [];
  }

  lemma ShorterDrain(s: Store, tenant: string, at: Time, order: seq<Key>)
    requires OldestFirst(s, tenant, at, order) && order != []
    ensures var init, d := order[..|order| - 1], order[|order| - 1];
            && OldestFirst(s, tenant, at, init) && d !in init && Eligible(s, tenant, at, d)
  {
    hide Claimable;
    var init, d := order[..|order| - 1], order[|order| - 1];
    forall e, i | Eligible(s, tenant, at, e) && e !in init && 0 <= i < |init|
      ensures s.dispatches[init[i]].createdAt <= s.dispatches[e].createdAt
    {
      assert order[i] == init[i];
      if e in order {
        assert e == d;
      }
    }
  }
}
