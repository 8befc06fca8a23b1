/** The frozen lifecycle of an Action
    (services/agentnexus/internal/actions/state_machine.go and reconcile.go). */
module ActionState {
  datatype Status =
    | Requested | AwaitingApproval | Granted | Dispatched | Executing | Succeeded | Failed | ResultUnknown
    | Reconciling | Compensating | HumanTakeover

  /** The transition table: every edge not listed is rejected. */
  function AllowedTargets(from: Status): set<Status> {
    match from
    case Requested => {AwaitingApproval, Granted, Failed, HumanTakeover}
    case AwaitingApproval => {Granted, Failed, HumanTakeover}
    case Granted => {Dispatched, Failed, HumanTakeover}
    case Dispatched => {Executing, Succeeded, Failed, ResultUnknown, Compensating, HumanTakeover}
    case Executing => {Succeeded, Failed, ResultUnknown, Compensating, HumanTakeover}
    case ResultUnknown => {Reconciling, Compensating, HumanTakeover}
    case Reconciling => {Succeeded, Failed, HumanTakeover}
    case Succeeded => {Compensating, HumanTakeover}
    case Failed => {Compensating, HumanTakeover}
    case Compensating => {HumanTakeover}
    case HumanTakeover => {}
  }

  predicate CanTransition(from: Status, to: Status) {
    to in AllowedTargets(from)
  }

  predicate Compensable(s: Status) {
    s in {Dispatched, Executing, Succeeded, Failed, ResultUnknown, Reconciling}
  }

  predicate TerminalReceiptStatus(s: Status) {
    s in {Succeeded, Failed}
  }

  /** Every edge climbs this rank. */
  function Rank(s: Status): nat {
    match s
    case Requested => 0
    case AwaitingApproval => 1
    case Granted => 2
    case Dispatched => 3
    case Executing => 4
    case ResultUnknown => 5
    case Reconciling => 6
    case Succeeded => 7
    case Failed => 7
    case Compensating => 8
    case HumanTakeover => 9
  }

  /** Statuses an action only reaches once its grant was consumed by a dispatch. */
  predicate PastDispatch(s: Status) {
    s in {Dispatched, Executing, Succeeded, ResultUnknown, Reconciling}
  }

  ghost predicate IsPath(path: seq<Status>) {
    forall i :: 0 <= i < |path| - 1 ==> CanTransition(path[i], path[i + 1])
  }

  lemma {:induction false} PathClimbs(path: seq<Status>)
    requires path != [] && IsPath(path)
    ensures Rank(path[|path| - 1]) >= Rank(path[0]) + |path| - 1
    decreases |path|
  {
    if |path| > 1 {
      var init := path[..|path| - 1];
      forall i | 0 <= i < |init| - 1
        ensures CanTransition(init[i], init[i + 1])
      {
        assert CanTransition(path[i], path[i + 1]);
      }
      PathClimbs(init);
      assert CanTransition(path[|path| - 2], path[|path| - 1]);
    }
  }

  /** No action makes more than nine transitions, no status recurs, and nine are possible. */
  lemma LifecycleIsBounded(path: seq<Status>)
    requires IsPath(path)
    ensures |path| - 1 <= 9
    ensures forall i, j :: 0 <= i < j < |path| ==> path[i] != path[j]
    ensures exists longest: seq<Status> :: IsPath(longest) && |longest| - 1 == 9
  {
    if path != [] {
      PathClimbs(path);
    }
    forall i, j | 0 <= i < j < |path|
      ensures path[i] != path[j]
    {
      var part := path[i..j + 1];
      forall k | 0 <= k < |part| - 1
        ensures CanTransition(part[k], part[k + 1])
      {
        assert CanTransition(path[i + k], path[i + k + 1]);
      }
      PathClimbs(part);
    }
    var longest := [Requested, AwaitingApproval, Granted, Dispatched, Executing, ResultUnknown, Reconciling,
                    Succeeded, Compensating, HumanTakeover];
    assert IsPath(longest);
  }

  /** `Compensable` and the table disagree on exactly one status. */
  lemma CompensableAgainstTable(s: Status)
    ensures CanTransition(s, Compensating) <==> Compensable(s) && s != Reconciling
  {
  }

  /** Succeeded is only ever entered from a status past dispatch, and Dispatched only from Granted. */
  lemma EdgesIntoSideEffects(from: Status, to: Status)
    requires CanTransition(from, to)
    ensures to == Dispatched ==> from == Granted
    ensures to in {Executing, Succeeded, ResultUnknown, Reconciling} ==> PastDispatch(from)
    ensures Rank(from) < Rank(to)
  {
  }
}
