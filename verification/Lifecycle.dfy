/** The Recovery Case state machine (domain/recovery_case.py) and its runs. */
module Lifecycle {
  import opened Outcomes

  datatype Status =
    | AtRisk | EligibilityCheck | Assessing | DecisionReady | PolicyCheck
    | ActionPending | Executing | ActionFailed | Reassess | NextAction
    | Recovered | Stopped | Expired | Escalated

  const TERMINAL_STATUSES: set<Status> := {Recovered, Stopped, Expired, Escalated}

  predicate Terminal(status: Status) {
    status in TERMINAL_STATUSES
  }

  /** The statuses the recovery engine itself moves a case to. */
  predicate Closes(status: Status) {
    status == Recovered || status == Stopped || status == Expired
  }

  type Closing = s: Status | Closes(s) witness Recovered

  function AllowedTargets(status: Status): set<Status> {
    match status
    case AtRisk => {EligibilityCheck, Recovered, Stopped, Expired}
    case EligibilityCheck => {Assessing, Recovered, Stopped, Expired}
    case Assessing => {DecisionReady, Recovered, Stopped, Expired}
    case DecisionReady => {PolicyCheck, Recovered, Stopped, Expired}
    case PolicyCheck => {ActionPending, Recovered, Stopped, Expired, Escalated}
    case ActionPending => {Executing, Recovered, Stopped, Expired}
    case Executing => {Recovered, ActionFailed, Stopped, Expired}
    case ActionFailed => {Reassess, Recovered, Stopped, Expired}
    case Reassess => {NextAction, Recovered, Stopped, Expired}
    case NextAction => {PolicyCheck, Recovered, Stopped, Expired}
    case Recovered => {}
    case Stopped => {}
    case Expired => {}
    case Escalated => {}
  }

  datatype TransitionError = InvalidTransition(current: Status, target: Status)

  /** `RecoveryCase.transition_to`: the new status, or the error it raises.
      A live case accepts every closing status; a terminal one accepts nothing. */
  function TransitionTo(current: Status, target: Status): (r: Result<Status, TransitionError>)
    ensures Terminal(current) ==> r.Err?
    ensures !Terminal(current) && Closes(target) ==> r == Ok(target)
    ensures r.Ok? && target == Escalated ==> current == PolicyCheck
    ensures r.Ok? && target == Executing ==> current == ActionPending
  {
    if target in AllowedTargets(current) then Ok(target) else Err(InvalidTransition(current, target))
  }

  // ---------------------------------------------------------------- runs

  predicate Accepted(path: seq<Status>, i: nat)
    requires 0 < i < |path|
  {
    TransitionTo(path[i - 1], path[i]).Ok?
  }

  /** The statuses one case takes, oldest first, each reached by an accepted transition. */
  ghost predicate IsRun(path: seq<Status>) {
    && |path| > 0
    && path[0] == AtRisk
    && forall i :: 0 < i < |path| ==> Accepted(path, i)
  }

  lemma PrefixRun(path: seq<Status>, n: nat)
    requires IsRun(path) && 0 < n <= |path|
    ensures IsRun(path[..n])
  {
    forall i | 0 < i < n ensures Accepted(path[..n], i) {
      assert Accepted(path, i);
    }
  }

  function Visits(path: seq<Status>, status: Status): nat {
    if path == [] then 0
    else Visits(path[..|path| - 1], status) + if path[|path| - 1] == status then 1 else 0
  }

  /** How many transitions a live status is away from the last entry into EXECUTING
      (from AT_RISK, before the first one). */
  function Stage(status: Status): nat {
    match status
    case AtRisk => 0
    case EligibilityCheck => 1
    case Assessing => 2
    case DecisionReady => 3
    case PolicyCheck => 4
    case ActionPending => 5
    case Executing => 0
    case ActionFailed => 1
    case Reassess => 2
    case NextAction => 3
    case _ => 6
  }

  /** One transition leaves a live status, and takes it one stage on, or starts the next round by executing. */
  lemma StageStep(from: Status, to: Status)
    requires TransitionTo(from, to).Ok?
    ensures !Terminal(from) && Stage(from) <= 5
    ensures !Terminal(to) && to != Executing ==> Stage(to) == Stage(from) + 1
    ensures to == Executing ==> Stage(from) == 5 && from == ActionPending
    ensures to == ActionPending ==> from == PolicyCheck
    ensures to == PolicyCheck ==> from != PolicyCheck && from != ActionPending
    ensures from == PolicyCheck && !Terminal(to) ==> to == ActionPending
    ensures from == ActionPending && !Terminal(to) ==> to == Executing
  {
  }

  /** n transitions with k executions and so many policy checks, ending in `last`. */
  predicate Shaped(n: int, k: int, checks: int, last: Status) {
    && n <= 6 * k + 6
    && (!Terminal(last) ==> n == 6 * k + Stage(last))
    && 0 <= checks - k <= 1
    && (!Terminal(last) ==> (checks == k + 1 <==> last == PolicyCheck || last == ActionPending))
  }

  lemma ShapedStep(n: int, k: int, checks: int, from: Status, to: Status)
    requires Shaped(n, k, checks, from) && TransitionTo(from, to).Ok?
    ensures Shaped(n + 1, if to == Executing then k + 1 else k, if to == PolicyCheck then checks + 1 else checks, to)
  {
    StageStep(from, to);
  }

  predicate HasShape(path: seq<Status>)
    requires path != []
  {
    Shaped(|path| - 1, Visits(path, Executing), Visits(path, PolicyCheck), path[|path| - 1])
  }

  lemma PathTurn(path: seq<Status>)
    requires |path| > 1 && Accepted(path, |path| - 1) && HasShape(path[..|path| - 1])
    ensures HasShape(path)
  {
    var before := path[..|path| - 1];
    ShapedStep(|path| - 2, Visits(before, Executing), Visits(before, PolicyCheck), path[|path| - 2], path[|path| - 1]);
  }

  /** The shape of every run: a live case has made exactly 6k + Stage transitions, where k is the
      number of executions; a closed one at most 6k + 6; and policy checks lead executions by
      one exactly between the check and the execution it admits. */
  lemma {:induction false} RunShape(path: seq<Status>)
    requires IsRun(path)
    ensures var last, n, k := path[|path| - 1], |path| - 1, Visits(path, Executing);
            && n <= 6 * k + 6
            && (!Terminal(last) ==> n == 6 * k + Stage(last))
            && 0 <= Visits(path, PolicyCheck) - k <= 1
            && (!Terminal(last) ==>
                  (Visits(path, PolicyCheck) == k + 1 <==> last == PolicyCheck || last == ActionPending))
  {
    if |path| > 1 {
      var before := path[..|path| - 1];
      PrefixRun(path, |path| - 1);
      RunShape(before);
      assert Accepted(path, |path| - 1);
      PathTurn(path);
    } else {
      assert path[..0] == [];
    }
  }

  /** The policy gate over whole runs: in every prefix executions never outnumber policy checks and
      trail them by at most one, every execution directly follows its own check and pending action,
      and a case is escalated only out of a policy check. */
  lemma {:induction false} PolicyGate(path: seq<Status>, i: nat)
    requires IsRun(path) && i < |path|
    ensures 0 <= Visits(path[..i + 1], PolicyCheck) - Visits(path[..i + 1], Executing) <= 1
    ensures path[i] == Executing ==> i >= 2 && path[i - 2] == PolicyCheck && path[i - 1] == ActionPending
    ensures path[i] == Escalated ==> i >= 1 && path[i - 1] == PolicyCheck
    ensures Terminal(path[i]) ==> i == |path| - 1
  {
    var prefix := path[..i + 1];
    PrefixRun(path, i + 1);
    RunShape(prefix);
    if i > 0 {
      assert Accepted(path, i);
      if i > 1 {
        assert Accepted(path, i - 1);
      }
    }
    if i + 1 < |path| {
      assert Accepted(path, i + 1);
    }
  }

  // ---------------------------------------------------------------- what leads where

  /** How far along a status is; the six statuses of the retry cycle share a level. */
  function Level(status: Status): nat {
    match status
    case AtRisk => 0
    case EligibilityCheck => 1
    case Assessing => 2
    case DecisionReady => 3
    case _ => if Terminal(status) then 5 else 4
  }

  /** A case may stay, move on to a later level, or go round the cycle. */
  predicate Leads(from: Status, to: Status) {
    from == to || (!Terminal(from) && (Level(from) < Level(to) || Level(from) == Level(to) == 4))
  }

  /** A walk along accepted transitions. */
  ghost predicate IsWalk(path: seq<Status>, from: Status, to: Status) {
    && |path| > 0 && path[0] == from && path[|path| - 1] == to
    && forall i :: 0 < i < |path| ==> Accepted(path, i)
  }

  lemma {:induction false} WalkLeads(path: seq<Status>, from: Status, to: Status)
    requires IsWalk(path, from, to)
    ensures Leads(from, to)
  {
    if |path| > 1 {
      var n := |path| - 1;
      assert Accepted(path, n);
      forall i | 0 < i < n ensures Accepted(path[..n], i) { assert Accepted(path, i); }
      WalkLeads(path[..n], from, path[n - 1]);
    }
  }

  /** The next live status towards the policy check, or round the cycle. */
  function Onward(status: Status): (next: Status)
    requires !Terminal(status)
    ensures TransitionTo(status, next).Ok?
  {
    match status
    case AtRisk => EligibilityCheck
    case EligibilityCheck => Assessing
    case Assessing => DecisionReady
    case DecisionReady => PolicyCheck
    case PolicyCheck => ActionPending
    case ActionPending => Executing
    case Executing => ActionFailed
    case ActionFailed => Reassess
    case Reassess => NextAction
    case NextAction => PolicyCheck
  }

  /** How many steps onward lead from one live status to another, counting at most once round. */
  function Distance(from: Status, to: Status): int {
    var a, b := Position(from), Position(to);
    if a <= b then b - a else b + 6 - a
  }

  function Position(status: Status): nat {
    match status
    case AtRisk => 0
    case EligibilityCheck => 1
    case Assessing => 2
    case DecisionReady => 3
    case PolicyCheck => 4
    case ActionPending => 5
    case Executing => 6
    case ActionFailed => 7
    case Reassess => 8
    case NextAction => 9
    case _ => 10
  }

  lemma {:induction false} WalkTo(from: Status, to: Status) returns (path: seq<Status>)
    requires !Terminal(from) && !Terminal(to) && Leads(from, to)
    ensures IsWalk(path, from, to)
    decreases Distance(from, to)
  {
    if from == to {
      path := [from];
    } else {
      var rest := WalkTo(Onward(from), to);
      path := [from] + rest;
      forall i | 0 < i < |path| ensures Accepted(path, i) {
        if i > 1 { assert Accepted(rest, i - 1); }
      }
    }
  }

  /** Reachability in closed form: one status leads to another exactly when some walk along accepted
      transitions joins them. */
  lemma LeadsIffWalk(from: Status, to: Status)
    ensures Leads(from, to) <==> exists path :: IsWalk(path, from, to)
  {
    if Leads(from, to) {
      var path: seq<Status>;
      if from == to {
        path := [from];
      } else if !Terminal(to) {
        path := WalkTo(from, to);
      } else {
        var last := if to == Escalated then PolicyCheck else from;
        var walk := WalkTo(from, last);
        path := walk + [to];
        forall i | 0 < i < |path| ensures Accepted(path, i) {
          if i < |walk| { assert Accepted(walk, i); }
        }
      }
      assert IsWalk(path, from, to);
    }
    if exists path :: IsWalk(path, from, to) {
      var path :| IsWalk(path, from, to);
      WalkLeads(path, from, to);
    }
  }

  // ---------------------------------------------------------------- the longest runs

  /** One trip round the retry cycle, from the pending action back to it. */
  const RETRY: seq<Status> := [Executing, ActionFailed, Reassess, NextAction, PolicyCheck, ActionPending]

  /** A run that executes k times and is still pending. */
  function PendingAfter(k: nat): seq<Status> {
    if k == 0 then [AtRisk, EligibilityCheck, Assessing, DecisionReady, PolicyCheck, ActionPending]
    else PendingAfter(k - 1) + RETRY
  }

  lemma {:induction false} Joined(a: seq<Status>, b: seq<Status>)
    requires IsRun(a) && b != [] && TransitionTo(a[|a| - 1], b[0]).Ok?
    requires forall i :: 0 < i < |b| ==> Accepted(b, i)
    ensures IsRun(a + b)
  {
    forall i | 0 < i < |a + b| ensures Accepted(a + b, i) {
      if i < |a| {
        assert Accepted(a, i);
      } else if i > |a| {
        assert Accepted(b, i - |a|);
      }
    }
  }

  lemma {:induction false} PendingRun(k: nat)
    ensures IsRun(PendingAfter(k))
    ensures |PendingAfter(k)| == 6 * k + 6
    ensures PendingAfter(k)[6 * k + 5] == ActionPending
  {
    if k > 0 {
      PendingRun(k - 1);
      Joined(PendingAfter(k - 1), RETRY);
    }
  }

  /** The bound of RunShape is attained for every number of executions. */
  lemma LongestRun(k: nat) returns (path: seq<Status>)
    ensures IsRun(path) && Visits(path, Executing) == k && |path| - 1 == 6 * k + 6
  {
    PendingRun(k);
    var pending := PendingAfter(k);
    RunShape(pending);
    path := pending + [Stopped];
    Joined(pending, [Stopped]);
    assert path[..|path| - 1] == pending;
  }
}
