/**
 The recovery budget of `authorizeRecovery`, over whole runs: how often a member's agent was
 restarted for one delegation, for one goal, and how far apart.
 */
module GoalRecovery {
  import opened Wrappers
  import opened GoalModel
  import opened GoalMachine
  import opened GoalTheorems

  predicate SameMember(r: Restart, d: Id, m: Id) { r.delegationId == d && r.memberId == m }

  function OfMember(d: Id, m: Id): Restart -> bool { (r: Restart) => SameMember(r, d, m) }

  /** Restarts authorized for one member under one delegation. */
  ghost function RestartsOf(restarts: seq<Restart>, d: Id, m: Id): nat { Count(restarts, OfMember(d, m)) }

  predicate ForGoal(rows: seq<Delegation>, d: Id, g: Id) { d < |rows| && rows[d].input.goalId == g }

  /** Restarts authorized for any delegation of one goal. */
  ghost function RestartsForGoal(restarts: seq<Restart>, rows: seq<Delegation>, g: Id): nat {
    if restarts == [] then 0
    else RestartsForGoal(restarts[..|restarts| - 1], rows, g) + if ForGoal(rows, restarts[|restarts| - 1].delegationId, g) then 1 else 0
  }

  ghost predicate Keyed(incidents: seq<Incident>) {
    forall i, j :: 0 <= i < j < |incidents| ==>
      incidents[i].delegationId != incidents[j].delegationId || incidents[i].memberId != incidents[j].memberId
  }

  /** The grant a delegation works under (every stored delegation has one). */
  function GrantOf(goals: seq<Goal>, rows: seq<Delegation>, d: Id): Grant {
    if d < |rows| && rows[d].input.goalId < |goals| then goals[rows[d].input.goalId].grant
    else Grant(0, 0, 0, 0, 0, false, false, false, 0, false, 0, 0, 0)
  }

  function Cooldown(goals: seq<Goal>, rows: seq<Delegation>, d: Id): nat { GrantOf(goals, rows, d).cooldownSeconds * 1000 }

  /** The attempts a row stores are the restarts authorized for its member. */
  ghost predicate RowsMatch(incidents: seq<Incident>, restarts: seq<Restart>) {
    forall i :: 0 <= i < |incidents| ==> incidents[i].attempts == RestartsOf(restarts, incidents[i].delegationId, incidents[i].memberId)
  }

  ghost predicate RowlessUnrestarted(incidents: seq<Incident>, restarts: seq<Restart>) {
    forall d: Id, m: Id :: IncidentIndex(incidents, d, m).None? ==> RestartsOf(restarts, d, m) == 0
  }

  ghost predicate TotalsMatch(rows: seq<Delegation>, incidents: seq<Incident>, restarts: seq<Restart>) {
    forall g: Id :: RestartsForGoal(restarts, rows, g) == AttemptsFor(incidents, rows, g)
  }

  ghost predicate WithinLimits(goals: seq<Goal>, rows: seq<Delegation>, incidents: seq<Incident>, restarts: seq<Restart>) {
    && (forall i :: 0 <= i < |incidents| ==> incidents[i].attempts <= GrantOf(goals, rows, incidents[i].delegationId).maxAttemptsPerIncident)
    && (forall g: Id :: g < |goals| ==> RestartsForGoal(restarts, rows, g) <= goals[g].grant.maxAttemptsPerGoal)
  }

  /** Two restarts of one member under one delegation are at least the cooldown apart, and so is the next one. */
  ghost predicate Spaced(goals: seq<Goal>, rows: seq<Delegation>, incidents: seq<Incident>, restarts: seq<Restart>) {
    && (forall i, j :: 0 <= i < j < |restarts| && SameMember(restarts[i], restarts[j].delegationId, restarts[j].memberId) ==>
          restarts[i].at + Cooldown(goals, rows, restarts[j].delegationId) <= restarts[j].at)
    && (forall i, k :: 0 <= i < |restarts| && 0 <= k < |incidents| && SameMember(restarts[i], incidents[k].delegationId, incidents[k].memberId) ==>
          restarts[i].at + Cooldown(goals, rows, incidents[k].delegationId) <= incidents[k].nextAllowedAt)
  }

  datatype Part = RowKeys | RowCounts | RowlessCounts | GoalTotals | Limits | Spacing

  ghost predicate PartHolds(goals: seq<Goal>, rows: seq<Delegation>, incidents: seq<Incident>, restarts: seq<Restart>, part: Part) {
    match part
    case RowKeys => Keyed(incidents)
    case RowCounts => RowsMatch(incidents, restarts)
    case RowlessCounts => RowlessUnrestarted(incidents, restarts)
    case GoalTotals => TotalsMatch(rows, incidents, restarts)
    case Limits => WithinLimits(goals, rows, incidents, restarts)
    case Spacing => Spaced(goals, rows, incidents, restarts)
  }

  ghost predicate Budgeted(db: Db) {
    forall part :: PartHolds(db.goals, db.delegations, db.incidents, db.restarts, part)
  }

  // ---------------------------------------------------------------- steps that authorize nothing

  lemma {:induction false} RestartsForGoalFramed(restarts: seq<Restart>, a: seq<Delegation>, b: seq<Delegation>, g: Id)
    requires |a| <= |b| && forall d :: 0 <= d < |a| ==> b[d].input == a[d].input
    requires forall i :: 0 <= i < |restarts| ==> restarts[i].delegationId < |a|
    ensures RestartsForGoal(restarts, b, g) == RestartsForGoal(restarts, a, g)
  {
    if restarts != [] { RestartsForGoalFramed(restarts[..|restarts| - 1], a, b, g); }
  }

  lemma {:induction false} AttemptsForFramed(incidents: seq<Incident>, a: seq<Delegation>, b: seq<Delegation>, g: Id)
    requires |a| <= |b| && forall d :: 0 <= d < |a| ==> b[d].input == a[d].input
    requires forall i :: 0 <= i < |incidents| ==> incidents[i].delegationId < |a|
    ensures AttemptsFor(incidents, b, g) == AttemptsFor(incidents, a, g)
  {
    if incidents != [] { AttemptsForFramed(incidents[..|incidents| - 1], a, b, g); }
  }

  lemma {:induction false} NoRestartsBeyond(restarts: seq<Restart>, rows: seq<Delegation>, limit: nat, g: Id)
    requires limit <= g && forall d :: 0 <= d < |rows| ==> rows[d].input.goalId < limit
    ensures RestartsForGoal(restarts, rows, g) == 0
  {
    if restarts != [] { NoRestartsBeyond(restarts[..|restarts| - 1], rows, limit, g); }
  }

  /** `b` has the same recovery tables as `a`, and every earlier row still works under the same grant. */
  ghost predicate SameRecovery(a: Db, b: Db) {
    && b.incidents == a.incidents && b.restarts == a.restarts
    && Retains(a, b, Grants)
    && |a.delegations| <= |b.delegations| && forall d :: 0 <= d < |a.delegations| ==> b.delegations[d].input == a.delegations[d].input
  }

  lemma {:induction false} BudgetFramed(a: Db, b: Db)
    requires Budgeted(a) && Tables(a) && SameRecovery(a, b)
    ensures Budgeted(b)
  {
    forall part ensures PartHolds(b.goals, b.delegations, b.incidents, b.restarts, part) {
      assert PartHolds(a.goals, a.delegations, a.incidents, a.restarts, part);
      if part.GoalTotals? || part.Limits? {
        forall g: Id
          ensures RestartsForGoal(b.restarts, b.delegations, g) == RestartsForGoal(a.restarts, a.delegations, g)
          ensures AttemptsFor(b.incidents, b.delegations, g) == AttemptsFor(a.incidents, a.delegations, g)
          ensures |a.goals| <= g ==> RestartsForGoal(a.restarts, a.delegations, g) == 0
        {
          RestartsForGoalFramed(a.restarts, a.delegations, b.delegations, g);
          AttemptsForFramed(a.incidents, a.delegations, b.delegations, g);
          if |a.goals| <= g { NoRestartsBeyond(a.restarts, a.delegations, |a.goals|, g); }
        }
      }
      assert forall d :: 0 <= d < |a.delegations| ==> GrantOf(b.goals, b.delegations, d) == GrantOf(a.goals, a.delegations, d);
    }
  }

  lemma {:induction false} TransactionSame(db: Db, w: World, event: Event)
    requires Transaction(db, w, event).Done? && !event.Recover?
    ensures Transaction(db, w, event).db.incidents == db.incidents && Transaction(db, w, event).db.restarts == db.restarts
  {
  }

  lemma {:induction false} PassSame(m: Machine, w: World, event: Event, v: Variant)
    requires SeenGood(m) && OfPass(event)
    ensures SameRecovery(m.db, Apply(m, w, event, v).db)
  {
    match event
    case ListGoals =>
    case VisitGoal(g) => VisitSame(m, w, g, v);
    case OfferTeam(d, actionId) => OfferSame(m, w, d, actionId);
    case CheckTeam(d, interval) => CheckSame(m, w, d, interval, v);
  }

  lemma {:induction false} VisitSame(m: Machine, w: World, g: Id, v: Variant)
    requires ListedGood(m)
    ensures SameRecovery(m.db, Visit(m, w, g, v).db)
  {
  }

  lemma {:induction false} OfferSame(m: Machine, w: World, d: Id, actionId: Id)
    requires TeamsGood(m)
    ensures SameRecovery(m.db, Offer(m, w, d, actionId).db)
  {
  }

  lemma {:induction false} CheckSame(m: Machine, w: World, d: Id, interval: nat, v: Variant)
    ensures SameRecovery(m.db, Check(m, w, d, interval, v).db)
  {
  }

  // ---------------------------------------------------------------- an authorized restart

  lemma {:induction false} AttemptsAppended(incidents: seq<Incident>, row: Incident, rows: seq<Delegation>, g: Id)
    ensures AttemptsFor(incidents + [row], rows, g) == AttemptsFor(incidents, rows, g) + if ForGoal(rows, row.delegationId, g) then row.attempts else 0
  {
    assert (incidents + [row])[..|incidents|] == incidents;
  }

  lemma {:induction false} AttemptsUpdated(incidents: seq<Incident>, i: nat, row: Incident, rows: seq<Delegation>, g: Id)
    requires i < |incidents| && row.delegationId == incidents[i].delegationId && row.attempts == incidents[i].attempts + 1
    ensures AttemptsFor(incidents[i := row], rows, g) == AttemptsFor(incidents, rows, g) + if ForGoal(rows, row.delegationId, g) then 1 else 0
  {
    var next := incidents[i := row];
    if i == |incidents| - 1 {
      assert next[..|incidents| - 1] == incidents[..|incidents| - 1];
    } else {
      AttemptsUpdated(incidents[..|incidents| - 1], i, row, rows, g);
      assert next[..|incidents| - 1] == incidents[..|incidents| - 1][i := row];
    }
  }

  /** Recording an incident adds one attempt to its goal and to nothing else. */
  lemma {:induction false} AttemptsRecorded(incidents: seq<Incident>, d: Id, m: Id, next: nat, rows: seq<Delegation>, g: Id)
    ensures AttemptsFor(RecordIncident(incidents, d, m, next), rows, g) == AttemptsFor(incidents, rows, g) + if ForGoal(rows, d, g) then 1 else 0
  {
    var known := IncidentIndex(incidents, d, m);
    var row := Incident(d, m, AttemptsOf(incidents, d, m) + 1, next);
    if known.Some? { AttemptsUpdated(incidents, known.value, row, rows, g); } else { AttemptsAppended(incidents, row, rows, g); }
  }

  lemma {:induction false} MemberAppended(restarts: seq<Restart>, r: Restart, d: Id, m: Id)
    ensures RestartsOf(restarts + [r], d, m) == RestartsOf(restarts, d, m) + if SameMember(r, d, m) then 1 else 0
  {
    CountAppend(restarts, r, OfMember(d, m));
  }

  lemma {:induction false} GoalAppended(restarts: seq<Restart>, r: Restart, rows: seq<Delegation>, g: Id)
    ensures RestartsForGoal(restarts + [r], rows, g) == RestartsForGoal(restarts, rows, g) + if ForGoal(rows, r.delegationId, g) then 1 else 0
  {
    assert (restarts + [r])[..|restarts|] == restarts;
  }

  lemma {:induction false} RowsRecorded(incidents: seq<Incident>, restarts: seq<Restart>, d: Id, m: Id, at: nat, next: nat)
    requires Keyed(incidents) && RowsMatch(incidents, restarts) && RowlessUnrestarted(incidents, restarts)
    ensures Keyed(RecordIncident(incidents, d, m, next)) && RowsMatch(RecordIncident(incidents, d, m, next), restarts + [Restart(d, m, at)])
  {
    var rows := RecordIncident(incidents, d, m, next);
    forall i | 0 <= i < |rows|
      ensures rows[i].attempts == RestartsOf(restarts + [Restart(d, m, at)], rows[i].delegationId, rows[i].memberId)
    {
      MemberAppended(restarts, Restart(d, m, at), rows[i].delegationId, rows[i].memberId);
    }
  }

  lemma {:induction false} RowlessRecorded(incidents: seq<Incident>, restarts: seq<Restart>, d: Id, m: Id, at: nat, next: nat)
    requires RowlessUnrestarted(incidents, restarts)
    ensures RowlessUnrestarted(RecordIncident(incidents, d, m, next), restarts + [Restart(d, m, at)])
  {
    var rows := RecordIncident(incidents, d, m, next);
    assert forall j :: 0 <= j < |incidents| ==> rows[j].delegationId == incidents[j].delegationId && rows[j].memberId == incidents[j].memberId;
    var known := IncidentIndex(incidents, d, m);
    var i := if known.Some? then known.value else |incidents|;
    assert rows[i].delegationId == d && rows[i].memberId == m;
    forall k: Id, n: Id | IncidentIndex(rows, k, n).None? ensures RestartsOf(restarts + [Restart(d, m, at)], k, n) == 0 {
      MemberAppended(restarts, Restart(d, m, at), k, n);
    }
  }

  lemma {:induction false} TotalsRecorded(rows: seq<Delegation>, incidents: seq<Incident>, restarts: seq<Restart>, d: Id, m: Id, at: nat, next: nat)
    requires TotalsMatch(rows, incidents, restarts)
    ensures TotalsMatch(rows, RecordIncident(incidents, d, m, next), restarts + [Restart(d, m, at)])
  {
    forall g: Id ensures RestartsForGoal(restarts + [Restart(d, m, at)], rows, g) == AttemptsFor(RecordIncident(incidents, d, m, next), rows, g) {
      GoalAppended(restarts, Restart(d, m, at), rows, g);
      AttemptsRecorded(incidents, d, m, next, rows, g);
    }
  }

  lemma {:induction false} LimitsRecorded(goals: seq<Goal>, rows: seq<Delegation>, incidents: seq<Incident>, restarts: seq<Restart>, d: Id, m: Id, at: nat, next: nat)
    requires TotalsMatch(rows, incidents, restarts) && WithinLimits(goals, rows, incidents, restarts)
    requires d < |rows| && rows[d].input.goalId < |goals|
    requires AttemptsOf(incidents, d, m) < GrantOf(goals, rows, d).maxAttemptsPerIncident
    requires AttemptsFor(incidents, rows, rows[d].input.goalId) < GrantOf(goals, rows, d).maxAttemptsPerGoal
    ensures WithinLimits(goals, rows, RecordIncident(incidents, d, m, next), restarts + [Restart(d, m, at)])
  {
    forall g: Id | g < |goals| ensures RestartsForGoal(restarts + [Restart(d, m, at)], rows, g) <= goals[g].grant.maxAttemptsPerGoal {
      GoalAppended(restarts, Restart(d, m, at), rows, g);
    }
  }

  lemma {:induction false} NoneCounted(restarts: seq<Restart>, i: nat, d: Id, m: Id)
    requires i < |restarts| && SameMember(restarts[i], d, m)
    ensures RestartsOf(restarts, d, m) > 0
  {
    if i < |restarts| - 1 { NoneCounted(restarts[..|restarts| - 1], i, d, m); }
  }

  /** The row's next allowed time has passed, and it is a cooldown after every earlier restart of the member. */
  lemma {:induction false} SpacedRecorded(goals: seq<Goal>, rows: seq<Delegation>, incidents: seq<Incident>, restarts: seq<Restart>, d: Id, m: Id, at: nat)
    requires Keyed(incidents) && RowlessUnrestarted(incidents, restarts) && Spaced(goals, rows, incidents, restarts)
    requires var known := IncidentIndex(incidents, d, m); known.Some? ==> incidents[known.value].nextAllowedAt <= at
    ensures Spaced(goals, rows, RecordIncident(incidents, d, m, at + Cooldown(goals, rows, d)), restarts + [Restart(d, m, at)])
  {
    forall i: nat | i < |restarts| && SameMember(restarts[i], d, m) ensures restarts[i].at + Cooldown(goals, rows, d) <= at {
      NoneCounted(restarts, i, d, m);
    }
  }

  lemma {:induction false} RecoverBudgeted(db: Db, w: World, d: Id, m: Id)
    requires Budgeted(db) && RecoveryAllowed(db, w, d, m)
    ensures Budgeted(AuthorizeRecovery(db, w, d, m).db)
  {
    var next := w.now + Cooldown(db.goals, db.delegations, d);
    var incidents, restarts := RecordIncident(db.incidents, d, m, next), db.restarts + [Restart(d, m, w.now)];
    forall part ensures PartHolds(db.goals, db.delegations, incidents, restarts, part) {
      assert PartHolds(db.goals, db.delegations, db.incidents, db.restarts, part);
      match part {
        case RowKeys => PartRecorded(db, d, m, w.now, next);
        case RowCounts => PartRecorded(db, d, m, w.now, next);
        case RowlessCounts => RowlessRecorded(db.incidents, db.restarts, d, m, w.now, next);
        case GoalTotals => TotalsRecorded(db.delegations, db.incidents, db.restarts, d, m, w.now, next);
        case Limits =>
          assert PartHolds(db.goals, db.delegations, db.incidents, db.restarts, GoalTotals);
          LimitsRecorded(db.goals, db.delegations, db.incidents, db.restarts, d, m, w.now, next);
        case Spacing =>
          assert PartHolds(db.goals, db.delegations, db.incidents, db.restarts, RowKeys);
          assert PartHolds(db.goals, db.delegations, db.incidents, db.restarts, RowlessCounts);
          SpacedRecorded(db.goals, db.delegations, db.incidents, db.restarts, d, m, w.now);
      }
    }
  }

  lemma {:induction false} PartRecorded(db: Db, d: Id, m: Id, at: nat, next: nat)
    requires Budgeted(db)
    ensures Keyed(RecordIncident(db.incidents, d, m, next))
    ensures RowsMatch(RecordIncident(db.incidents, d, m, next), db.restarts + [Restart(d, m, at)])
  {
    assert PartHolds(db.goals, db.delegations, db.incidents, db.restarts, RowKeys);
    assert PartHolds(db.goals, db.delegations, db.incidents, db.restarts, RowCounts);
    assert PartHolds(db.goals, db.delegations, db.incidents, db.restarts, RowlessCounts);
    RowsRecorded(db.incidents, db.restarts, d, m, at, next);
  }

  // ---------------------------------------------------------------- whole runs

  lemma {:induction false} StepBudgeted(m: Machine, s: Step, v: Variant)
    requires Sound(m) && Budgeted(m.db)
    ensures Budgeted(Next(m, s, v).db)
  {
    var w := At(m, s.w);
    var next := Apply(m, w, s.event, v).db;
    Open(m.db);
    if OfPass(s.event) {
      PassSame(m, w, s.event, v);
      BudgetFramed(m.db, next);
    } else if Transaction(m.db, w, s.event).Done? {
      if s.event.Recover? {
        RecoverBudgeted(m.db, w, s.event.delegation, s.event.member);
      } else {
        TransactionSame(m.db, w, s.event);
        TransactionKeeps(m.db, w, s.event);
        OpenExtends(m.db, next);
        BudgetFramed(m.db, next);
      }
    }
  }

  /** In every reachable state, restarts respect the per-incident and per-goal limits and the cooldown between two of the same member. */
  lemma {:induction false} RecoveryStaysInBudget(steps: seq<Step>, v: Variant)
    ensures Budgeted(Run(steps, v).db)
  {
    if steps != [] {
      RecoveryStaysInBudget(steps[..|steps| - 1], v);
      ReachableSound(steps[..|steps| - 1], v);
      StepBudgeted(Run(steps[..|steps| - 1], v), steps[|steps| - 1], v);
    }
  }

  /** Spelled out for one member, one goal and two restarts. */
  lemma {:induction false} RestartLimits(steps: seq<Step>, v: Variant, d: Id, m: Id)
    requires d < |Run(steps, v).db.delegations|
    ensures var db := Run(steps, v).db; RestartsOf(db.restarts, d, m) <= GrantOf(db.goals, db.delegations, d).maxAttemptsPerIncident
    ensures var db := Run(steps, v).db;
            db.delegations[d].input.goalId < |db.goals| &&
            RestartsForGoal(db.restarts, db.delegations, db.delegations[d].input.goalId) <= GrantOf(db.goals, db.delegations, d).maxAttemptsPerGoal
    ensures var db := Run(steps, v).db;
            forall i, j :: 0 <= i < j < |db.restarts| && SameMember(db.restarts[i], d, m) && SameMember(db.restarts[j], d, m) ==>
              db.restarts[i].at + Cooldown(db.goals, db.delegations, d) <= db.restarts[j].at
  {
    ReachableSound(steps, v);
    assert Holds(Run(steps, v).db, Linked);
    RecoveryStaysInBudget(steps, v);
    var db := Run(steps, v).db;
    assert PartHolds(db.goals, db.delegations, db.incidents, db.restarts, RowCounts);
    assert PartHolds(db.goals, db.delegations, db.incidents, db.restarts, RowlessCounts);
    assert PartHolds(db.goals, db.delegations, db.incidents, db.restarts, Limits);
    assert PartHolds(db.goals, db.delegations, db.incidents, db.restarts, Spacing);
    var known := IncidentIndex(db.incidents, d, m);
  }
}
