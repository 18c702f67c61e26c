/**
 The goal service as a machine of atomic steps.  One pass of `#reconcile` reads rows, awaits, and
 writes later; every other operation is one transaction, and any of them may fall between the
 steps of the pass.
 */
module GoalMachine {
  import opened Wrappers
  import opened GoalModel

  /** The stale writes of `#reconcile` as they are, or with a re-read of the goal first. */
  datatype Variant = AsWritten | Rechecked

  /** The tables, the clock, and the rows the running pass has read and not used yet. */
  datatype Machine = Machine(db: Db, clock: nat, seenGoals: map<Id, Goal>, seenTeams: map<Id, Delegation>)

  datatype Event =
    | Propose(proposal: Proposal)
    | ControlBy(goal: Id, expectedRevision: nat, action: Control)
    | Delegate(delegateInput: DelegateInput, plan: Option<Id>)
    | Ask(question: QuestionInput, kind: DecisionKind)
    | Resolve(decision: Id, decisionRevision: nat, answer: string, byHuman: bool)
    | ReportBy(principal: Principal, report: ReportInput)
    | MoveWake(wake: nat, to: InboxState)
    | Recover(delegation: Id, member: Id)
    | ListGoals
    | VisitGoal(visited: Id)
    | OfferTeam(offered: Id, actionId: Id)
    | CheckTeam(checked: Id, interval: nat)

  /** A step of the running pass, which may use rows it read earlier; every other one is a transaction on current rows. */
  predicate OfPass(event: Event) {
    event.ListGoals? || event.VisitGoal? || event.OfferTeam? || event.CheckTeam?
  }

  datatype Step = Step(w: World, event: Event)

  const Initial := Machine(Db([], [], [], [], [], [], []), 0, map[], map[])

  /** The clock never runs backwards. */
  function At(m: Machine, w: World): World {
    w.(now := if m.clock <= w.now then w.now else m.clock)
  }

  /** The row the policy write leaves behind when a listed goal is no longer within its limits. */
  function BlockListed(db: Db, g: Id, listed: Goal, v: Variant): Db
    requires g < |db.goals|
  {
    match v
    case AsWritten => SaveGoal(db, g, Moved(listed, GoalState.Blocked))
    case Rechecked => if db.goals[g].state.Running? then SaveGoal(db, g, Moved(db.goals[g], GoalState.Blocked)) else db
  }

  function WakeListed(db: Db, g: Id, v: Variant): Db
    requires g < |db.goals|
  {
    if v.Rechecked? && db.goals[g].state.Terminal() then db else WakeGoal(db, g)
  }

  predicate HasWake(wakes: seq<Wake>, g: Id) {
    exists i :: 0 <= i < |wakes| && wakes[i].goalId == g
  }

  predicate HasActiveTeam(rows: seq<Delegation>, g: Id) {
    exists i :: 0 <= i < |rows| && rows[i].input.goalId == g && rows[i].state.Active()
  }

  function Listed(db: Db): map<Id, Goal> {
    map g | 0 <= g < |db.goals| && db.goals[g].state.Running? :: db.goals[g]
  }

  function ActiveTeams(db: Db, g: Id): map<Id, Delegation> {
    map d | 0 <= d < |db.delegations| && db.delegations[d].input.goalId == g && db.delegations[d].state.Active() :: db.delegations[d]
  }

  /** `authorizeHandoff`, on the rows as they are inside the transaction. */
  predicate HandoffAllowed(goals: seq<Goal>, rows: seq<Delegation>, w: World, d: Id) {
    && d < |rows|
    && var row := rows[d];
    && w.foremanCurrent
    && row.input.goalId < |goals|
    && MayRun(goals[row.input.goalId], w, Coordination)
    && (row.state.Queued? || row.state.Offered? || row.state.Accepted? || row.state.Working? || row.state.Blocked?)
    && AssignmentHolds(row, w)
  }

  /** The handoff writes the row read before the await, with only its state and receipt changed. */
  function OfferedRow(read: Delegation, actionId: Id, now: nat): Delegation {
    Shifted(read, Offered).(actionId := Some(actionId), nextCheckAt := now + 900000)
  }

  /** The operations that are one transaction each, on the rows as they are then. */
  ghost function Transaction(db: Db, w: World, event: Event): Attempt {
    match event
    case Propose(proposal) => ProposeOnce(db, w, proposal)
    case ControlBy(g, revision, action) => ControlGoal(db, w, g, revision, action)
    case Delegate(input, plan) => DelegateTeam(db, w, input, plan)
    case Ask(question, kind) => if kind.Delegation? then Failed else AskOnce(db, w, question, kind)
    case Resolve(id, revision, answer, byHuman) => ResolveDecision(db, w, id, revision, answer, byHuman)
    case ReportBy(p, input) => RecordReport(db, w, p, input)
    case Recover(d, member) => AuthorizeRecovery(db, w, d, member)
    case MoveWake(i, to) =>
      if i < |db.wakes| && db.wakes[i].state.Outstanding() && !to.Queued?
      then Done(db.(wakes := db.wakes[i := db.wakes[i].(state := to)])) else Failed
    case _ => Failed
  }

  /** The pass reaches a goal it listed earlier. */
  function Visit(m: Machine, w: World, g: Id, v: Variant): Machine {
    if g !in m.seenGoals || g >= |m.db.goals| then m
    else if !MayRun(m.seenGoals[g], w, Coordination) then
      m.(seenGoals := m.seenGoals - {g}, db := BlockListed(m.db, g, m.seenGoals[g], v))
    else
      m.(seenGoals := m.seenGoals - {g}, seenTeams := ActiveTeams(m.db, g),
         db := if HasActiveTeam(m.db.delegations, g) || HasWake(m.db.wakes, g) then m.db else WakeListed(m.db, g, v))
  }

  /** The pass hands a queued delegation to its team. */
  function Offer(m: Machine, w: World, d: Id, actionId: Id): Machine {
    if d in m.seenTeams && m.seenTeams[d].state.Queued? && HandoffAllowed(m.db.goals, m.db.delegations, w, d)
    then m.(seenTeams := m.seenTeams - {d}, db := SaveDelegation(m.db, d, OfferedRow(m.seenTeams[d], actionId, w.now)))
    else m
  }

  predicate CheckDue(m: Machine, w: World, d: Id) {
    && d in m.seenTeams && d < |m.db.delegations| && m.db.delegations[d].input.goalId < |m.db.goals|
    && !m.seenTeams[d].state.Unsent()
    && AssignmentHolds(m.seenTeams[d], w)
    && m.seenTeams[d].nextCheckAt <= w.now
  }

  /** The pass finds a team due for a progress review. */
  function Check(m: Machine, w: World, d: Id, interval: nat, v: Variant): Machine {
    if CheckDue(m, w, d) then
      var woken := WakeListed(m.db, m.db.delegations[d].input.goalId, v);
      m.(seenTeams := m.seenTeams - {d}, db := SaveDelegation(woken, d, m.db.delegations[d].(nextCheckAt := w.now + interval)))
    else m
  }

  ghost function Apply(m: Machine, w: World, event: Event, v: Variant): Machine {
    match event
    case ListGoals => m.(seenGoals := Listed(m.db), seenTeams := map[])
    case VisitGoal(g) => Visit(m, w, g, v)
    case OfferTeam(d, actionId) => Offer(m, w, d, actionId)
    case CheckTeam(d, interval) => Check(m, w, d, interval, v)
    case _ => m.(db := Transaction(m.db, w, event).Or(m.db))
  }

  ghost function Next(m: Machine, s: Step, v: Variant): Machine {
    Apply(m, At(m, s.w), s.event, v).(clock := At(m, s.w).now)
  }

  /** The state after a run of steps. */
  ghost function Run(steps: seq<Step>, v: Variant): Machine {
    if steps == [] then Initial else Next(Run(steps[..|steps| - 1], v), steps[|steps| - 1], v)
  }

  // ---------------------------------------------------------------- invariants

  ghost predicate Tables(db: Db) {
    && (forall d :: 0 <= d < |db.delegations| ==> db.delegations[d].input.goalId < |db.goals|)
    && (forall r :: 0 <= r < |db.reports| ==> db.reports[r].input.delegationId < |db.delegations|)
    && (forall q :: 0 <= q < |db.decisions| ==>
          db.decisions[q].input.goalId < |db.goals| && AsksAboutOwnGoal(db, db.decisions[q].input))
    && (forall i :: 0 <= i < |db.wakes| ==> db.wakes[i].goalId < |db.goals|)
    && (forall i :: 0 <= i < |db.incidents| ==> db.incidents[i].delegationId < |db.delegations|)
    && (forall i :: 0 <= i < |db.restarts| ==> db.restarts[i].delegationId < |db.delegations|)
  }

  /** Active delegations hold pairwise distinct teams and pairwise distinct checkouts. */
  ghost predicate Exclusive(rows: seq<Delegation>) {
    forall i, j :: 0 <= i < j < |rows| && rows[i].state.Active() && rows[j].state.Active() ==>
      rows[i].input.groupId != rows[j].input.groupId && rows[i].checkoutId != rows[j].checkoutId
  }

  /** A completed or cancelled goal holds no team. */
  ghost predicate TerminalIdle(goals: seq<Goal>, rows: seq<Delegation>) {
    forall d :: 0 <= d < |rows| && rows[d].state.Active() && rows[d].input.goalId < |goals| ==>
      !goals[rows[d].input.goalId].state.Terminal()
  }

  /** Only the accountable member's reports say ready. */
  ghost predicate OwnersReportReady(reports: seq<Report>, rows: seq<Delegation>) {
    forall r :: r in reports && r.input.kind.Ready? && r.input.delegationId < |rows| ==>
      r.memberId == rows[r.input.delegationId].input.memberId
  }

  /** The last ready report is the accountable member's, and the last independent review of that very candidate approves it. */
  ghost predicate Certified(reports: seq<Report>, d: Id, owner: Id) {
    var ready := LatestReady(reports, d);
    && ready.Some?
    && ready.value.memberId == owner
    && ApprovedReview(reports, d, owner, ready.value.input.head, ready.value.input.path, ready.value.digest)
  }

  ghost predicate CompletedCertified(reports: seq<Report>, rows: seq<Delegation>) {
    forall d :: 0 <= d < |rows| && rows[d].state.Completed? ==> Certified(reports, d, rows[d].input.memberId)
  }

  predicate HasCompletedTeam(rows: seq<Delegation>, g: Id) {
    exists i :: 0 <= i < |rows| && rows[i].input.goalId == g && rows[i].state.Completed?
  }

  ghost predicate CompletedHaveTeams(goals: seq<Goal>, rows: seq<Delegation>) {
    forall g :: 0 <= g < |goals| && goals[g].state.Completed? ==> HasCompletedTeam(rows, g)
  }

  function ForGoal(g: Id): Wake -> bool { (wake: Wake) => wake.goalId == g }

  /** How many goal reviews were ever created for the goal. */
  ghost function WakesOf(wakes: seq<Wake>, g: Id): nat { Count(wakes, ForGoal(g)) }

  ghost predicate OneOutstanding(wakes: seq<Wake>) {
    forall i, j :: 0 <= i < j < |wakes| && wakes[i].state.Outstanding() && wakes[j].state.Outstanding() ==>
      wakes[i].goalId != wakes[j].goalId
  }

  /** No goal uses more turns than it was granted, and every turn used was a review created. */
  ghost predicate TurnBudget(goals: seq<Goal>, wakes: seq<Wake>) {
    && OneOutstanding(wakes)
    && forall g :: 0 <= g < |goals| ==>
         goals[g].turnsUsed <= goals[g].grant.maxForemanTurns && goals[g].turnsUsed <= WakesOf(wakes, g)
  }

  /** Turns used and reviews created agree exactly. */
  ghost predicate TurnsExact(db: Db) {
    forall g :: 0 <= g < |db.goals| ==> db.goals[g].turnsUsed == WakesOf(db.wakes, g)
  }

  datatype Aspect = Linked | TeamsExclusive | TerminalGoalsIdle | ReadyByOwner | CompletionCertified | CompletionOwned | TurnsBudgeted

  ghost predicate Holds(db: Db, aspect: Aspect) {
    match aspect
    case Linked => Tables(db)
    case TeamsExclusive => Exclusive(db.delegations)
    case TerminalGoalsIdle => TerminalIdle(db.goals, db.delegations)
    case ReadyByOwner => OwnersReportReady(db.reports, db.delegations)
    case CompletionCertified => CompletedCertified(db.reports, db.delegations)
    case CompletionOwned => CompletedHaveTeams(db.goals, db.delegations)
    case TurnsBudgeted => TurnBudget(db.goals, db.wakes)
  }

  /** Every invariant of the tables. */
  ghost predicate Good(db: Db) {
    forall aspect :: Holds(db, aspect)
  }

  /** The invariants spelled out; proofs that need one of them open it. */
  ghost predicate Facts(db: Db) {
    && Tables(db)
    && Exclusive(db.delegations)
    && TerminalIdle(db.goals, db.delegations)
    && OwnersReportReady(db.reports, db.delegations)
    && CompletedCertified(db.reports, db.delegations)
    && CompletedHaveTeams(db.goals, db.delegations)
    && TurnBudget(db.goals, db.wakes)
  }

  lemma Open(db: Db)
    requires Good(db)
    ensures Facts(db)
  {
    assert Holds(db, Linked) && Holds(db, TeamsExclusive) && Holds(db, TerminalGoalsIdle) && Holds(db, ReadyByOwner);
    assert Holds(db, CompletionCertified) && Holds(db, CompletionOwned) && Holds(db, TurnsBudgeted);
  }

  lemma Close(db: Db)
    requires Facts(db)
    ensures Good(db)
  {
  }

  /** What a goal listed earlier in the pass still says about the row stored now. */
  ghost predicate ListedGood(m: Machine) {
    forall g :: g in m.seenGoals ==>
      && g < |m.db.goals| && m.seenGoals[g].state.Running?
      && m.seenGoals[g].grant == m.db.goals[g].grant && m.seenGoals[g].proposal == m.db.goals[g].proposal
      && m.seenGoals[g].turnsUsed <= m.seenGoals[g].grant.maxForemanTurns
      && m.seenGoals[g].turnsUsed <= WakesOf(m.db.wakes, g)
  }

  /** What a delegation read earlier in the pass still says about the row stored now. */
  ghost predicate TeamsGood(m: Machine) {
    forall d :: d in m.seenTeams ==>
      && d < |m.db.delegations| && m.seenTeams[d].state.Active()
      && m.seenTeams[d].input == m.db.delegations[d].input && m.seenTeams[d].checkoutId == m.db.delegations[d].checkoutId
      && (m.seenTeams[d].state.Queued? ==> m.seenTeams[d] == m.db.delegations[d] || m.db.delegations[d].state.Cancelled?)
      && (!m.seenTeams[d].state.Unsent() ==> !m.db.delegations[d].state.Unsent())
  }

  ghost predicate SeenGood(m: Machine) {
    ListedGood(m) && TeamsGood(m)
  }

  datatype Retained = Lengths | Grants | TeamRows | WakeCounts

  ghost predicate Retains(a: Db, b: Db, what: Retained) {
    match what
    case Lengths => |a.goals| <= |b.goals| && |a.delegations| <= |b.delegations| && a.reports <= b.reports
    case Grants => |a.goals| <= |b.goals| && forall g :: 0 <= g < |a.goals| ==> b.goals[g].grant == a.goals[g].grant && b.goals[g].proposal == a.goals[g].proposal
    case TeamRows =>
      && |a.delegations| <= |b.delegations|
      && forall d :: 0 <= d < |a.delegations| ==>
           && b.delegations[d].input == a.delegations[d].input && b.delegations[d].checkoutId == a.delegations[d].checkoutId
           && (a.delegations[d].state.Queued? ==> b.delegations[d] == a.delegations[d] || b.delegations[d].state.Cancelled?)
           && (a.delegations[d].state.Cancelled? ==> b.delegations[d].state.Cancelled?)
           && (!a.delegations[d].state.Unsent() ==> !b.delegations[d].state.Unsent())
    case WakeCounts => forall g :: 0 <= g < |a.goals| ==> WakesOf(a.wakes, g) <= WakesOf(b.wakes, g)
  }

  /** Rows are only added; grants, inputs, checkouts and earlier reports never change, and queued rows move only by an offer or a cancel. */
  ghost predicate Extends(a: Db, b: Db) {
    forall what :: Retains(a, b, what)
  }

  lemma OpenExtends(a: Db, b: Db)
    requires Extends(a, b)
    ensures Retains(a, b, Lengths) && Retains(a, b, Grants) && Retains(a, b, TeamRows) && Retains(a, b, WakeCounts)
  {
  }

  // ---------------------------------------------------------------- #wake

  lemma {:induction false} NoWakesYet(wakes: seq<Wake>, g: Id)
    requires forall i :: 0 <= i < |wakes| ==> wakes[i].goalId != g
    ensures WakesOf(wakes, g) == 0
  {
    if wakes != [] { NoWakesYet(wakes[..|wakes| - 1], g); }
  }

  lemma {:induction false} WakeAppended(wakes: seq<Wake>, g: Id)
    ensures forall k :: WakesOf(wakes + [Wake(g, InboxState.Queued)], k) == WakesOf(wakes, k) + if k == g then 1 else 0
  {
    forall k ensures WakesOf(wakes + [Wake(g, InboxState.Queued)], k) == WakesOf(wakes, k) + if k == g then 1 else 0 {
      CountAppend(wakes, Wake(g, InboxState.Queued), ForGoal(k));
    }
  }

  lemma {:induction false} WakeMoved(wakes: seq<Wake>, i: nat, to: InboxState)
    requires i < |wakes|
    ensures forall k :: WakesOf(wakes[i := wakes[i].(state := to)], k) == WakesOf(wakes, k)
  {
    forall k ensures WakesOf(wakes[i := wakes[i].(state := to)], k) == WakesOf(wakes, k) {
      CountUpdate(wakes, i, wakes[i].(state := to), ForGoal(k));
    }
  }

  // ---------------------------------------------------------------- single writes

  /** `b` follows `a` by writes that keep the invariants. */
  ghost predicate Keeps(a: Db, b: Db) {
    Good(b) && Extends(a, b) && (TurnsExact(a) ==> TurnsExact(b))
  }

  lemma {:induction false} KeepsTransitive(a: Db, b: Db, c: Db)
    requires Keeps(a, b) && Keeps(b, c)
    ensures Keeps(a, c)
  {
    OpenExtends(a, b);
    OpenExtends(b, c);
  }

  lemma {:induction false} GoalSaved(db: Db, g: Id, goal: Goal)
    requires Good(db) && g < |db.goals| && goal.grant == db.goals[g].grant && goal.proposal == db.goals[g].proposal
    requires goal.turnsUsed <= goal.grant.maxForemanTurns && goal.turnsUsed <= WakesOf(db.wakes, g)
    requires goal.state.Terminal() ==> !HasActiveTeam(db.delegations, g)
    requires goal.state.Completed? ==> HasCompletedTeam(db.delegations, g)
    ensures Good(SaveGoal(db, g, goal)) && Extends(db, SaveGoal(db, g, goal))
    ensures TurnsExact(db) && goal.turnsUsed == db.goals[g].turnsUsed ==> TurnsExact(SaveGoal(db, g, goal))
  {
    Open(db);
    Close(SaveGoal(db, g, goal));
  }

  /** A goal row saved with nothing but its state and revision changed. */
  lemma {:induction false} StateSaved(db: Db, g: Id, state: GoalState)
    requires Good(db) && g < |db.goals|
    requires state.Terminal() ==> !HasActiveTeam(db.delegations, g)
    requires state.Completed? ==> HasCompletedTeam(db.delegations, g)
    ensures Keeps(db, SaveGoal(db, g, Moved(db.goals[g], state)))
  {
    assert Holds(db, TurnsBudgeted);
    GoalSaved(db, g, Moved(db.goals[g], state));
  }

  lemma {:induction false} GoalAdded(db: Db, goal: Goal)
    requires Good(db) && goal.turnsUsed == 0 && !goal.state.Terminal()
    ensures Keeps(db, db.(goals := db.goals + [goal]))
  {
    Open(db);
    NoWakesYet(db.wakes, |db.goals|);
    Close(db.(goals := db.goals + [goal]));
  }

  /** Rows change state only in ways that neither revive a finished delegation nor complete one without its evidence. */
  ghost predicate RowsMove(db: Db, rows: seq<Delegation>) {
    && |rows| == |db.delegations|
    && forall d :: 0 <= d < |rows| ==>
         var before := db.delegations[d];
         && rows[d].input == before.input && rows[d].checkoutId == before.checkoutId
         && (rows[d].state.Active() ==> before.state.Active())
         && (before.state.Cancelled? ==> rows[d].state.Cancelled?)
         && (before.state.Queued? ==> rows[d] == before || rows[d].state.Cancelled?)
         && (!before.state.Unsent() ==> !rows[d].state.Unsent())
         && (rows[d].state.Completed? && !before.state.Completed? ==> Certified(db.reports, d, before.input.memberId))
         && (before.state.Completed? && !rows[d].state.Completed? && before.input.goalId < |db.goals| ==> !db.goals[before.input.goalId].state.Completed?)
  }

  lemma {:induction false} RowsMoved(db: Db, rows: seq<Delegation>)
    requires Good(db) && RowsMove(db, rows)
    ensures Keeps(db, db.(delegations := rows))
  {
    Open(db);
    forall g | 0 <= g < |db.goals| && db.goals[g].state.Completed? ensures HasCompletedTeam(rows, g) {
      var i :| 0 <= i < |db.delegations| && db.delegations[i].input.goalId == g && db.delegations[i].state.Completed?;
      assert rows[i].input.goalId == g && rows[i].state.Completed?;
    }
    Close(db.(delegations := rows));
  }

  lemma {:induction false} RowAddedFacts(db: Db, row: Delegation)
    requires Facts(db) && row.state.Active()
    ensures CompletedHaveTeams(db.goals, db.delegations + [row])
    ensures CompletedCertified(db.reports, db.delegations + [row])
  {
    var rows := db.delegations + [row];
    forall g | 0 <= g < |db.goals| && db.goals[g].state.Completed? ensures HasCompletedTeam(rows, g) {
      var i :| 0 <= i < |db.delegations| && db.delegations[i].input.goalId == g && db.delegations[i].state.Completed?;
      assert rows[i] == db.delegations[i];
    }
    forall d | 0 <= d < |rows| && rows[d].state.Completed? ensures Certified(db.reports, d, rows[d].input.memberId) {
      assert rows[d] == db.delegations[d];
    }
  }

  lemma {:induction false} RowAdded(db: Db, row: Delegation)
    requires Good(db) && row.input.goalId < |db.goals| && !db.goals[row.input.goalId].state.Terminal() && row.state.Active()
    requires forall i :: 0 <= i < |db.delegations| && db.delegations[i].state.Active() ==>
               db.delegations[i].input.groupId != row.input.groupId && db.delegations[i].checkoutId != row.checkoutId
    ensures Keeps(db, db.(delegations := db.delegations + [row]))
  {
    Open(db);
    RowAddedFacts(db, row);
    Close(db.(delegations := db.delegations + [row]));
  }

  // A report about another delegation leaves a certificate as it is.
  lemma {:induction false} CertificateUnmoved(reports: seq<Report>, r: Report, d: Id, owner: Id)
    requires r.input.delegationId != d
    ensures LatestReady(reports + [r], d) == LatestReady(reports, d)
    ensures Certified(reports + [r], d, owner) == Certified(reports, d, owner)
  {
    assert (reports + [r])[..|reports|] == reports;
  }

  lemma {:induction false} ReportAdded(db: Db, r: Report)
    requires Good(db) && r.input.delegationId < |db.delegations| && !db.delegations[r.input.delegationId].state.Completed?
    requires r.input.kind.Ready? ==> r.memberId == db.delegations[r.input.delegationId].input.memberId
    ensures Keeps(db, db.(reports := db.reports + [r]))
  {
    Open(db);
    forall d | 0 <= d < |db.delegations| && db.delegations[d].state.Completed?
      ensures Certified(db.reports + [r], d, db.delegations[d].input.memberId)
    {
      CertificateUnmoved(db.reports, r, d, db.delegations[d].input.memberId);
    }
    Close(db.(reports := db.reports + [r]));
  }

  lemma {:induction false} DecisionsSaved(db: Db, rows: seq<Decision>)
    requires Good(db)
    requires forall q :: 0 <= q < |rows| ==> rows[q].input.goalId < |db.goals| && AsksAboutOwnGoal(db, rows[q].input)
    ensures Keeps(db, db.(decisions := rows))
  {
    Open(db);
    Close(db.(decisions := rows));
  }

  lemma {:induction false} WakeKeeps(db: Db, g: Id)
    requires Good(db) && g < |db.goals|
    ensures Keeps(db, WakeGoal(db, g))
  {
    if !HasOutstandingWake(db.wakes, g) {
      if db.goals[g].turnsUsed >= db.goals[g].grant.maxForemanTurns {
        StateSaved(db, g, GoalState.Blocked);
      } else {
        WakeAppended(db.wakes, g);
        Open(db);
        Close(WakeGoal(db, g));
      }
    }
  }

  // ---------------------------------------------------------------- one operation at a time

  lemma {:induction false} ControlKeeps(db: Db, w: World, g: Id, revision: nat, action: Control)
    requires Good(db) && ControlGoal(db, w, g, revision, action).Done?
    ensures Keeps(db, ControlGoal(db, w, g, revision, action).db)
  {
    var goal := db.goals[g];
    match action
    case Approve | Resume =>
      StateSaved(db, g, GoalState.Running);
    case Accept =>
      AcceptKeeps(db, w, g);
    case Pause | Cancel =>
      var rows := WithdrawTeams(db.delegations, g, action.Cancel?);
      RowsMoved(db, rows);
      var withdrawn := db.(delegations := rows);
      var retired := withdrawn.(decisions := RetireQuestions(db.decisions, g));
      Open(db);
      DecisionsSaved(withdrawn, RetireQuestions(db.decisions, g));
      KeepsTransitive(db, withdrawn, retired);
      var next := SaveGoal(retired, g, Moved(goal, if action.Pause? then Paused else GoalState.Cancelled));
      StateSaved(retired, g, if action.Pause? then Paused else GoalState.Cancelled);
      KeepsTransitive(db, retired, next);
  }

  lemma {:induction false} CompleteMoves(db: Db, w: World, g: Id)
    requires OwnersReportReady(db.reports, db.delegations) && g < |db.goals| && AllAcceptable(db, g, w) && db.goals[g].state.AwaitingAcceptance?
    ensures RowsMove(db, CompleteTeams(db.delegations, g))
  {
    forall d | 0 <= d < |db.delegations| && db.delegations[d].input.goalId == g && !db.delegations[d].state.Cancelled?
      ensures Certified(db.reports, d, db.delegations[d].input.memberId) && db.delegations[d].state.Ready?
    {
      assert Acceptable(db.reports, d, db.delegations[d], w);
    }
  }

  lemma {:induction false} AcceptKeeps(db: Db, w: World, g: Id)
    requires Good(db) && g < |db.goals| && AllAcceptable(db, g, w) && db.goals[g].state.AwaitingAcceptance?
    ensures Keeps(db, SaveGoal(db.(delegations := CompleteTeams(db.delegations, g)), g, Moved(db.goals[g], GoalState.Completed)))
  {
    var rows := CompleteTeams(db.delegations, g);
    assert Holds(db, ReadyByOwner);
    CompleteMoves(db, w, g);
    RowsMoved(db, rows);
    var accepted := db.(delegations := rows);
    var d :| 0 <= d < |db.delegations| && db.delegations[d].input.goalId == g && !db.delegations[d].state.Cancelled?;
    assert rows[d].input.goalId == g && rows[d].state.Completed?;
    StateSaved(accepted, g, GoalState.Completed);
    KeepsTransitive(db, accepted, SaveGoal(accepted, g, Moved(db.goals[g], GoalState.Completed)));
  }

  lemma {:induction false} ProposeKeeps(db: Db, w: World, proposal: Proposal)
    requires Good(db) && ProposeGoal(db, w, proposal).Done?
    ensures Keeps(db, ProposeGoal(db, w, proposal).db)
  {
    var autonomy := w.policy.value.autonomy;
    var goal := Goal(proposal, w.policy.value.foremanId, GoalState.Proposed, 0, autonomy, 0, w.now + autonomy.maxGoalHours * 3600000);
    var saved := db.(goals := db.goals + [goal]);
    GoalAdded(db, goal);
    if Automatic(goal, w) {
      ControlKeeps(saved, w, |db.goals|, 0, Approve);
      KeepsTransitive(db, saved, ProposeGoal(db, w, proposal).db);
    }
  }

  lemma {:induction false} AskKeeps(db: Db, w: World, input: QuestionInput, kind: DecisionKind)
    requires Good(db) && AskHuman(db, w, input, kind).Done?
    ensures Keeps(db, AskHuman(db, w, input, kind).db)
  {
    Open(db);
    DecisionsSaved(db, AskHuman(db, w, input, kind).db.decisions);
  }

  lemma {:induction false} AnswerKeeps(db: Db, w: World, id: Id, revision: nat, answer: string, byHuman: bool)
    requires Good(db) && AnswerAllowed(db, w, id, revision, answer)
    ensures Keeps(db, SaveAnswer(db, id, answer, byHuman))
  {
    var decision := db.decisions[id];
    var saved := db.(decisions := db.decisions[id := WithAnswer(decision, answer, byHuman)]);
    Open(db);
    DecisionsSaved(db, saved.decisions);
    if decision.kind.Delegation? {
      var rows := SaveAnswer(db, id, answer, byHuman).delegations;
      RowsMoved(saved, rows);
      KeepsTransitive(db, saved, saved.(delegations := rows));
    }
  }

  lemma {:induction false} ResolveKeeps(db: Db, w: World, id: Id, revision: nat, answer: string, byHuman: bool)
    requires Good(db) && ResolveDecision(db, w, id, revision, answer, byHuman).Done?
    ensures Keeps(db, ResolveDecision(db, w, id, revision, answer, byHuman).db)
  {
    AnswerKeeps(db, w, id, revision, answer, byHuman);
    var saved := SaveAnswer(db, id, answer, byHuman);
    WakeKeeps(saved, db.decisions[id].input.goalId);
    KeepsTransitive(db, saved, WakeGoal(saved, db.decisions[id].input.goalId));
  }

  lemma {:induction false} DelegateKeeps(db: Db, w: World, input: DelegateInput, plan: Option<Id>)
    requires Good(db) && DelegateTeam(db, w, input, plan).Done?
    ensures Keeps(db, DelegateTeam(db, w, input, plan).db)
  {
    var next := DelegateTeam(db, w, input, plan).db;
    if FindRequest(db.delegations, input).None? {
      var row := Delegation.Delegation(input, if plan.Some? then DelegationState.Queued else DelegationState.Proposed,
                                       0, w.teams[input.groupId].checkout.value, None, w.now);
      var saved := db.(delegations := db.delegations + [row]);
      RowAdded(db, row);
      if plan.None? {
        var question := QuestionInput("", input.goalId, Some(|db.delegations|), ["approve", "deny"], true);
        var asked := AskHuman(saved, w, question, DecisionKind.Delegation);
        AskKeeps(saved, w, question, DecisionKind.Delegation);
        KeepsTransitive(db, saved, asked.db);
        if Automatic(db.goals[input.goalId], w) {
          ResolveKeeps(asked.db, w, |db.decisions|, 0, "approve", false);
          KeepsTransitive(db, asked.db, next);
        }
      }
    }
  }

  lemma {:induction false} SaveReportKeeps(db: Db, w: World, p: Principal, input: ReportInput)
    requires Good(db) && input.delegationId < |db.delegations| && ReportAllowed(db, w, p, input)
    ensures Keeps(db, SaveReport(db, w, p, input))
  {
    var row := db.delegations[input.delegationId];
    var written := db.(reports := db.reports + [ReportRecord(row, w, p, input)]);
    ReportAdded(db, ReportRecord(row, w, p, input));
    RowsMoved(written, db.delegations[input.delegationId := ReportedRow(row, w, p, input)]);
    KeepsTransitive(db, written, SaveReport(db, w, p, input));
  }

  lemma {:induction false} ReportKeeps(db: Db, w: World, p: Principal, input: ReportInput)
    requires Good(db) && RecordReport(db, w, p, input).Done?
    ensures Keeps(db, RecordReport(db, w, p, input).db)
  {
    var next := RecordReport(db, w, p, input).db;
    if FindReport(db.reports, p, input).None? {
      var saved := SaveReport(db, w, p, input);
      SaveReportKeeps(db, w, p, input);
      var g := db.delegations[input.delegationId].input.goalId;
      if TeamsReady(saved.delegations, g) {
        WaitingKeeps(saved, g);
        KeepsTransitive(db, saved, next);
      } else if input.kind.Blocked? || input.kind.Review? {
        WakeKeeps(saved, g);
        KeepsTransitive(db, saved, next);
      }
    }
  }

  lemma {:induction false} WaitingKeeps(db: Db, g: Id)
    requires Good(db) && g < |db.goals|
    ensures Keeps(db, WakeGoal(SaveGoal(db, g, Moved(db.goals[g], AwaitingAcceptance)), g))
  {
    var waiting := SaveGoal(db, g, Moved(db.goals[g], AwaitingAcceptance));
    StateSaved(db, g, AwaitingAcceptance);
    WakeKeeps(waiting, g);
    KeepsTransitive(db, waiting, WakeGoal(waiting, g));
  }

  lemma {:induction false} RecoverKeeps(db: Db, w: World, d: Id, member: Id)
    requires Good(db) && AuthorizeRecovery(db, w, d, member).Done?
    ensures Keeps(db, AuthorizeRecovery(db, w, d, member).db)
  {
    Open(db);
    Close(AuthorizeRecovery(db, w, d, member).db);
  }

  lemma {:induction false} WakeMoveKeeps(db: Db, i: nat, to: InboxState)
    requires Good(db) && i < |db.wakes| && db.wakes[i].state.Outstanding()
    ensures Keeps(db, db.(wakes := db.wakes[i := db.wakes[i].(state := to)]))
  {
    Open(db);
    WakeMoved(db.wakes, i, to);
    Close(db.(wakes := db.wakes[i := db.wakes[i].(state := to)]));
  }

  lemma {:induction false} TransactionKeeps(db: Db, w: World, event: Event)
    requires Good(db) && Transaction(db, w, event).Done?
    ensures Keeps(db, Transaction(db, w, event).db)
  {
    match event
    case Propose(proposal) => if Transaction(db, w, event).db != db { ProposeKeeps(db, w, proposal); }
    case ControlBy(g, revision, action) => ControlKeeps(db, w, g, revision, action);
    case Delegate(input, plan) => DelegateKeeps(db, w, input, plan);
    case Ask(question, kind) => if Transaction(db, w, event).db != db { AskKeeps(db, w, question, kind); }
    case Resolve(id, revision, answer, byHuman) => ResolveKeeps(db, w, id, revision, answer, byHuman);
    case ReportBy(p, input) => ReportKeeps(db, w, p, input);
    case Recover(d, member) => RecoverKeeps(db, w, d, member);
    case MoveWake(i, to) => WakeMoveKeeps(db, i, to);
  }
}
