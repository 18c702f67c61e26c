/**
 The durable tables of the Foreman goal protocol and what each atomic operation does to them
 (`apps/daemon/src/foreman-goal-service.ts`).  A record's id is its row number, because rows are
 listed in insertion order and ids are never reused.  Facts the service reads from other tables
 (teams, runs, checkouts, candidate files) come in as a `World`, different at every step.
 */
module GoalModel {
  import opened Wrappers

  type Id = nat

  datatype GoalState = Proposed | Running | Paused | Blocked | AwaitingAcceptance | Completed | Cancelled
  {
    predicate Terminal() { Completed? || Cancelled? }
  }

  datatype DelegationState = Proposed | Queued | Offered | Accepted | Working | Blocked | Ready | Completed | Cancelled
  {
    predicate Active() { !Completed? && !Cancelled? }

    /** Not handed to its team yet. */
    predicate Unsent() { Proposed? || Queued? }
  }

  datatype Grant = Grant(
    maxActiveGoals: nat, maxTeamsPerGoal: nat, maxConcurrentActions: nat, maxGoalHours: nat, maxForemanTurns: nat,
    autonomous: bool, bounded: bool, idlePrompt: bool, maxChecksPerIncident: nat,
    restartAgents: bool, maxAttemptsPerIncident: nat, maxAttemptsPerGoal: nat, cooldownSeconds: nat)

  datatype Operation = Coordination | Intervention | Recovery

  /** What is asked for, and the request that asks for it. */
  datatype Proposal = Proposal(requestId: string, objective: string)

  datatype Goal = Goal(proposal: Proposal, foremanId: Id, state: GoalState, revision: nat, grant: Grant, turnsUsed: nat, expiresAt: nat)

  datatype DelegateInput = DelegateInput(
    requestId: string, goalId: Id, groupId: Id, memberId: Id, expectedRevision: nat,
    membershipRevision: nat, checkoutRevision: nat, brief: string)

  datatype Delegation = Delegation(
    input: DelegateInput, state: DelegationState, revision: nat, checkoutId: Id, actionId: Option<Id>, nextCheckAt: nat)

  datatype ReportKind = Accepted | Progress | Blocked | Plan | Review | Ready
  datatype ReviewOutcome = Approved | ChangesRequired

  datatype ReportInput = ReportInput(
    requestId: string, delegationId: Id, kind: ReportKind, outcome: Option<ReviewOutcome>, evidence: seq<string>,
    head: Option<string>, path: Option<string>, nextCheckSeconds: nat)

  datatype Report = Report(input: ReportInput, memberId: Id, digest: Option<string>)

  datatype DecisionKind = Question | Delegation | Preparation
  datatype DecisionState = Pending | Resolved | Stale

  datatype QuestionInput = QuestionInput(
    requestId: string, goalId: Id, delegationId: Option<Id>, options: seq<string>, blocking: bool)

  datatype Decision = Decision(
    input: QuestionInput, kind: DecisionKind, state: DecisionState, revision: nat, goalRevision: nat,
    answer: Option<string>, byHuman: bool)

  datatype InboxState = Queued | Writing | Submitted | Answered | Ambiguous | Cancelled
  {
    predicate Outstanding() { Queued? || Writing? || Submitted? || Ambiguous? }
  }

  /** An inbox row whose key starts with `goal-review:`. */
  datatype Wake = Wake(goalId: Id, state: InboxState)

  /** A row of `delegation_recovery`. */
  datatype Incident = Incident(delegationId: Id, memberId: Id, attempts: nat, nextAllowedAt: nat)

  /** History: one entry for each recovery that was authorized, in order. */
  datatype Restart = Restart(delegationId: Id, memberId: Id, at: nat)

  datatype Db = Db(
    goals: seq<Goal>, delegations: seq<Delegation>, reports: seq<Report>, decisions: seq<Decision>,
    wakes: seq<Wake>, incidents: seq<Incident>, restarts: seq<Restart>)

  datatype Team = Team(
    membershipRevision: nat, checkoutRevision: nat, checkout: Option<Id>, members: set<Id>,
    assignmentBlocked: bool, blockingActions: set<Id>, runtimeReady: bool, membersSettled: bool)

  datatype Checkout = Checkout(head: Option<string>, dirty: bool)
  datatype Policy = Policy(foremanId: Id, enabled: bool, autonomy: Grant)
  datatype Principal = Principal(groupId: Id, memberId: Id, runId: Id)

  datatype World = World(
    now: nat, policy: Option<Policy>, foremanCurrent: bool, teams: map<Id, Team>, checkouts: map<Id, Checkout>,
    digests: map<(Id, string), string>, activeRuns: map<(Id, Id), Id>, planMatches: bool,
    recoverable: set<(Id, Id)>)

  datatype Control = Approve | Pause | Resume | Cancel | Accept

  /** What a transaction does: commit new tables, or roll back. */
  datatype Attempt = Done(db: Db) | Failed
  {
    function Or(before: Db): Db { if Done? then db else before }
  }

  // ---------------------------------------------------------------- guards

  /** `assertGoalGrantWithin`: no limit of the goal exceeds the repository's current ceiling. */
  predicate GrantWithin(grant: Grant, ceiling: Grant, operation: Operation) {
    && grant.maxActiveGoals <= ceiling.maxActiveGoals
    && grant.maxTeamsPerGoal <= ceiling.maxTeamsPerGoal
    && grant.maxConcurrentActions <= ceiling.maxConcurrentActions
    && grant.maxGoalHours <= ceiling.maxGoalHours
    && grant.maxForemanTurns <= ceiling.maxForemanTurns
    && (grant.autonomous ==> ceiling.autonomous)
    && (!operation.Coordination? ==>
          && (grant.bounded ==> ceiling.bounded)
          && ceiling.cooldownSeconds <= grant.cooldownSeconds)
    && (operation.Intervention? ==>
          && (grant.idlePrompt ==> ceiling.idlePrompt)
          && grant.maxChecksPerIncident <= ceiling.maxChecksPerIncident)
    && (operation.Recovery? ==>
          && (grant.restartAgents ==> ceiling.restartAgents)
          && grant.maxAttemptsPerIncident <= ceiling.maxAttemptsPerIncident
          && grant.maxAttemptsPerGoal <= ceiling.maxAttemptsPerGoal)
  }

  /** The part of `#running` that does not look at the goal's state. */
  predicate Authorized(goal: Goal, w: World, operation: Operation) {
    && w.policy.Some?
    && w.policy.value.enabled
    && w.policy.value.foremanId == goal.foremanId
    && w.now < goal.expiresAt
    && GrantWithin(goal.grant, w.policy.value.autonomy, operation)
  }

  predicate MayRun(goal: Goal, w: World, operation: Operation) {
    goal.state.Running? && Authorized(goal, w, operation)
  }

  predicate Automatic(goal: Goal, w: World) {
    goal.grant.autonomous && w.policy.Some? && w.policy.value.autonomy.autonomous
  }

  /** `assertAssignment`. */
  predicate AssignmentHolds(d: Delegation, w: World) {
    && d.input.groupId in w.teams
    && var team := w.teams[d.input.groupId];
    && team.membershipRevision == d.input.membershipRevision
    && team.checkoutRevision == d.input.checkoutRevision
    && team.checkout == Some(d.checkoutId)
    && d.input.memberId in team.members
    && !team.assignmentBlocked
  }

  /** `assessTeam` reports no blocker. */
  predicate TeamEligible(delegations: seq<Delegation>, groupId: Id, w: World) {
    && groupId in w.teams
    && var team := w.teams[groupId];
    && team.checkout.Some?
    && (forall i :: 0 <= i < |delegations| && delegations[i].state.Active() ==>
          delegations[i].input.groupId != groupId && delegations[i].checkoutId != team.checkout.value)
    && !team.assignmentBlocked
    && team.members != {}
    && team.blockingActions == {}
    && team.runtimeReady
  }

  predicate Settled(d: Delegation, w: World) {
    d.input.groupId in w.teams &&
    w.teams[d.input.groupId].blockingActions <= (if d.actionId.Some? then {d.actionId.value} else {})
  }

  predicate CurrentMember(p: Principal, d: Delegation, w: World) {
    && p.groupId == d.input.groupId
    && (p.groupId, p.memberId) in w.activeRuns
    && w.activeRuns[(p.groupId, p.memberId)] == p.runId
    && AssignmentHolds(d, w)
  }

  // ---------------------------------------------------------------- evidence

  predicate IsReadyFor(r: Report, d: Id) {
    r.input.delegationId == d && r.input.kind.Ready?
  }

  /** A review of exactly this candidate by somebody other than the accountable member. */
  predicate IsReviewFor(r: Report, d: Id, owner: Id, head: Option<string>, path: Option<string>, digest: Option<string>) {
    && r.input.delegationId == d
    && r.input.kind.Review?
    && r.memberId != owner
    && if digest.None? then head.Some? && r.input.head == head && r.input.path.None?
       else r.input.path == path && r.digest == digest
  }

  ghost function LatestReady(reports: seq<Report>, d: Id): (r: Option<Report>)
    ensures r.Some? ==> r.value in reports && IsReadyFor(r.value, d)
    ensures r.None? ==> forall x :: x in reports ==> !IsReadyFor(x, d)
  {
    if reports == [] then None
    else if IsReadyFor(reports[|reports| - 1], d) then Some(reports[|reports| - 1])
    else LatestReady(reports[..|reports| - 1], d)
  }

  ghost function LatestReview(reports: seq<Report>, d: Id, owner: Id, head: Option<string>, path: Option<string>, digest: Option<string>)
    : (r: Option<Report>)
    ensures r.Some? ==> r.value in reports && IsReviewFor(r.value, d, owner, head, path, digest)
  {
    if reports == [] then None
    else if IsReviewFor(reports[|reports| - 1], d, owner, head, path, digest) then Some(reports[|reports| - 1])
    else LatestReview(reports[..|reports| - 1], d, owner, head, path, digest)
  }

  /** `#assertApprovedReview`: the last independent review of the same candidate approves it and cites evidence. */
  ghost predicate ApprovedReview(reports: seq<Report>, d: Id, owner: Id, head: Option<string>, path: Option<string>, digest: Option<string>) {
    var review := LatestReview(reports, d, owner, head, path, digest);
    review.Some? && review.value.input.outcome == Some(Approved) && review.value.input.evidence != []
  }

  predicate CandidateUnchanged(d: Delegation, ready: Report, w: World) {
    d.checkoutId in w.checkouts &&
    if ready.input.path.Some? then
      (d.checkoutId, ready.input.path.value) in w.digests &&
      ready.digest == Some(w.digests[(d.checkoutId, ready.input.path.value)])
    else
      var checkout := w.checkouts[d.checkoutId];
      !checkout.dirty && checkout.head.Some? && checkout.head == ready.input.head
  }

  /** What `control` demands of one delegation before it accepts the goal. */
  ghost predicate Acceptable(reports: seq<Report>, d: Id, row: Delegation, w: World) {
    && row.state.Ready?
    && AssignmentHolds(row, w)
    && Settled(row, w)
    && var ready := LatestReady(reports, d);
    && ready.Some?
    && CandidateUnchanged(row, ready.value, w)
    && ApprovedReview(reports, d, row.input.memberId, ready.value.input.head, ready.value.input.path, ready.value.digest)
    && w.teams[row.input.groupId].membersSettled
  }

  // ---------------------------------------------------------------- operations

  function SaveGoal(db: Db, g: Id, goal: Goal): Db
    requires g < |db.goals|
  {
    db.(goals := db.goals[g := goal])
  }

  function SaveDelegation(db: Db, d: Id, row: Delegation): Db
    requires d < |db.delegations|
  {
    db.(delegations := db.delegations[d := row])
  }

  predicate ControlAllowed(action: Control, state: GoalState) {
    match action
    case Approve => state.Proposed?
    case Pause => state.Running? || state.Blocked? || state.AwaitingAcceptance?
    case Resume => state.Paused? || state.Blocked?
    case Cancel => !state.Terminal()
    case Accept => state.AwaitingAcceptance?
  }

  function Moved(goal: Goal, state: GoalState): Goal {
    goal.(state := state, revision := goal.revision + 1)
  }

  function Shifted(row: Delegation, state: DelegationState): Delegation {
    row.(state := state, revision := row.revision + 1)
  }

  /** Every delegation of the goal that is not cancelled becomes completed. */
  function CompleteTeams(rows: seq<Delegation>, g: Id): seq<Delegation> {
    seq(|rows|, i requires 0 <= i < |rows| =>
      if rows[i].input.goalId == g && !rows[i].state.Cancelled? then Shifted(rows[i], DelegationState.Completed) else rows[i])
  }

  /** Cancelling withdraws every delegation of the goal, pausing only the proposed ones. */
  function WithdrawTeams(rows: seq<Delegation>, g: Id, all: bool): seq<Delegation> {
    seq(|rows|, i requires 0 <= i < |rows| =>
      if rows[i].input.goalId == g && (all || rows[i].state.Proposed?) then Shifted(rows[i], DelegationState.Cancelled) else rows[i])
  }

  /** Pending questions of a paused or cancelled goal go stale. */
  function RetireQuestions(rows: seq<Decision>, g: Id): seq<Decision> {
    seq(|rows|, i requires 0 <= i < |rows| =>
      if rows[i].input.goalId == g && rows[i].state.Pending? then rows[i].(state := Stale, revision := rows[i].revision + 1) else rows[i])
  }

  ghost predicate AllAcceptable(db: Db, g: Id, w: World) {
    && (exists i :: 0 <= i < |db.delegations| && db.delegations[i].input.goalId == g && !db.delegations[i].state.Cancelled?)
    && (forall i :: 0 <= i < |db.delegations| && db.delegations[i].input.goalId == g && !db.delegations[i].state.Cancelled? ==>
          Acceptable(db.reports, i, db.delegations[i], w))
  }

  ghost function ControlGoal(db: Db, w: World, g: Id, expectedRevision: nat, action: Control): Attempt {
    if g >= |db.goals| || db.goals[g].revision != expectedRevision || !ControlAllowed(action, db.goals[g].state) then Failed
    else
      var goal := db.goals[g];
      match action
      case Approve | Resume =>
        if Authorized(goal, w, Coordination) then Done(SaveGoal(db, g, Moved(goal, GoalState.Running))) else Failed
      case Accept =>
        if AllAcceptable(db, g, w)
        then Done(SaveGoal(db.(delegations := CompleteTeams(db.delegations, g)), g, Moved(goal, GoalState.Completed)))
        else Failed
      case Pause | Cancel =>
        Done(SaveGoal(db, g, Moved(goal, if action.Pause? then Paused else GoalState.Cancelled))
             .(delegations := WithdrawTeams(db.delegations, g, action.Cancel?), decisions := RetireQuestions(db.decisions, g)))
  }

  predicate HasOutstandingWake(wakes: seq<Wake>, g: Id) {
    exists i :: 0 <= i < |wakes| && wakes[i].goalId == g && wakes[i].state.Outstanding()
  }

  /** `#wake`: at most one outstanding review per goal, and none beyond the turn budget. */
  function WakeGoal(db: Db, g: Id): Db
    requires g < |db.goals|
  {
    var goal := db.goals[g];
    if HasOutstandingWake(db.wakes, g) then db
    else if goal.turnsUsed >= goal.grant.maxForemanTurns then SaveGoal(db, g, Moved(goal, GoalState.Blocked))
    else SaveGoal(db, g, goal.(turnsUsed := goal.turnsUsed + 1)).(wakes := db.wakes + [Wake(g, InboxState.Queued)])
  }

  function Unfinished(): Goal -> bool { (goal: Goal) => !goal.state.Terminal() }

  function ActiveFor(g: Id): Delegation -> bool { (row: Delegation) => row.input.goalId == g && row.state.Active() }

  /** `propose`, followed by the policy's own approval when coordination is autonomous. */
  ghost function ProposeGoal(db: Db, w: World, proposal: Proposal): Attempt {
    if w.policy.None? || !w.policy.value.enabled then Failed
    else
      var autonomy := w.policy.value.autonomy;
      if Count(db.goals, Unfinished()) >= autonomy.maxActiveGoals then Failed
      else
        var goal := Goal(proposal, w.policy.value.foremanId, GoalState.Proposed, 0, autonomy, 0, w.now + autonomy.maxGoalHours * 3600000);
        var saved := db.(goals := db.goals + [goal]);
        if Automatic(goal, w) then ControlGoal(saved, w, |db.goals|, 0, Approve) else Done(saved)
  }

  /** A repeated request id returns the retained goal and changes nothing; with other content it is an error. */
  ghost function ProposeOnce(db: Db, w: World, proposal: Proposal): Attempt {
    if exists g :: 0 <= g < |db.goals| && db.goals[g].proposal.requestId == proposal.requestId
    then if exists g :: 0 <= g < |db.goals| && db.goals[g].proposal == proposal then Done(db) else Failed
    else ProposeGoal(db, w, proposal)
  }

  predicate AsksAboutOwnGoal(db: Db, input: QuestionInput) {
    input.delegationId.Some? ==>
      input.delegationId.value < |db.delegations| && db.delegations[input.delegationId.value].input.goalId == input.goalId
  }

  /** `#question` of a request that was not recorded before. */
  function AskHuman(db: Db, w: World, input: QuestionInput, kind: DecisionKind): Attempt {
    if input.goalId >= |db.goals| || !MayRun(db.goals[input.goalId], w, Coordination) || !AsksAboutOwnGoal(db, input) then Failed
    else Done(db.(decisions := db.decisions + [Decision(input, kind, Pending, 0, db.goals[input.goalId].revision, None, false)]))
  }

  predicate SameQuestion(row: Decision, input: QuestionInput) {
    row.input.goalId == input.goalId && row.input.delegationId == input.delegationId && row.input.requestId == input.requestId
  }

  /** `#question`.  A repeated request id returns the retained decision and changes nothing; with other content it is an error. */
  function AskOnce(db: Db, w: World, input: QuestionInput, kind: DecisionKind): Attempt {
    if exists q :: 0 <= q < |db.decisions| && SameQuestion(db.decisions[q], input)
    then if exists q :: 0 <= q < |db.decisions| && db.decisions[q].input == input then Done(db) else Failed
    else AskHuman(db, w, input, kind)
  }

  /** `resolve` accepts an answer only while the goal has the revision the question was asked at. */
  predicate AnswerAllowed(db: Db, w: World, id: Id, expectedRevision: nat, answer: string) {
    && id < |db.decisions|
    && var decision := db.decisions[id];
    && decision.input.goalId < |db.goals|
    && MayRun(db.goals[decision.input.goalId], w, Coordination)
    && decision.state.Pending?
    && decision.revision == expectedRevision
    && decision.goalRevision == db.goals[decision.input.goalId].revision
    && (decision.input.options != [] ==> answer in decision.input.options)
    && (decision.kind.Delegation? ==>
          && decision.input.delegationId.Some?
          && decision.input.delegationId.value < |db.delegations|
          && var row := db.delegations[decision.input.delegationId.value];
          && row.state.Proposed?
          && (answer == "approve" ==>
                AssignmentHolds(row, w) && w.teams[row.input.groupId].blockingActions == {} && w.teams[row.input.groupId].runtimeReady))
  }

  function WithAnswer(decision: Decision, answer: string, byHuman: bool): Decision {
    decision.(state := Resolved, revision := decision.revision + 1, answer := Some(answer), byHuman := byHuman)
  }

  /** The rows after an answer, before the Foreman is woken. */
  function SaveAnswer(db: Db, id: Id, answer: string, byHuman: bool): Db
    requires id < |db.decisions|
  {
    var decision := db.decisions[id];
    var saved := db.(decisions := db.decisions[id := WithAnswer(decision, answer, byHuman)]);
    if decision.kind.Delegation? && decision.input.delegationId.Some? && decision.input.delegationId.value < |db.delegations| then
      var d := decision.input.delegationId.value;
      SaveDelegation(saved, d, Shifted(db.delegations[d], if answer == "approve" then DelegationState.Queued else DelegationState.Cancelled))
    else saved
  }

  /** `resolve`. */
  function ResolveDecision(db: Db, w: World, id: Id, expectedRevision: nat, answer: string, byHuman: bool): Attempt {
    if AnswerAllowed(db, w, id, expectedRevision, answer)
    then Done(WakeGoal(SaveAnswer(db, id, answer, byHuman), db.decisions[id].input.goalId))
    else Failed
  }

  predicate SameRequest(row: Delegation, input: DelegateInput) {
    row.input.goalId == input.goalId && row.input.requestId == input.requestId
  }

  /** The row a request key already names. */
  function FindRequest(rows: seq<Delegation>, input: DelegateInput): (r: Option<Delegation>)
    ensures r.None? <==> forall i :: 0 <= i < |rows| ==> !SameRequest(rows[i], input)
    ensures r.Some? ==> r.value in rows && SameRequest(r.value, input)
  {
    if rows == [] then None
    else if SameRequest(rows[0], input) then Some(rows[0])
    else FindRequest(rows[1..], input)
  }

  /** The human-approved plan a prepared delegation relies on is current. */
  predicate PlanApproved(goals: seq<Goal>, decisions: seq<Decision>, w: World, input: DelegateInput, decision: Id) {
    && input.goalId < |goals|
    && decision < |decisions|
    && var approval := decisions[decision];
    && approval.kind.Preparation?
    && approval.input.goalId == input.goalId
    && approval.state.Resolved?
    && approval.answer == Some("approve")
    && approval.goalRevision == goals[input.goalId].revision
    && approval.byHuman
    && w.planMatches
  }

  /** `delegatePrepared`.  A repeated request id returns the retained row and changes nothing. */
  ghost function DelegateTeam(db: Db, w: World, input: DelegateInput, decision: Option<Id>): Attempt
  {
    var existing := FindRequest(db.delegations, input);
    if existing.Some? then if existing.value.input == input then Done(db) else Failed
    else if !w.foremanCurrent || input.goalId >= |db.goals| || !MayRun(db.goals[input.goalId], w, Coordination) then Failed
    else if decision.Some? && !PlanApproved(db.goals, db.decisions, w, input, decision.value) then Failed
    else
      var goal := db.goals[input.goalId];
      if goal.revision != input.expectedRevision
         || Count(db.delegations, ActiveFor(input.goalId)) >= goal.grant.maxTeamsPerGoal
         || !TeamEligible(db.delegations, input.groupId, w) then Failed
      else
        var row := Delegation.Delegation(input, if decision.Some? then DelegationState.Queued else DelegationState.Proposed,
                                         0, w.teams[input.groupId].checkout.value, None, w.now);
        if !AssignmentHolds(row, w) then Failed
        else
          var saved := db.(delegations := db.delegations + [row]);
          if decision.Some? then Done(saved)
          else
            var asked := AskHuman(saved, w, QuestionInput("", input.goalId, Some(|db.delegations|), ["approve", "deny"], true), DecisionKind.Delegation);
            if asked.Done? && Automatic(goal, w) then ResolveDecision(asked.db, w, |db.decisions|, 0, "approve", false) else asked
  }

  predicate BlockedByQuestion(decisions: seq<Decision>, g: Id, d: Id) {
    exists i :: 0 <= i < |decisions| && decisions[i].input.goalId == g && decisions[i].state.Pending? && decisions[i].input.blocking
                && (decisions[i].input.delegationId.None? || decisions[i].input.delegationId == Some(d))
  }

  predicate RepeatsReport(r: Report, p: Principal, input: ReportInput) {
    r.input.delegationId == input.delegationId && r.memberId == p.memberId && r.input.requestId == input.requestId
  }

  function FindReport(reports: seq<Report>, p: Principal, input: ReportInput): (r: Option<Report>)
    ensures r.None? <==> forall i :: 0 <= i < |reports| ==> !RepeatsReport(reports[i], p, input)
    ensures r.Some? ==> r.value in reports && RepeatsReport(r.value, p, input)
  {
    if reports == [] then None
    else if RepeatsReport(reports[0], p, input) then Some(reports[0])
    else FindReport(reports[1..], p, input)
  }

  function CandidateDigest(row: Delegation, input: ReportInput, w: World): Option<string> {
    if (input.kind.Ready? || input.kind.Review?) && input.path.Some? && (row.checkoutId, input.path.value) in w.digests
    then Some(w.digests[(row.checkoutId, input.path.value)]) else None
  }

  /** Everything `report` checks before it records anything. */
  ghost predicate ReportAllowed(db: Db, w: World, p: Principal, input: ReportInput)
    requires input.delegationId < |db.delegations|
  {
    var d := input.delegationId;
    var row := db.delegations[d];
    var lead := p.memberId == row.input.memberId;
    var digest := CandidateDigest(row, input, w);
    && row.input.goalId < |db.goals|
    && MayRun(db.goals[row.input.goalId], w, Coordination)
    && row.state.Active() && !row.state.Proposed? && !row.state.Queued?
    && (input.kind.Review? ==> input.outcome.Some?)
    && (input.path.None? || input.head.None?)
    && ((input.kind.Ready? || input.kind.Review?) && input.path.Some? ==> digest.Some?)
    && (!lead ==> !input.kind.Accepted? && !input.kind.Plan? && !input.kind.Ready?)
    && (input.kind.Ready? ==>
          && input.evidence != [] && Settled(row, w)
          && !BlockedByQuestion(db.decisions, row.input.goalId, d)
          && ApprovedReview(db.reports, d, row.input.memberId, input.head, input.path, digest))
    && (input.kind.Ready? || input.kind.Review? ==>
          && input.evidence != []
          && (digest.Some? ||
              (input.head.Some? && row.checkoutId in w.checkouts && w.checkouts[row.checkoutId].head == input.head && !w.checkouts[row.checkoutId].dirty)))
    && (input.kind.Review? ==> !lead)
  }

  function ReportedState(kind: ReportKind): DelegationState {
    match kind
    case Ready => DelegationState.Ready
    case Blocked => DelegationState.Blocked
    case Accepted => DelegationState.Accepted
    case _ => Working
  }

  /** Every active delegation of the goal reports ready. */
  predicate TeamsReady(rows: seq<Delegation>, g: Id) {
    forall i :: 0 <= i < |rows| && rows[i].input.goalId == g && rows[i].state.Active() ==> rows[i].state.Ready?
  }

  /** The delegation row after its team has reported. */
  function ReportedRow(row: Delegation, w: World, p: Principal, input: ReportInput): Delegation {
    row.(revision := row.revision + 1, nextCheckAt := w.now + input.nextCheckSeconds * 1000,
         state := if p.memberId == row.input.memberId then ReportedState(input.kind) else row.state)
  }

  function ReportRecord(row: Delegation, w: World, p: Principal, input: ReportInput): Report {
    Report(input, p.memberId, CandidateDigest(row, input, w))
  }

  function SaveReport(db: Db, w: World, p: Principal, input: ReportInput): Db
    requires input.delegationId < |db.delegations|
  {
    var row := db.delegations[input.delegationId];
    SaveDelegation(db.(reports := db.reports + [ReportRecord(row, w, p, input)]), input.delegationId, ReportedRow(row, w, p, input))
  }

  /** `report`. */
  ghost function RecordReport(db: Db, w: World, p: Principal, input: ReportInput): Attempt {
    var existing := FindReport(db.reports, p, input);
    if input.delegationId >= |db.delegations| || !CurrentMember(p, db.delegations[input.delegationId], w) then Failed
    else if existing.Some? then if existing.value.input == input then Done(db) else Failed
    else if !ReportAllowed(db, w, p, input) then Failed
    else
      var g := db.delegations[input.delegationId].input.goalId;
      var saved := SaveReport(db, w, p, input);
      if TeamsReady(saved.delegations, g) then Done(WakeGoal(SaveGoal(saved, g, Moved(db.goals[g], AwaitingAcceptance)), g))
      else if input.kind.Blocked? || input.kind.Review? then Done(WakeGoal(saved, g))
      else Done(saved)
  }

  // ---------------------------------------------------------------- recovery budget

  ghost function AttemptsFor(incidents: seq<Incident>, delegations: seq<Delegation>, g: Id): nat {
    if incidents == [] then 0
    else
      var last := incidents[|incidents| - 1];
      AttemptsFor(incidents[..|incidents| - 1], delegations, g)
      + if last.delegationId < |delegations| && delegations[last.delegationId].input.goalId == g then last.attempts else 0
  }

  /** The row of one member's incident under one delegation. */
  function IncidentIndex(incidents: seq<Incident>, d: Id, m: Id): (i: Option<nat>)
    ensures i.Some? ==> i.value < |incidents| && incidents[i.value].delegationId == d && incidents[i.value].memberId == m
    ensures i.None? ==> forall k :: 0 <= k < |incidents| ==> !(incidents[k].delegationId == d && incidents[k].memberId == m)
  {
    if incidents == [] then None
    else if incidents[|incidents| - 1].delegationId == d && incidents[|incidents| - 1].memberId == m then Some(|incidents| - 1)
    else IncidentIndex(incidents[..|incidents| - 1], d, m)
  }

  predicate Recoverable(state: DelegationState) {
    state.Offered? || state.Accepted? || state.Working? || state.Blocked?
  }

  /** The first approved delegation that holds the team, if any. */
  predicate HoldsTeam(rows: seq<Delegation>, d: Id, groupId: Id) {
    && d < |rows| && rows[d].input.groupId == groupId && rows[d].state.Active() && !rows[d].state.Proposed?
    && forall i :: 0 <= i < d ==> !(rows[i].input.groupId == groupId && rows[i].state.Active() && !rows[i].state.Proposed?)
  }

  function AttemptsOf(incidents: seq<Incident>, d: Id, m: Id): nat {
    var known := IncidentIndex(incidents, d, m);
    if known.Some? then incidents[known.value].attempts else 0
  }

  /** `authorizeRecovery` says yes to delegation `d` and one of its team's members. */
  ghost predicate RecoveryAllowed(db: Db, w: World, d: Id, member: Id) {
    && d < |db.delegations|
    && var row := db.delegations[d];
    && HoldsTeam(db.delegations, d, row.input.groupId)
    && row.input.goalId < |db.goals|
    && var goal := db.goals[row.input.goalId];
    && MayRun(goal, w, Recovery)
    && AssignmentHolds(row, w)
    && goal.grant.bounded && goal.grant.restartAgents
    && (row.input.groupId, member) in w.recoverable
    && Recoverable(row.state)
    && AttemptsOf(db.incidents, d, member) < goal.grant.maxAttemptsPerIncident
    && AttemptsFor(db.incidents, db.delegations, row.input.goalId) < goal.grant.maxAttemptsPerGoal
    && var known := IncidentIndex(db.incidents, d, member);
    && (known.Some? ==> db.incidents[known.value].nextAllowedAt <= w.now)
  }

  function RecordIncident(incidents: seq<Incident>, d: Id, m: Id, nextAllowedAt: nat): seq<Incident> {
    var known := IncidentIndex(incidents, d, m);
    var row := Incident(d, m, AttemptsOf(incidents, d, m) + 1, nextAllowedAt);
    if known.Some? then incidents[known.value := row] else incidents + [row]
  }

  ghost function AuthorizeRecovery(db: Db, w: World, d: Id, member: Id): Attempt {
    if RecoveryAllowed(db, w, d, member) then
      Done(db.(restarts := db.restarts + [Restart(d, member, w.now)],
               incidents := RecordIncident(db.incidents, d, member,
                                           w.now + db.goals[db.delegations[d].input.goalId].grant.cooldownSeconds * 1000)))
    else Failed
  }
}
