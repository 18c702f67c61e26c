/**
 The goal service itself: fields that its methods reassign, the loops it runs over rows, and the
 rollback of a transaction that fails half way.  Each method is proved to do what `GoalModel` and
 `GoalMachine` say, so everything proved about runs of the machine is about runs of this class.
 */
module GoalService {
  import opened Wrappers
  import opened GoalModel
  import opened GoalMachine
  import opened GoalTheorems

  class ForemanGoalService {
    var goals: seq<Goal>
    var delegations: seq<Delegation>
    var reports: seq<Report>
    var decisions: seq<Decision>
    var wakes: seq<Wake>
    var incidents: seq<Incident>
    ghost var restarts: seq<Restart>
    var seenGoals: map<Id, Goal>
    var seenTeams: map<Id, Delegation>

    /** The stored tables. */
    ghost function Stored(): Db
      reads this
    {
      Db(goals, delegations, reports, decisions, wakes, incidents, restarts)
    }

    /** The tables and the local variables of the running pass. */
    ghost function State(clock: nat): Machine
      reads this
    {
      Machine(Stored(), clock, seenGoals, seenTeams)
    }

    constructor ()
      ensures State(0) == Initial
    {
      goals, delegations, reports, decisions, wakes, incidents, restarts := [], [], [], [], [], [], [];
      seenGoals, seenTeams := map[], map[];
    }

    // -------------------------------------------------------------- evidence

    method LastReady(d: Id) returns (ready: Option<Report>)
      ensures ready == LatestReady(reports, d)
    {
      ready := None;
      for i := 0 to |reports|
        invariant ready == LatestReady(reports[..i], d)
      {
        if IsReadyFor(reports[i], d) { ready := Some(reports[i]); }
        assert reports[..i + 1][..i] == reports[..i];
      }
      assert reports[..|reports|] == reports;
    }

    method ReviewApproved(d: Id, owner: Id, head: Option<string>, path: Option<string>, digest: Option<string>) returns (approved: bool)
      ensures approved <==> ApprovedReview(reports, d, owner, head, path, digest)
    {
      var review := None;
      for i := 0 to |reports|
        invariant review == LatestReview(reports[..i], d, owner, head, path, digest)
      {
        if IsReviewFor(reports[i], d, owner, head, path, digest) { review := Some(reports[i]); }
        assert reports[..i + 1][..i] == reports[..i];
      }
      assert reports[..|reports|] == reports;
      approved := review.Some? && review.value.input.outcome == Some(Approved) && review.value.input.evidence != [];
    }

    method MayAccept(d: Id, w: World) returns (ok: bool)
      requires d < |delegations|
      ensures ok <==> Acceptable(reports, d, delegations[d], w)
    {
      var row := delegations[d];
      if !row.state.Ready? || !AssignmentHolds(row, w) || !Settled(row, w) { return false; }
      var ready := LastReady(d);
      if ready.None? || !CandidateUnchanged(row, ready.value, w) { return false; }
      var approved := ReviewApproved(d, row.input.memberId, ready.value.input.head, ready.value.input.path, ready.value.digest);
      ok := approved && w.teams[row.input.groupId].membersSettled;
    }

    // -------------------------------------------------------------- #wake

    method Wake(g: Id)
      requires g < |goals|
      modifies this`goals, this`wakes
      ensures Stored() == WakeGoal(old(Stored()), g)
    {
      var outstanding := false;
      for i := 0 to |wakes|
        invariant outstanding <==> HasOutstandingWake(wakes[..i], g)
      {
        if wakes[i].goalId == g && wakes[i].state.Outstanding() { outstanding := true; }
        assert forall k :: 0 <= k < i ==> wakes[..i + 1][k] == wakes[..i][k];
        assert wakes[..i + 1][i] == wakes[i];
      }
      assert wakes[..|wakes|] == wakes;
      if outstanding { return; }
      var goal := goals[g];
      if goal.turnsUsed >= goal.grant.maxForemanTurns {
        goals := goals[g := Moved(goal, GoalState.Blocked)];
        return;
      }
      wakes := wakes + [GoalModel.Wake(g, InboxState.Queued)];
      goals := goals[g := goal.(turnsUsed := goal.turnsUsed + 1)];
    }

    // -------------------------------------------------------------- control

    /** Completes the goal's delegations one by one; the first that may not be accepted rolls all of them back. */
    method CompleteDelegations(g: Id, w: World) returns (ok: bool)
      modifies this`delegations
      ensures ok <==> AllAcceptable(old(Stored()), g, w)
      ensures delegations == if ok then CompleteTeams(old(delegations), g) else old(delegations)
    {
      var saved := delegations;
      var found := false;
      for i := 0 to |saved|
        invariant |delegations| == |saved|
        invariant forall k :: 0 <= k < i ==> delegations[k] == CompleteTeams(saved, g)[k]
        invariant forall k :: i <= k < |saved| ==> delegations[k] == saved[k]
        invariant forall k :: 0 <= k < i && saved[k].input.goalId == g && !saved[k].state.Cancelled? ==> Acceptable(reports, k, saved[k], w)
        invariant found <==> exists k :: 0 <= k < i && saved[k].input.goalId == g && !saved[k].state.Cancelled?
      {
        if saved[i].input.goalId == g && !saved[i].state.Cancelled? {
          var acceptable := MayAccept(i, w);
          if !acceptable {
            delegations := saved;
            return false;
          }
          found := true;
          delegations := delegations[i := Shifted(saved[i], DelegationState.Completed)];
        }
      }
      if !found { delegations := saved; }
      ok := found;
    }

    method Withdraw(g: Id, all: bool)
      modifies this`delegations
      ensures delegations == WithdrawTeams(old(delegations), g, all)
    {
      var saved := delegations;
      for i := 0 to |saved|
        invariant |delegations| == |saved|
        invariant forall k :: 0 <= k < i ==> delegations[k] == WithdrawTeams(saved, g, all)[k]
        invariant forall k :: i <= k < |saved| ==> delegations[k] == saved[k]
      {
        if saved[i].input.goalId == g && (saved[i].state.Proposed? || all) {
          delegations := delegations[i := Shifted(saved[i], DelegationState.Cancelled)];
        }
      }
    }

    method Retire(g: Id)
      modifies this`decisions
      ensures decisions == RetireQuestions(old(decisions), g)
    {
      var saved := decisions;
      for i := 0 to |saved|
        invariant |decisions| == |saved|
        invariant forall k :: 0 <= k < i ==> decisions[k] == RetireQuestions(saved, g)[k]
        invariant forall k :: i <= k < |saved| ==> decisions[k] == saved[k]
      {
        if saved[i].input.goalId == g && saved[i].state.Pending? {
          decisions := decisions[i := saved[i].(state := Stale, revision := saved[i].revision + 1)];
        }
      }
    }

    method ControlGoal(w: World, g: Id, expectedRevision: nat, action: Control) returns (ok: bool)
      modifies this`goals, this`delegations, this`decisions
      ensures ok == GoalModel.ControlGoal(old(Stored()), w, g, expectedRevision, action).Done?
      ensures Stored() == GoalModel.ControlGoal(old(Stored()), w, g, expectedRevision, action).Or(old(Stored()))
    {
      if g >= |goals| || goals[g].revision != expectedRevision || !ControlAllowed(action, goals[g].state) { return false; }
      var goal := goals[g];
      match action {
        case Approve | Resume =>
          if !Authorized(goal, w, Coordination) { return false; }
          goal := goal.(state := GoalState.Running);
        case Accept =>
          var accepted := CompleteDelegations(g, w);
          if !accepted { return false; }
          goal := goal.(state := GoalState.Completed);
        case Pause =>
          goal := goal.(state := Paused);
        case Cancel =>
          goal := goal.(state := GoalState.Cancelled);
      }
      goal := goal.(revision := goal.revision + 1);
      goals := goals[g := goal];
      if action.Pause? || action.Cancel? {
        Retire(g);
        Withdraw(g, action.Cancel?);
      }
      ok := true;
    }

    // -------------------------------------------------------------- resolve

    method Resolve(w: World, id: Id, expectedRevision: nat, answer: string, byHuman: bool) returns (ok: bool)
      modifies this`goals, this`delegations, this`decisions, this`wakes
      ensures ok == ResolveDecision(old(Stored()), w, id, expectedRevision, answer, byHuman).Done?
      ensures Stored() == ResolveDecision(old(Stored()), w, id, expectedRevision, answer, byHuman).Or(old(Stored()))
    {
      ghost var before := Stored();
      if id >= |decisions| { return false; }
      var decision := decisions[id];
      var g := decision.input.goalId;
      if g >= |goals| || !MayRun(goals[g], w, Coordination) { return false; }
      if !decision.state.Pending? || decision.revision != expectedRevision || decision.goalRevision != goals[g].revision { return false; }
      if decision.input.options != [] && answer !in decision.input.options { return false; }
      if decision.kind.Delegation? {
        var d := decision.input.delegationId;
        if d.None? || d.value >= |delegations| { return false; }
        var row := delegations[d.value];
        if answer == "approve" {
          if !AssignmentHolds(row, w) { return false; }
          var team := w.teams[row.input.groupId];
          if team.blockingActions != {} || !team.runtimeReady { return false; }
        }
        if !row.state.Proposed? { return false; }
        delegations := delegations[d.value := Shifted(row, if answer == "approve" then DelegationState.Queued else DelegationState.Cancelled)];
      }
      decisions := decisions[id := WithAnswer(decision, answer, byHuman)];
      assert Stored() == SaveAnswer(before, id, answer, byHuman);
      Wake(g);
      ok := true;
    }

    // -------------------------------------------------------------- delegate

    method FindExisting(input: DelegateInput) returns (r: Option<Delegation>)
      ensures r == FindRequest(delegations, input)
    {
      var i := 0;
      while i < |delegations|
        invariant i <= |delegations|
        invariant FindRequest(delegations, input) == FindRequest(delegations[i..], input)
      {
        if SameRequest(delegations[i], input) { return Some(delegations[i]); }
        assert delegations[i..][1..] == delegations[i + 1..];
        i := i + 1;
      }
      r := None;
    }

    method CountActive(g: Id) returns (n: nat)
      ensures n == Count(delegations, ActiveFor(g))
    {
      n := 0;
      for i := 0 to |delegations|
        invariant n == Count(delegations[..i], ActiveFor(g))
      {
        assert delegations[..i + 1][..i] == delegations[..i];
        if delegations[i].input.goalId == g && delegations[i].state.Active() { n := n + 1; }
      }
      assert delegations[..|delegations|] == delegations;
    }

    method Ask(w: World, input: QuestionInput, kind: DecisionKind) returns (ok: bool)
      modifies this`decisions
      ensures ok == AskHuman(old(Stored()), w, input, kind).Done?
      ensures Stored() == AskHuman(old(Stored()), w, input, kind).Or(old(Stored()))
    {
      if input.goalId >= |goals| || !MayRun(goals[input.goalId], w, Coordination) { return false; }
      if input.delegationId.Some? && (input.delegationId.value >= |delegations| || delegations[input.delegationId.value].input.goalId != input.goalId) { return false; }
      decisions := decisions + [Decision(input, kind, Pending, 0, goals[input.goalId].revision, None, false)];
      ok := true;
    }

    /** `#question`: a repeated request finds its decision. */
    method Question(w: World, input: QuestionInput, kind: DecisionKind) returns (ok: bool)
      modifies this`decisions
      ensures ok == AskOnce(old(Stored()), w, input, kind).Done?
      ensures Stored() == AskOnce(old(Stored()), w, input, kind).Or(old(Stored()))
    {
      var known, same := false, false;
      for q := 0 to |decisions|
        invariant known <==> exists k :: 0 <= k < q && SameQuestion(decisions[k], input)
        invariant same <==> exists k :: 0 <= k < q && decisions[k].input == input
      {
        if SameQuestion(decisions[q], input) { known := true; }
        if decisions[q].input == input { same := true; }
      }
      if known { return same; }
      ok := Ask(w, input, kind);
    }

    method CountUnfinished() returns (n: nat)
      ensures n == Count(goals, Unfinished())
    {
      n := 0;
      for i := 0 to |goals|
        invariant n == Count(goals[..i], Unfinished())
      {
        assert goals[..i + 1][..i] == goals[..i];
        if !goals[i].state.Terminal() { n := n + 1; }
      }
      assert goals[..|goals|] == goals;
    }

    /** `propose`: a repeated request finds its goal; coordination that is autonomous approves a new one at once. */
    method Propose(w: World, proposal: Proposal) returns (ok: bool)
      modifies this`goals, this`delegations, this`decisions
      ensures ok == ProposeOnce(old(Stored()), w, proposal).Done?
      ensures Stored() == ProposeOnce(old(Stored()), w, proposal).Or(old(Stored()))
    {
      var known, same := false, false;
      for g := 0 to |goals|
        invariant known <==> exists k :: 0 <= k < g && goals[k].proposal.requestId == proposal.requestId
        invariant same <==> exists k :: 0 <= k < g && goals[k].proposal == proposal
      {
        if goals[g].proposal.requestId == proposal.requestId { known := true; }
        if goals[g].proposal == proposal { same := true; }
      }
      if known { return same; }
      if w.policy.None? || !w.policy.value.enabled { return false; }
      var autonomy := w.policy.value.autonomy;
      var unfinished := CountUnfinished();
      if unfinished >= autonomy.maxActiveGoals { return false; }
      var saved := goals;
      var goal := Goal(proposal, w.policy.value.foremanId, GoalState.Proposed, 0, autonomy, 0, w.now + autonomy.maxGoalHours * 3600000);
      goals := goals + [goal];
      ok := true;
      if Automatic(goal, w) {
        ok := ControlGoal(w, |saved|, 0, Approve);
        if !ok { goals := saved; }
      }
    }

    method Delegate(w: World, input: DelegateInput, plan: Option<Id>) returns (ok: bool)
      modifies this`goals, this`delegations, this`decisions, this`wakes
      ensures ok == DelegateTeam(old(Stored()), w, input, plan).Done?
      ensures Stored() == DelegateTeam(old(Stored()), w, input, plan).Or(old(Stored()))
    {
      var savedRows, savedDecisions := delegations, decisions;
      var existing := FindExisting(input);
      if existing.Some? { return existing.value.input == input; }
      if !w.foremanCurrent || input.goalId >= |goals| || !MayRun(goals[input.goalId], w, Coordination) { return false; }
      if plan.Some? && !PlanApproved(goals, decisions, w, input, plan.value) { return false; }
      var goal := goals[input.goalId];
      if goal.revision != input.expectedRevision { return false; }
      var active := CountActive(input.goalId);
      if active >= goal.grant.maxTeamsPerGoal || !TeamEligible(delegations, input.groupId, w) { return false; }
      var row := Delegation.Delegation(input, if plan.Some? then DelegationState.Queued else DelegationState.Proposed,
                                       0, w.teams[input.groupId].checkout.value, None, w.now);
      if !AssignmentHolds(row, w) { return false; }
      delegations := delegations + [row];
      if plan.Some? { return true; }
      var asked := Ask(w, QuestionInput("", input.goalId, Some(|savedRows|), ["approve", "deny"], true), DecisionKind.Delegation);
      if asked && Automatic(goal, w) {
        asked := Resolve(w, |savedDecisions|, 0, "approve", false);
      }
      ok := asked;
    }

    // -------------------------------------------------------------- report

    method FindRepeat(p: Principal, input: ReportInput) returns (r: Option<Report>)
      ensures r == FindReport(reports, p, input)
    {
      var i := 0;
      while i < |reports|
        invariant i <= |reports|
        invariant FindReport(reports, p, input) == FindReport(reports[i..], p, input)
      {
        if RepeatsReport(reports[i], p, input) { return Some(reports[i]); }
        assert reports[i..][1..] == reports[i + 1..];
        i := i + 1;
      }
      r := None;
    }

    method HumanAnswerPending(g: Id, d: Id) returns (pending: bool)
      ensures pending <==> BlockedByQuestion(decisions, g, d)
    {
      pending := false;
      for i := 0 to |decisions|
        invariant pending <==> exists k :: 0 <= k < i && decisions[k].input.goalId == g && decisions[k].state.Pending? && decisions[k].input.blocking
                                        && (decisions[k].input.delegationId.None? || decisions[k].input.delegationId == Some(d))
      {
        var input := decisions[i].input;
        if input.goalId == g && decisions[i].state.Pending? && input.blocking && (input.delegationId.None? || input.delegationId == Some(d)) {
          pending := true;
        }
      }
    }

    method AllReady(g: Id) returns (ready: bool)
      ensures ready <==> TeamsReady(delegations, g)
    {
      ready := true;
      for i := 0 to |delegations|
        invariant ready <==> forall k :: 0 <= k < i && delegations[k].input.goalId == g && delegations[k].state.Active() ==> delegations[k].state.Ready?
      {
        if delegations[i].input.goalId == g && delegations[i].state.Active() && !delegations[i].state.Ready? { ready := false; }
      }
    }

    /** Everything `report` refuses, in its own order. */
    method MayReport(w: World, p: Principal, input: ReportInput) returns (ok: bool)
      requires input.delegationId < |delegations|
      ensures ok <==> ReportAllowed(Stored(), w, p, input)
    {
      var d := input.delegationId;
      var row := delegations[d];
      var g := row.input.goalId;
      if g >= |goals| || !MayRun(goals[g], w, Coordination) { return false; }
      if !row.state.Active() || row.state.Unsent() { return false; }
      if input.kind.Review? && input.outcome.None? { return false; }
      var lead := p.memberId == row.input.memberId;
      if input.path.Some? && input.head.Some? { return false; }
      var digest := CandidateDigest(row, input, w);
      if (input.kind.Ready? || input.kind.Review?) && input.path.Some? && digest.None? { return false; }
      if !lead && (input.kind.Accepted? || input.kind.Plan? || input.kind.Ready?) { return false; }
      if input.kind.Ready? {
        if input.evidence == [] || !Settled(row, w) { return false; }
        var pending := HumanAnswerPending(g, d);
        if pending { return false; }
        var approved := ReviewApproved(d, row.input.memberId, input.head, input.path, digest);
        if !approved { return false; }
      }
      if input.kind.Ready? || input.kind.Review? {
        if digest.None? && (input.head.None? || row.checkoutId !in w.checkouts
                            || w.checkouts[row.checkoutId].head != input.head || w.checkouts[row.checkoutId].dirty) { return false; }
        if input.evidence == [] { return false; }
        if input.kind.Review? && lead { return false; }
      }
      ok := true;
    }

    method Report(w: World, p: Principal, input: ReportInput) returns (ok: bool)
      modifies this`goals, this`delegations, this`reports, this`wakes
      ensures ok == RecordReport(old(Stored()), w, p, input).Done?
      ensures Stored() == RecordReport(old(Stored()), w, p, input).Or(old(Stored()))
    {
      ghost var before := Stored();
      if input.delegationId >= |delegations| || !CurrentMember(p, delegations[input.delegationId], w) { return false; }
      var existing := FindRepeat(p, input);
      if existing.Some? { return existing.value.input == input; }
      var allowed := MayReport(w, p, input);
      if !allowed { return false; }
      var row := delegations[input.delegationId];
      var g := row.input.goalId;
      reports := reports + [ReportRecord(row, w, p, input)];
      delegations := delegations[input.delegationId := ReportedRow(row, w, p, input)];
      assert Stored() == SaveReport(before, w, p, input);
      var ready := AllReady(g);
      if ready {
        goals := goals[g := Moved(goals[g], AwaitingAcceptance)];
        Wake(g);
      } else if input.kind.Blocked? || input.kind.Review? {
        Wake(g);
      }
      ok := true;
    }

    // -------------------------------------------------------------- recovery

    method TotalAttempts(g: Id) returns (total: nat)
      ensures total == AttemptsFor(incidents, delegations, g)
    {
      total := 0;
      for i := 0 to |incidents|
        invariant total == AttemptsFor(incidents[..i], delegations, g)
      {
        assert incidents[..i + 1][..i] == incidents[..i];
        if incidents[i].delegationId < |delegations| && delegations[incidents[i].delegationId].input.goalId == g {
          total := total + incidents[i].attempts;
        }
      }
      assert incidents[..|incidents|] == incidents;
    }

    /** The first approved delegation that holds a team. */
    method FindHolder(groupId: Id) returns (d: Id)
      ensures d <= |delegations| && (d < |delegations| ==> HoldsTeam(delegations, d, groupId))
      ensures d == |delegations| ==> forall k :: !HoldsTeam(delegations, k, groupId)
    {
      d := 0;
      while d < |delegations| && !(delegations[d].input.groupId == groupId && delegations[d].state.Active() && !delegations[d].state.Proposed?)
        invariant d <= |delegations|
        invariant forall i :: 0 <= i < d ==> !(delegations[i].input.groupId == groupId && delegations[i].state.Active() && !delegations[i].state.Proposed?)
      {
        d := d + 1;
      }
    }

    /** `authorizeRecovery` for a member of a team: nothing is recorded when no delegation holds the team. */
    method Recover(w: World, groupId: Id, member: Id) returns (ok: bool)
      modifies this`incidents, this`restarts
      ensures (forall d :: !HoldsTeam(old(delegations), d, groupId)) ==> !ok && Stored() == old(Stored())
      ensures forall d :: HoldsTeam(old(delegations), d, groupId) ==>
                && ok == AuthorizeRecovery(old(Stored()), w, d, member).Done?
                && Stored() == AuthorizeRecovery(old(Stored()), w, d, member).Or(old(Stored()))
    {
      var d := FindHolder(groupId);
      if d == |delegations| { return false; }
      assert forall k :: HoldsTeam(delegations, k, groupId) ==> k == d;
      var row := delegations[d];
      var g := row.input.goalId;
      if g >= |goals| || !MayRun(goals[g], w, Recovery) || !AssignmentHolds(row, w) { return false; }
      var grant := goals[g].grant;
      if !grant.bounded || !grant.restartAgents || (row.input.groupId, member) !in w.recoverable || !Recoverable(row.state) { return false; }
      var total := TotalAttempts(g);
      var known := IncidentIndex(incidents, d, member);
      var attempts := if known.Some? then incidents[known.value].attempts else 0;
      if attempts >= grant.maxAttemptsPerIncident || total >= grant.maxAttemptsPerGoal { return false; }
      if known.Some? && incidents[known.value].nextAllowedAt > w.now { return false; }
      var incident := Incident(d, member, attempts + 1, w.now + grant.cooldownSeconds * 1000);
      restarts := restarts + [Restart(d, member, w.now)];
      incidents := if known.Some? then incidents[known.value := incident] else incidents + [incident];
      ok := true;
    }

    // -------------------------------------------------------------- #reconcile, as written

    /** `this.list()` at the start of a pass. */
    method ListRunning()
      modifies this`seenGoals, this`seenTeams
      ensures seenGoals == Listed(Stored()) && seenTeams == map[]
    {
      seenGoals, seenTeams := map[], map[];
      for g := 0 to |goals|
        invariant seenTeams == map[]
        invariant seenGoals == map k | 0 <= k < g && goals[k].state.Running? :: goals[k]
      {
        if goals[g].state.Running? { seenGoals := seenGoals[g := goals[g]]; }
      }
    }

    /** The pass reaches one listed goal, with the row it read when the pass began. */
    method VisitGoal(w: World, g: Id)
      modifies this`goals, this`wakes, this`seenGoals, this`seenTeams
      ensures forall clock: nat :: State(clock) == Visit(old(State(clock)), w, g, AsWritten)
    {
      if g !in seenGoals || g >= |goals| { return; }
      var current := seenGoals[g];
      seenGoals := seenGoals - {g};
      if !MayRun(current, w, Coordination) {
        goals := goals[g := current.(state := GoalState.Blocked, revision := current.revision + 1)];
        return;
      }
      var delegates := map[];
      for d := 0 to |delegations|
        invariant delegates == map k | 0 <= k < d && delegations[k].input.goalId == g && delegations[k].state.Active() :: delegations[k]
      {
        if delegations[d].input.goalId == g && delegations[d].state.Active() { delegates := delegates[d := delegations[d]]; }
      }
      assert delegates == ActiveTeams(Stored(), g);
      assert delegates == map[] <==> !HasActiveTeam(delegations, g) by {
        if HasActiveTeam(delegations, g) {
          var i :| 0 <= i < |delegations| && delegations[i].input.goalId == g && delegations[i].state.Active();
          assert i in delegates;
        }
        if delegates != map[] { var k :| k in delegates; }
      }
      seenTeams := delegates;
      if delegates == map[] && !HasWake(wakes, g) { Wake(g); }
    }

    /** After the await: the handoff re-reads goal and delegation, then writes the row the pass read. */
    method OfferTeam(w: World, d: Id, actionId: Id)
      modifies this`delegations, this`seenTeams
      ensures forall clock: nat :: State(clock) == Offer(old(State(clock)), w, d, actionId)
    {
      if d !in seenTeams || !seenTeams[d].state.Queued? || !HandoffAllowed(goals, delegations, w, d) { return; }
      var read := seenTeams[d];
      seenTeams := seenTeams - {d};
      delegations := delegations[d := read.(state := Offered, revision := read.revision + 1, actionId := Some(actionId), nextCheckAt := w.now + 900000)];
    }

    method CheckTeam(w: World, d: Id, interval: nat)
      modifies this`goals, this`wakes, this`delegations, this`seenTeams
      ensures forall clock: nat :: State(clock) == Check(old(State(clock)), w, d, interval, AsWritten)
    {
      if d !in seenTeams || d >= |delegations| || delegations[d].input.goalId >= |goals| { return; }
      var read := seenTeams[d];
      if read.state.Unsent() || !AssignmentHolds(read, w) || read.nextCheckAt > w.now { return; }
      seenTeams := seenTeams - {d};
      Wake(delegations[d].input.goalId);
      delegations := delegations[d := delegations[d].(nextCheckAt := w.now + interval)];
    }

    /** Other services settle or submit an inbox row. */
    method MoveWake(i: nat, to: InboxState)
      modifies this`wakes
      ensures forall w: World :: Stored() == Transaction(old(Stored()), w, Event.MoveWake(i, to)).Or(old(Stored()))
    {
      if i < |wakes| && wakes[i].state.Outstanding() && !to.Queued? { wakes := wakes[i := wakes[i].(state := to)]; }
    }

    // -------------------------------------------------------------- whole runs

    /** A recovery of a member of the team that delegation `d` holds. */
    method RecoverFor(w: World, d: Id, member: Id)
      modifies this`incidents, this`restarts
      ensures Stored() == AuthorizeRecovery(old(Stored()), w, d, member).Or(old(Stored()))
    {
      if d >= |delegations| { return; }
      var holder := FindHolder(delegations[d].input.groupId);
      if holder != d { return; }
      var ok := Recover(w, delegations[d].input.groupId, member);
    }

    /** One operation, or one step of the running pass. */
    method Perform(w: World, event: Event)
      modifies this
      ensures forall clock: nat :: State(clock) == Apply(old(State(clock)), w, event, AsWritten)
    {
      var ok;
      match event {
        case Propose(proposal) => ok := Propose(w, proposal);
        case ControlBy(g, revision, action) => ok := ControlGoal(w, g, revision, action);
        case Delegate(input, plan) => ok := Delegate(w, input, plan);
        case Ask(question, kind) => if !kind.Delegation? { ok := Question(w, question, kind); }
        case Resolve(id, revision, answer, byHuman) => ok := Resolve(w, id, revision, answer, byHuman);
        case ReportBy(p, input) => ok := Report(w, p, input);
        case MoveWake(i, to) => MoveWake(i, to);
        case Recover(d, member) => RecoverFor(w, d, member);
        case ListGoals => ListRunning();
        case VisitGoal(g) => VisitGoal(w, g);
        case OfferTeam(d, actionId) => OfferTeam(w, d, actionId);
        case CheckTeam(d, interval) => CheckTeam(w, d, interval);
      }
    }

    /** Any run of the service from its empty tables is the run of the machine, so what is proved of every run of that holds here. */
    method Serve(steps: seq<Step>) returns (clock: nat)
      requires State(0) == Initial
      modifies this
      ensures State(clock) == Run(steps, AsWritten)
      ensures forall g :: 0 <= g < |goals| && goals[g].state.Completed? ==>
                HasCompletedTeam(delegations, g) && !HasActiveTeam(delegations, g)
      ensures forall d :: 0 <= d < |delegations| && delegations[d].state.Completed? ==> Certified(reports, d, delegations[d].input.memberId)
      ensures forall i, j :: 0 <= i < j < |delegations| && delegations[i].state.Active() && delegations[j].state.Active() ==>
                delegations[i].input.groupId != delegations[j].input.groupId && delegations[i].checkoutId != delegations[j].checkoutId
    {
      clock := 0;
      for k := 0 to |steps|
        invariant State(clock) == Run(steps[..k], AsWritten)
      {
        assert steps[..k + 1][..k] == steps[..k];
        ghost var before := State(clock);
        var now := if clock <= steps[k].w.now then steps[k].w.now else clock;
        assert At(before, steps[k].w) == steps[k].w.(now := now);
        Perform(steps[k].w.(now := now), steps[k].event);
        clock := now;
      }
      assert steps[..|steps|] == steps;
      ReachableSound(steps, AsWritten);
      Open(Stored());
      forall g: nat | g < |goals| && goals[g].state.Completed? ensures HasCompletedTeam(delegations, g) && !HasActiveTeam(delegations, g) {
        CompletedGoalIsCertified(steps, AsWritten, g);
      }
    }
  }
}
