/**
 Completed and cancelled goals are final when the pass re-reads a goal before it writes one, and
 exactly which steps of the service as written break that, and the turn count, without the re-read.
 */
module GoalFinality {
  import opened Wrappers
  import opened GoalModel
  import opened GoalMachine
  import opened GoalTheorems

  /** The reports that justify completing a delegation. */
  ghost function Certificate(reports: seq<Report>, d: Id, owner: Id): (Option<Report>, Option<Report>) {
    var ready := LatestReady(reports, d);
    (ready, if ready.None? then None
            else LatestReview(reports, d, owner, ready.value.input.head, ready.value.input.path, ready.value.digest))
  }

  /** The goal, its delegations and what certifies them are the same in both tables. */
  ghost predicate Undisturbed(a: Db, b: Db, g: Id) {
    && g < |a.goals| <= |b.goals| && |a.delegations| <= |b.delegations|
    && b.goals[g] == a.goals[g]
    && (forall d :: 0 <= d < |a.delegations| && a.delegations[d].input.goalId == g ==>
          && b.delegations[d] == a.delegations[d].(nextCheckAt := b.delegations[d].nextCheckAt)
          && Certificate(b.reports, d, a.delegations[d].input.memberId) == Certificate(a.reports, d, a.delegations[d].input.memberId))
    && (forall d :: 0 <= d < |a.delegations| && b.delegations[d].input.goalId == g ==> a.delegations[d].input.goalId == g)
    && (forall d :: |a.delegations| <= d < |b.delegations| ==> b.delegations[d].input.goalId != g)
  }

  lemma {:induction false} UndisturbedTransitive(a: Db, b: Db, c: Db, g: Id)
    requires Undisturbed(a, b, g) && Undisturbed(b, c, g)
    ensures Undisturbed(a, c, g)
  {
  }

  lemma {:induction false} CertificateStays(reports: seq<Report>, r: Report, d: Id, owner: Id)
    requires r.input.delegationId != d
    ensures Certificate(reports + [r], d, owner) == Certificate(reports, d, owner)
  {
    assert (reports + [r])[..|reports|] == reports;
  }

  lemma {:induction false} WakeElsewhere(db: Db, k: Id, g: Id)
    requires k < |db.goals| && g < |db.goals| && k != g
    ensures Undisturbed(db, WakeGoal(db, k), g)
  {
  }

  lemma {:induction false} SaveReportElsewhere(db: Db, w: World, p: Principal, input: ReportInput, g: Id)
    requires input.delegationId < |db.delegations| && db.delegations[input.delegationId].input.goalId != g && g < |db.goals|
    ensures Undisturbed(db, SaveReport(db, w, p, input), g)
  {
    var r := ReportRecord(db.delegations[input.delegationId], w, p, input);
    forall d | 0 <= d < |db.delegations| && db.delegations[d].input.goalId == g
      ensures Certificate(db.reports + [r], d, db.delegations[d].input.memberId) == Certificate(db.reports, d, db.delegations[d].input.memberId)
    {
      CertificateStays(db.reports, r, d, db.delegations[d].input.memberId);
    }
  }

  lemma {:induction false} ReportElsewhere(db: Db, w: World, p: Principal, input: ReportInput, g: Id)
    requires g < |db.goals| && db.goals[g].state.Terminal() && RecordReport(db, w, p, input).Done?
    ensures Undisturbed(db, RecordReport(db, w, p, input).db, g)
  {
    var next := RecordReport(db, w, p, input).db;
    if FindReport(db.reports, p, input).None? {
      var k := db.delegations[input.delegationId].input.goalId;
      var saved := SaveReport(db, w, p, input);
      SaveReportElsewhere(db, w, p, input, g);
      if TeamsReady(saved.delegations, k) {
        saved := SaveGoal(saved, k, Moved(db.goals[k], AwaitingAcceptance));
      }
      assert Undisturbed(db, saved, g);
      WakeElsewhere(saved, k, g);
      if next != saved { UndisturbedTransitive(db, saved, next, g); }
    }
  }

  lemma {:induction false} ResolveElsewhere(db: Db, w: World, id: Id, revision: nat, answer: string, byHuman: bool, g: Id)
    requires Tables(db) && g < |db.goals| && db.goals[g].state.Terminal() && ResolveDecision(db, w, id, revision, answer, byHuman).Done?
    ensures Undisturbed(db, ResolveDecision(db, w, id, revision, answer, byHuman).db, g)
  {
    var saved := SaveAnswer(db, id, answer, byHuman);
    assert Undisturbed(db, saved, g);
    WakeElsewhere(saved, db.decisions[id].input.goalId, g);
    UndisturbedTransitive(db, saved, WakeGoal(saved, db.decisions[id].input.goalId), g);
  }

  lemma {:induction false} DelegateElsewhere(db: Db, w: World, input: DelegateInput, plan: Option<Id>, g: Id)
    requires Tables(db) && g < |db.goals| && db.goals[g].state.Terminal() && DelegateTeam(db, w, input, plan).Done?
    ensures Undisturbed(db, DelegateTeam(db, w, input, plan).db, g)
  {
    var next := DelegateTeam(db, w, input, plan).db;
    if FindRequest(db.delegations, input).None? && plan.None? {
      var row := Delegation.Delegation(input, DelegationState.Proposed, 0, w.teams[input.groupId].checkout.value, None, w.now);
      var question := QuestionInput("", input.goalId, Some(|db.delegations|), ["approve", "deny"], true);
      var asked := AskHuman(db.(delegations := db.delegations + [row]), w, question, DecisionKind.Delegation).db;
      assert Undisturbed(db, asked, g);
      if Automatic(db.goals[input.goalId], w) {
        ResolveElsewhere(asked, w, |db.decisions|, 0, "approve", false, g);
        UndisturbedTransitive(db, asked, next, g);
      }
    }
  }

  lemma {:induction false} ControlElsewhere(db: Db, w: World, k: Id, revision: nat, action: Control, g: Id)
    requires g < |db.goals| && db.goals[g].state.Terminal() && ControlGoal(db, w, k, revision, action).Done?
    ensures Undisturbed(db, ControlGoal(db, w, k, revision, action).db, g)
  {
  }

  lemma {:induction false} ProposeElsewhere(db: Db, w: World, proposal: Proposal, g: Id)
    requires Tables(db) && g < |db.goals| && db.goals[g].state.Terminal() && ProposeOnce(db, w, proposal).Done?
    ensures Undisturbed(db, ProposeOnce(db, w, proposal).db, g)
  {
  }

  lemma {:induction false} TransactionElsewhere(db: Db, w: World, event: Event, g: Id)
    requires Tables(db) && g < |db.goals| && db.goals[g].state.Terminal() && Transaction(db, w, event).Done?
    ensures Undisturbed(db, Transaction(db, w, event).db, g)
  {
    match event
    case Propose(proposal) => ProposeElsewhere(db, w, proposal, g);
    case ControlBy(k, revision, action) => ControlElsewhere(db, w, k, revision, action, g);
    case Delegate(input, plan) => DelegateElsewhere(db, w, input, plan, g);
    case Ask(question, kind) =>
    case Resolve(id, revision, answer, byHuman) => ResolveElsewhere(db, w, id, revision, answer, byHuman, g);
    case ReportBy(p, input) => ReportElsewhere(db, w, p, input, g);
    case Recover(d, member) =>
    case MoveWake(i, to) =>
  }

  lemma {:induction false} VisitElsewhere(m: Machine, w: World, k: Id, g: Id)
    requires g < |m.db.goals| && m.db.goals[g].state.Terminal()
    ensures Undisturbed(m.db, Visit(m, w, k, Rechecked).db, g)
  {
    if k < |m.db.goals| && k != g { WakeElsewhere(m.db, k, g); }
  }

  lemma {:induction false} OfferElsewhere(m: Machine, w: World, d: Id, actionId: Id, g: Id)
    requires Sound(m) && g < |m.db.goals| && m.db.goals[g].state.Terminal()
    ensures Undisturbed(m.db, Offer(m, w, d, actionId).db, g)
  {
    if Offer(m, w, d, actionId) != m { OfferIsFresh(m, w, d); }
  }

  lemma {:induction false} CheckElsewhere(m: Machine, w: World, d: Id, interval: nat, g: Id)
    requires g < |m.db.goals| && m.db.goals[g].state.Terminal()
    ensures Undisturbed(m.db, Check(m, w, d, interval, Rechecked).db, g)
  {
    if CheckDue(m, w, d) {
      var woken := WakeListed(m.db, m.db.delegations[d].input.goalId, Rechecked);
      if m.db.delegations[d].input.goalId != g { WakeElsewhere(m.db, m.db.delegations[d].input.goalId, g); }
      UndisturbedTransitive(m.db, woken, Check(m, w, d, interval, Rechecked).db, g);
    }
  }

  /** With the re-read, no step touches a finished goal, its delegations or their evidence. */
  lemma {:induction false} FinishedStepStays(m: Machine, s: Step, g: Id)
    requires Sound(m) && g < |m.db.goals| && m.db.goals[g].state.Terminal()
    ensures Undisturbed(m.db, Next(m, s, Rechecked).db, g)
  {
    var w := At(m, s.w);
    match s.event
    case ListGoals =>
    case VisitGoal(k) => VisitElsewhere(m, w, k, g);
    case OfferTeam(d, actionId) => OfferElsewhere(m, w, d, actionId, g);
    case CheckTeam(d, interval) => CheckElsewhere(m, w, d, interval, g);
    case _ => TransactionStepStays(m, w, s.event, g);
  }

  lemma {:induction false} TransactionStepStays(m: Machine, w: World, event: Event, g: Id)
    requires Sound(m) && g < |m.db.goals| && m.db.goals[g].state.Terminal()
    ensures Undisturbed(m.db, Transaction(m.db, w, event).Or(m.db), g)
  {
    Open(m.db);
    if Transaction(m.db, w, event).Done? { TransactionElsewhere(m.db, w, event, g); }
  }

  /** Completed and cancelled are absorbing over every continuation, and what certified a completed goal still does. */
  lemma {:induction false} FinishedStays(steps: seq<Step>, more: seq<Step>, g: Id)
    requires g < |Run(steps, Rechecked).db.goals| && Run(steps, Rechecked).db.goals[g].state.Terminal()
    ensures Undisturbed(Run(steps, Rechecked).db, Run(steps + more, Rechecked).db, g)
  {
    if more == [] {
      assert steps + more == steps;
    } else {
      var before := steps + more[..|more| - 1];
      FinishedStays(steps, more[..|more| - 1], g);
      assert (steps + more)[..|steps + more| - 1] == before;
      ReachableSound(before, Rechecked);
      FinishedStepStays(Run(before, Rechecked), more[|more| - 1], g);
      UndisturbedTransitive(Run(steps, Rechecked).db, Run(before, Rechecked).db, Run(steps + more, Rechecked).db, g);
    }
  }

  /** The steps of the pass that, as written, revive goal `g`: a policy write of a stale row, or a wake-up beyond the budget. */
  predicate Revives(m: Machine, w: World, event: Event, g: Id)
    requires g < |m.db.goals|
  {
    match event
    case VisitGoal(k) =>
      k == g && g in m.seenGoals &&
      (MayRun(m.seenGoals[g], w, Coordination) ==> !HasWake(m.db.wakes, g) && m.db.goals[g].turnsUsed >= m.db.goals[g].grant.maxForemanTurns)
    case CheckTeam(d, interval) =>
      CheckDue(m, w, d) && m.db.delegations[d].input.goalId == g &&
      !HasOutstandingWake(m.db.wakes, g) && m.db.goals[g].turnsUsed >= m.db.goals[g].grant.maxForemanTurns
    case _ => false
  }

  lemma {:induction false} VisitRevivesIff(m: Machine, w: World, k: Id, g: Id)
    requires Sound(m) && g < |m.db.goals| && m.db.goals[g].state.Terminal()
    ensures g < |Visit(m, w, k, AsWritten).db.goals|
    ensures Visit(m, w, k, AsWritten).db.goals[g].state == m.db.goals[g].state <==> !Revives(m, w, VisitGoal(k), g)
  {
    assert Holds(m.db, TerminalGoalsIdle);
  }

  lemma {:induction false} CheckRevivesIff(m: Machine, w: World, d: Id, interval: nat, g: Id)
    requires g < |m.db.goals| && m.db.goals[g].state.Terminal()
    ensures g < |Check(m, w, d, interval, AsWritten).db.goals|
    ensures Check(m, w, d, interval, AsWritten).db.goals[g].state == m.db.goals[g].state <==> !Revives(m, w, CheckTeam(d, interval), g)
  {
  }

  /** As written, a finished goal stays finished in a step exactly when that step is not one of those. */
  lemma {:induction false} AsWrittenStaysIff(m: Machine, s: Step, g: Id)
    requires Sound(m) && g < |m.db.goals| && m.db.goals[g].state.Terminal()
    ensures g < |Next(m, s, AsWritten).db.goals|
    ensures Next(m, s, AsWritten).db.goals[g].state == m.db.goals[g].state <==> !Revives(m, At(m, s.w), s.event, g)
  {
    var w := At(m, s.w);
    match s.event
    case ListGoals =>
    case VisitGoal(k) => VisitRevivesIff(m, w, k, g);
    case OfferTeam(d, actionId) => OfferElsewhere(m, w, d, actionId, g);
    case CheckTeam(d, interval) => CheckRevivesIff(m, w, d, interval, g);
    case _ => TransactionStepStays(m, w, s.event, g);
  }

  /** As written, a step keeps turns and reviews equal exactly when it is not the policy write of a row whose turn count is out of date. */
  lemma {:induction false} AsWrittenTurnsIff(m: Machine, s: Step)
    requires Sound(m) && TurnsExact(m.db)
    ensures TurnsExact(Next(m, s, AsWritten).db) <==>
            !(s.event.VisitGoal? && s.event.visited in m.seenGoals && !MayRun(m.seenGoals[s.event.visited], At(m, s.w), Coordination)
              && m.seenGoals[s.event.visited].turnsUsed != m.db.goals[s.event.visited].turnsUsed)
  {
    var w := At(m, s.w);
    match s.event
    case ListGoals =>
    case VisitGoal(g) =>
      if g in m.seenGoals && MayRun(m.seenGoals[g], w, Coordination) { WakeListedSound(m, g, AsWritten); }
    case OfferTeam(d, actionId) =>
    case CheckTeam(d, interval) => CheckSound(m, w, d, interval, AsWritten);
    case _ => TransactionSound(m, w, s.event);
  }

  /** Writing the queued row back without the handoff's own re-read is safe exactly when the goal is unfinished and nobody else took the team or its checkout. */
  lemma {:induction false} BlindOfferIff(m: Machine, d: Id, actionId: Id, now: nat)
    requires Sound(m) && d in m.seenTeams && m.seenTeams[d].state.Queued?
    ensures Good(SaveDelegation(m.db, d, OfferedRow(m.seenTeams[d], actionId, now))) <==> StillFree(m.db, d)
  {
    var row := OfferedRow(m.seenTeams[d], actionId, now);
    var next := SaveDelegation(m.db, d, row);
    if StillFree(m.db, d) { FreeRowSaved(m.db, d, row); }
    if Good(next) {
      GoodIsFree(next, d);
      assert forall k :: 0 <= k < |m.db.delegations| && k != d ==> next.delegations[k] == m.db.delegations[k];
    }
  }
}
