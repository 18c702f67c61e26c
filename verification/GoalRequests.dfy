/**
 Goals and questions are recorded once per request, like delegations and reports
 (`apps/daemon/src/foreman-goal-service.ts`): repeating a call never adds a row.
 */
module GoalRequests {
  import opened Wrappers
  import opened GoalModel
  import opened GoalMachine
  import opened GoalTheorems

  /** A request names at most one goal. */
  ghost predicate GoalsOnce(goals: seq<Goal>) {
    forall i, j :: 0 <= i < j < |goals| ==> goals[i].proposal.requestId != goals[j].proposal.requestId
  }

  /** A request names at most one question about the same goal and delegation. */
  ghost predicate QuestionsOnce(decisions: seq<Decision>) {
    forall i, j :: 0 <= i < j < |decisions| ==> !SameQuestion(decisions[i], decisions[j].input)
  }

  /** The goals are those there were, with whatever was changed in them but their proposals. */
  ghost predicate SameGoals(a: seq<Goal>, b: seq<Goal>) {
    |a| == |b| && forall g :: 0 <= g < |a| ==> b[g].proposal == a[g].proposal
  }

  ghost predicate SameQuestions(a: seq<Decision>, b: seq<Decision>) {
    |a| == |b| && forall q :: 0 <= q < |a| ==> b[q].input == a[q].input
  }

  lemma {:induction false} GoalsStayOnce(a: seq<Goal>, b: seq<Goal>)
    requires GoalsOnce(a) && SameGoals(a, b)
    ensures GoalsOnce(b)
  {
    forall i, j | 0 <= i < j < |b| ensures b[i].proposal.requestId != b[j].proposal.requestId {
      assert a[i].proposal.requestId != a[j].proposal.requestId;
    }
  }

  lemma {:induction false} QuestionsStayOnce(a: seq<Decision>, b: seq<Decision>)
    requires QuestionsOnce(a) && SameQuestions(a, b)
    ensures QuestionsOnce(b)
  {
    forall i, j | 0 <= i < j < |b| ensures !SameQuestion(b[i], b[j].input) { assert !SameQuestion(a[i], a[j].input); }
  }

  // ---------------------------------------------------------------- each transaction

  lemma {:induction false} ControlSame(db: Db, w: World, g: Id, revision: nat, action: Control)
    requires ControlGoal(db, w, g, revision, action).Done?
    ensures SameGoals(db.goals, ControlGoal(db, w, g, revision, action).db.goals)
    ensures SameQuestions(db.decisions, ControlGoal(db, w, g, revision, action).db.decisions)
  {
  }

  lemma {:induction false} ResolveSame(db: Db, w: World, id: Id, revision: nat, answer: string, byHuman: bool)
    requires ResolveDecision(db, w, id, revision, answer, byHuman).Done?
    ensures SameGoals(db.goals, ResolveDecision(db, w, id, revision, answer, byHuman).db.goals)
    ensures SameQuestions(db.decisions, ResolveDecision(db, w, id, revision, answer, byHuman).db.decisions)
  {
    assert SaveAnswer(db, id, answer, byHuman).goals == db.goals;
  }

  /** A new delegation comes with at most one question, and it is about that delegation. */
  lemma {:induction false} DelegateAsks(db: Db, w: World, input: DelegateInput, plan: Option<Id>)
    requires DelegateTeam(db, w, input, plan).Done?
    ensures var next := DelegateTeam(db, w, input, plan).db;
            && SameGoals(db.goals, next.goals)
            && (SameQuestions(db.decisions, next.decisions)
                || (|next.decisions| == |db.decisions| + 1 && SameQuestions(db.decisions, next.decisions[..|db.decisions|])
                    && next.decisions[|db.decisions|].input.delegationId == Some(|db.delegations|)))
  {
    var next := DelegateTeam(db, w, input, plan).db;
    if FindRequest(db.delegations, input).None? && plan.None? {
      var row := Delegation.Delegation(input, DelegationState.Proposed, 0, w.teams[input.groupId].checkout.value, None, w.now);
      var saved := db.(delegations := db.delegations + [row]);
      var question := QuestionInput("", input.goalId, Some(|db.delegations|), ["approve", "deny"], true);
      var asked := AskHuman(saved, w, question, DecisionKind.Delegation);
      if Automatic(db.goals[input.goalId], w) {
        ResolveSame(asked.db, w, |db.decisions|, 0, "approve", false);
      }
    }
  }

  lemma {:induction false} ReportSame(db: Db, w: World, p: Principal, input: ReportInput)
    requires RecordReport(db, w, p, input).Done?
    ensures SameGoals(db.goals, RecordReport(db, w, p, input).db.goals) && RecordReport(db, w, p, input).db.decisions == db.decisions
  {
  }

  /** A question about a delegation that was not there before has no earlier namesake. */
  lemma {:induction false} QuestionAdded(db: Db, next: seq<Decision>)
    requires Good(db) && QuestionsOnce(db.decisions) && |next| == |db.decisions| + 1
    requires SameQuestions(db.decisions, next[..|db.decisions|])
    requires next[|db.decisions|].input.delegationId == Some(|db.delegations|)
    ensures QuestionsOnce(next)
  {
    Open(db);
    forall i, j | 0 <= i < j < |next| ensures !SameQuestion(next[i], next[j].input) {
      assert next[..|db.decisions|][i].input == db.decisions[i].input;
      if j < |db.decisions| {
        assert next[..|db.decisions|][j].input == db.decisions[j].input && !SameQuestion(db.decisions[i], db.decisions[j].input);
      } else {
        assert AsksAboutOwnGoal(db, db.decisions[i].input);
      }
    }
  }

  lemma {:induction false} ProposeOnceKeeps(db: Db, w: World, proposal: Proposal)
    requires GoalsOnce(db.goals) && ProposeOnce(db, w, proposal).Done?
    ensures GoalsOnce(ProposeOnce(db, w, proposal).db.goals) && SameQuestions(db.decisions, ProposeOnce(db, w, proposal).db.decisions)
  {
    var next := ProposeOnce(db, w, proposal).db;
    if next != db {
      var goal := Goal(proposal, w.policy.value.foremanId, GoalState.Proposed, 0, w.policy.value.autonomy, 0,
                       w.now + w.policy.value.autonomy.maxGoalHours * 3600000);
      var saved := db.(goals := db.goals + [goal]);
      assert GoalsOnce(saved.goals);
      if Automatic(goal, w) {
        ControlSame(saved, w, |db.goals|, 0, Approve);
        GoalsStayOnce(saved.goals, next.goals);
      }
    }
  }

  lemma {:induction false} AskOnceKeeps(db: Db, w: World, input: QuestionInput, kind: DecisionKind)
    requires QuestionsOnce(db.decisions) && AskOnce(db, w, input, kind).Done?
    ensures QuestionsOnce(AskOnce(db, w, input, kind).db.decisions) && AskOnce(db, w, input, kind).db.goals == db.goals
  {
  }

  ghost predicate Once(db: Db) {
    GoalsOnce(db.goals) && QuestionsOnce(db.decisions)
  }

  lemma {:induction false} OnceStays(a: Db, b: Db)
    requires Once(a) && SameGoals(a.goals, b.goals) && SameQuestions(a.decisions, b.decisions)
    ensures Once(b)
  {
    GoalsStayOnce(a.goals, b.goals);
    QuestionsStayOnce(a.decisions, b.decisions);
  }

  lemma {:induction false} TransactionOnce(db: Db, w: World, event: Event)
    requires Good(db) && Once(db) && Transaction(db, w, event).Done?
    ensures Once(Transaction(db, w, event).db)
  {
    var next := Transaction(db, w, event).db;
    match event
    case Propose(proposal) =>
      ProposeOnceKeeps(db, w, proposal);
      QuestionsStayOnce(db.decisions, next.decisions);
    case ControlBy(g, revision, action) =>
      ControlSame(db, w, g, revision, action);
      OnceStays(db, next);
    case Delegate(input, plan) =>
      DelegateAsks(db, w, input, plan);
      GoalsStayOnce(db.goals, next.goals);
      if SameQuestions(db.decisions, next.decisions) { QuestionsStayOnce(db.decisions, next.decisions); } else { QuestionAdded(db, next.decisions); }
    case Ask(question, kind) => AskOnceKeeps(db, w, question, kind);
    case Resolve(id, revision, answer, byHuman) =>
      ResolveSame(db, w, id, revision, answer, byHuman);
      OnceStays(db, next);
    case ReportBy(p, input) =>
      ReportSame(db, w, p, input);
      OnceStays(db, next);
    case Recover(d, member) => OnceStays(db, next);
    case MoveWake(i, to) => OnceStays(db, next);
  }

  // ---------------------------------------------------------------- the pass, and whole runs

  /** Even as written, the pass puts back a listed row with the proposal it has now. */
  lemma {:induction false} PassSame(m: Machine, w: World, event: Event, v: Variant)
    requires Sound(m) && OfPass(event)
    ensures SameGoals(m.db.goals, Apply(m, w, event, v).db.goals) && Apply(m, w, event, v).db.decisions == m.db.decisions
  {
    match event
    case ListGoals =>
    case VisitGoal(g) => if g in m.seenGoals && g < |m.db.goals| { WakeSame(m.db, g, v); }
    case OfferTeam(d, actionId) =>
    case CheckTeam(d, interval) => if CheckDue(m, w, d) { WakeSame(m.db, m.db.delegations[d].input.goalId, v); }
  }

  lemma {:induction false} WakeSame(db: Db, g: Id, v: Variant)
    requires g < |db.goals|
    ensures SameGoals(db.goals, WakeListed(db, g, v).goals) && WakeListed(db, g, v).decisions == db.decisions
  {
  }

  /** Over any run, a request names at most one goal, and at most one question of a goal and delegation. */
  lemma {:induction false} ProposalsAndQuestionsRecordOnce(steps: seq<Step>, v: Variant)
    ensures Once(Run(steps, v).db)
  {
    if steps != [] {
      var before := steps[..|steps| - 1];
      var s := steps[|steps| - 1];
      ProposalsAndQuestionsRecordOnce(before, v);
      ReachableSound(before, v);
      ApplyOnce(Run(before, v), At(Run(before, v), s.w), s.event, v);
    }
  }

  lemma {:induction false} ApplyOnce(m: Machine, w: World, event: Event, v: Variant)
    requires Sound(m) && Once(m.db)
    ensures Once(Apply(m, w, event, v).db)
  {
    if OfPass(event) {
      PassSame(m, w, event, v);
      OnceStays(m.db, Apply(m, w, event, v).db);
    } else if Transaction(m.db, w, event).Done? {
      TransactionOnce(m.db, w, event);
    }
  }
}
