/**
 One run that shows why the policy write must re-read its goal.  While the pass awaits the start of
 goal 0's team, an operator cancels goal 1 and the time limit passes; the pass then writes the row
 it listed earlier, and goal 1 is blocked instead of cancelled.
 */
module GoalCounterexample {
  import opened Wrappers
  import opened GoalModel
  import opened GoalMachine

  const GRANT := Grant(2, 1, 1, 1, 1, true, false, false, 0, false, 0, 0, 30)
  const LIMIT := 3600000
  const TEAM := Team(0, 0, Some(7), {5}, false, {}, true, true)

  function Early(): World {
    World(0, Some(Policy(9, true, GRANT)), true, map[3 := TEAM], map[], map[], map[], false, {})
  }

  function Late(): World { Early().(now := LIMIT) }

  const HANDOFF := DelegateInput("r", 0, 3, 5, 1, 0, 0, "brief")

  const FIRST := Proposal("a", "first")
  const SECOND := Proposal("b", "second")

  function Propose2(): seq<Step> { [Step(Early(), Propose(FIRST)), Step(Early(), Propose(SECOND))] }

  function Await(): seq<Step> {
    Propose2() + [Step(Early(), Delegate(HANDOFF, None))] + [Step(Early(), ListGoals)] + [Step(Early(), VisitGoal(0))]
  }

  function CancelMeanwhile(): seq<Step> { Await() + [Step(Early(), ControlBy(1, 1, Cancel))] }

  function Resume(): seq<Step> { CancelMeanwhile() + [Step(Late(), VisitGoal(1))] }

  lemma {:induction false} RunNext(steps: seq<Step>, s: Step, v: Variant)
    ensures Run(steps + [s], v) == Next(Run(steps, v), s, v)
  {
    assert (steps + [s])[..|steps|] == steps;
  }

  function NewGoal(proposal: Proposal): Goal { Goal(proposal, 9, GoalState.Running, 1, GRANT, 0, LIMIT) }

  lemma {:induction false} ProposeNext(goals: seq<Goal>, proposal: Proposal)
    requires Count(goals, Unfinished()) < 2 && forall g :: 0 <= g < |goals| ==> goals[g].proposal.requestId != proposal.requestId
    ensures ProposeOnce(Db(goals, [], [], [], [], [], []), Early(), proposal) == Done(Db(goals + [NewGoal(proposal)], [], [], [], [], [], []))
  {
    var proposed := Goal(proposal, 9, GoalState.Proposed, 0, GRANT, 0, LIMIT);
    assert (goals + [proposed])[|goals| := NewGoal(proposal)] == goals + [NewGoal(proposal)];
  }

  function FirstGoal(): Machine { Machine(Db([NewGoal(FIRST)], [], [], [], [], [], []), 0, map[], map[]) }

  lemma {:induction false} AfterFirst()
    ensures Run([Step(Early(), Propose(FIRST))], AsWritten) == FirstGoal()
  {
    RunNext([], Step(Early(), Propose(FIRST)), AsWritten);
    assert [] + [Step(Early(), Propose(FIRST))] == [Step(Early(), Propose(FIRST))];
    ProposeNext([], FIRST);
    assert [] + [NewGoal(FIRST)] == [NewGoal(FIRST)];
  }

  lemma {:induction false} OneUnfinished()
    ensures Count([NewGoal(FIRST)], Unfinished()) == 1
  {
    CountAppend([], NewGoal(FIRST), Unfinished());
    assert [] + [NewGoal(FIRST)] == [NewGoal(FIRST)];
  }

  lemma {:induction false} AfterPropose()
    ensures Run(Propose2(), AsWritten) == Machine(START, 0, map[], map[])
  {
    AfterFirst();
    RunNext([Step(Early(), Propose(FIRST))], Step(Early(), Propose(SECOND)), AsWritten);
    assert [Step(Early(), Propose(FIRST))] + [Step(Early(), Propose(SECOND))] == Propose2();
    OneUnfinished();
    ProposeNext([NewGoal(FIRST)], SECOND);
    assert [NewGoal(FIRST)] + [NewGoal(SECOND)] == [NewGoal(FIRST), NewGoal(SECOND)];
    assert At(FirstGoal(), Early()) == Early();
  }

  const START := Db([NewGoal(FIRST), NewGoal(SECOND)], [], [], [], [], [], [])
  const ROW := Delegation.Delegation(HANDOFF, DelegationState.Proposed, 0, 7, None, 0)
  const QUESTION := QuestionInput("", 0, Some(0), ["approve", "deny"], true)
  const ASKED := START.(delegations := [ROW], decisions := [Decision(QUESTION, DecisionKind.Delegation, Pending, 0, 1, None, false)])

  /** The policy approves the handoff at once and wakes the Foreman for goal 0. */
  lemma {:induction false} AfterDelegate()
    ensures var next := DelegateTeam(START, Early(), HANDOFF, None);
            && next.Done? && next.db.delegations == [Shifted(ROW, DelegationState.Queued)]
            && next.db.goals == [NewGoal(FIRST).(turnsUsed := 1), NewGoal(SECOND)]
            && |next.db.decisions| == 1 && next.db.decisions[0].input.goalId == 0 && next.db.wakes == [Wake(0, InboxState.Queued)]
  {
    assert Count(START.delegations, ActiveFor(0)) == 0;
    assert TeamEligible(START.delegations, 3, Early()) && AssignmentHolds(ROW, Early());
    assert [] + [ROW] == [ROW];
    assert AskHuman(START.(delegations := [ROW]), Early(), QUESTION, DecisionKind.Delegation) == Done(ASKED);
    assert "approve" in QUESTION.options;
    assert AnswerAllowed(ASKED, Early(), 0, 0, "approve");
  }

  function Listing(): seq<Step> { (Propose2() + [Step(Early(), Delegate(HANDOFF, None))]) + [Step(Early(), ListGoals)] }

  lemma {:induction false} AfterListing()
    ensures Run(Listing(), AsWritten) ==
            (var db := DelegateTeam(START, Early(), HANDOFF, None).Or(START); Machine(db, 0, Listed(db), map[]))
  {
    AfterPropose();
    var delegated := Propose2() + [Step(Early(), Delegate(HANDOFF, None))];
    RunNext(Propose2(), Step(Early(), Delegate(HANDOFF, None)), AsWritten);
    RunNext(delegated, Step(Early(), ListGoals), AsWritten);
  }

  lemma {:induction false} VisitFirst(db: Db)
    requires db.goals == [NewGoal(FIRST).(turnsUsed := 1), NewGoal(SECOND)] && db.delegations == [Shifted(ROW, DelegationState.Queued)]
    ensures Visit(Machine(db, 0, Listed(db), map[]), Early(), 0, AsWritten)
            == Machine(db, 0, Listed(db) - {0}, map[0 := db.delegations[0]])
    ensures 1 in Listed(db) && Listed(db)[1] == NewGoal(SECOND)
  {
    assert HasActiveTeam(db.delegations, 0) by { assert db.delegations[0].input.goalId == 0; }
    assert ActiveTeams(db, 0) == map[0 := db.delegations[0]];
  }

  /** The pass has listed goal 1 as running and is waiting for goal 0's team to start. */
  lemma {:induction false} WhileAwaiting()
    ensures var m := Run(Await(), AsWritten);
            && |m.db.goals| == 2 && m.db.goals[1] == NewGoal(SECOND) && m.clock == 0
            && 1 in m.seenGoals && m.seenGoals[1] == NewGoal(SECOND)
            && |m.db.decisions| == 1 && m.db.decisions[0].input.goalId == 0 && m.db.wakes == [Wake(0, InboxState.Queued)]
            && m.db.delegations == [Shifted(ROW, DelegationState.Queued)] && m.seenTeams == map[0 := m.db.delegations[0]]
  {
    AfterDelegate();
    AfterListing();
    RunNext(Listing(), Step(Early(), VisitGoal(0)), AsWritten);
    assert At(Run(Listing(), AsWritten), Early()) == Early();
    VisitFirst(Run(Listing(), AsWritten).db);
  }

  lemma {:induction false} PolicyWriteRevivesACancelledGoal()
    ensures |Run(CancelMeanwhile(), AsWritten).db.goals| == |Run(Resume(), AsWritten).db.goals| == 2
    ensures Run(CancelMeanwhile(), AsWritten).db.goals[1].state.Cancelled?
    ensures Run(Resume(), AsWritten).db.goals[1].state.Blocked?
  {
    WhileAwaiting();
    RunNext(Await(), Step(Early(), ControlBy(1, 1, Cancel)), AsWritten);
    RunNext(CancelMeanwhile(), Step(Late(), VisitGoal(1)), AsWritten);
  }

  const ASIDE := QuestionInput("q", 1, None, [], false)

  function AnswerMeanwhile(): seq<Step> {
    (Await() + [Step(Early(), Ask(ASIDE, Question))]) + [Step(Early(), Resolve(1, 0, "yes", true))]
  }

  /** A question about goal 1, asked and answered, creates a review of goal 1 and uses one of its turns. */
  lemma {:induction false} AnswerWakes(db: Db)
    requires |db.goals| == 2 && db.goals[1] == NewGoal(SECOND) && |db.decisions| == 1 && db.decisions[0].input.goalId == 0 && db.wakes == [Wake(0, InboxState.Queued)]
    ensures AskOnce(db, Early(), ASIDE, Question).Done?
    ensures var asked := AskOnce(db, Early(), ASIDE, Question).db;
            var next := ResolveDecision(asked, Early(), 1, 0, "yes", true);
            && next.Done? && |next.db.goals| == 2 && next.db.goals[1].turnsUsed == 1
            && next.db.wakes == [Wake(0, InboxState.Queued)] + [Wake(1, InboxState.Queued)]
  {
    var asked := AskOnce(db, Early(), ASIDE, Question).db;
    assert asked.decisions[1] == Decision(ASIDE, Question, Pending, 0, 1, None, false);
    assert AnswerAllowed(asked, Early(), 1, 0, "yes");
    assert SaveAnswer(asked, 1, "yes", true) == asked.(decisions := asked.decisions[1 := WithAnswer(asked.decisions[1], "yes", true)]);
    assert !HasOutstandingWake(asked.wakes, 1);
  }

  lemma {:induction false} AfterAnswer()
    ensures var m := Run(AnswerMeanwhile(), AsWritten);
            && |m.db.goals| == 2 && m.db.goals[1].turnsUsed == 1 && m.clock == 0 && 1 in m.seenGoals && m.seenGoals[1] == NewGoal(SECOND)
            && m.db.wakes == [Wake(0, InboxState.Queued)] + [Wake(1, InboxState.Queued)]
  {
    WhileAwaiting();
    AnswerWakes(Run(Await(), AsWritten).db);
    RunNext(Await(), Step(Early(), Ask(ASIDE, Question)), AsWritten);
    RunNext(Await() + [Step(Early(), Ask(ASIDE, Question))], Step(Early(), Resolve(1, 0, "yes", true)), AsWritten);
  }

  /** The same write can also lose a turn: a review created for goal 1 during the await is no longer counted. */
  lemma {:induction false} PolicyWriteLosesATurn()
    ensures var db := Run(AnswerMeanwhile() + [Step(Late(), VisitGoal(1))], AsWritten).db;
            |db.goals| == 2 && db.goals[1].turnsUsed == 0 && WakesOf(db.wakes, 1) == 1
  {
    AfterAnswer();
    RunNext(AnswerMeanwhile(), Step(Late(), VisitGoal(1)), AsWritten);
    WakeAppended([Wake(0, InboxState.Queued)], 1);
    WakeAppended([], 0);
    assert [] + [Wake(0, InboxState.Queued)] == [Wake(0, InboxState.Queued)];
  }
}
