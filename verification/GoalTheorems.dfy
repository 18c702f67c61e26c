/**
 What holds in every state the goal service can reach, whatever is interleaved with the reconcile
 pass, and exactly which of its stale writes break what.
 */
module GoalTheorems {
  import opened Wrappers
  import opened GoalModel
  import opened GoalMachine

  ghost predicate Sound(m: Machine) {
    Good(m.db) && SeenGood(m)
  }

  // ---------------------------------------------------------------- the writes of the pass

  lemma {:induction false} SeenStays(m: Machine, db: Db)
    requires Sound(m) && Good(db) && Extends(m.db, db)
    ensures Sound(m.(db := db))
  {
    OpenExtends(m.db, db);
  }

  /** The policy write puts a listed row back: budgets survive, but the turn count may go back with it. */
  lemma {:induction false} BlockListedSound(m: Machine, g: Id, v: Variant)
    requires Sound(m) && g in m.seenGoals
    ensures Sound(m.(seenGoals := m.seenGoals - {g}, db := BlockListed(m.db, g, m.seenGoals[g], v)))
    ensures v.Rechecked? && TurnsExact(m.db) ==> TurnsExact(BlockListed(m.db, g, m.seenGoals[g], v))
  {
    match v
    case AsWritten => GoalSaved(m.db, g, Moved(m.seenGoals[g], GoalState.Blocked));
    case Rechecked => if m.db.goals[g].state.Running? { StateSaved(m.db, g, GoalState.Blocked); }
    SeenStays(m, BlockListed(m.db, g, m.seenGoals[g], v));
  }

  lemma {:induction false} WakeListedSound(m: Machine, g: Id, v: Variant)
    requires Sound(m) && g < |m.db.goals|
    ensures Sound(m.(db := WakeListed(m.db, g, v)))
    ensures Keeps(m.db, WakeListed(m.db, g, v))
  {
    WakeKeeps(m.db, g);
    SeenStays(m, WakeListed(m.db, g, v));
  }

  /** A handoff that passes its own re-read writes exactly the row it read: nothing was lost across the await. */
  lemma {:induction false} OfferIsFresh(m: Machine, w: World, d: Id)
    requires Sound(m) && d in m.seenTeams && m.seenTeams[d].state.Queued? && HandoffAllowed(m.db.goals, m.db.delegations, w, d)
    ensures m.seenTeams[d] == m.db.delegations[d]
    ensures !m.db.goals[m.db.delegations[d].input.goalId].state.Terminal()
  {
    Open(m.db);
  }

  /** The goal of row `d` is unfinished and no other active row holds its team or its checkout. */
  ghost predicate StillFree(db: Db, d: Id)
    requires d < |db.delegations|
  {
    var row := db.delegations[d];
    && row.input.goalId < |db.goals|
    && !db.goals[row.input.goalId].state.Terminal()
    && forall k :: 0 <= k < |db.delegations| && k != d && db.delegations[k].state.Active() ==>
         db.delegations[k].input.groupId != row.input.groupId && db.delegations[k].checkoutId != row.checkoutId
  }

  lemma {:induction false} GoodIsFree(db: Db, d: Id)
    requires Good(db) && d < |db.delegations| && db.delegations[d].state.Active()
    ensures StillFree(db, d)
  {
    Open(db);
    forall k | 0 <= k < |db.delegations| && k != d && db.delegations[k].state.Active()
      ensures db.delegations[k].input.groupId != db.delegations[d].input.groupId && db.delegations[k].checkoutId != db.delegations[d].checkoutId
    {
      var i, j := if k < d then k else d, if k < d then d else k;
      assert i < j && db.delegations[i].input.groupId != db.delegations[j].input.groupId;
    }
  }

  /** A row may be made active when its goal is unfinished and its team and checkout are free. */
  lemma {:induction false} FreeRowSaved(db: Db, d: Id, row: Delegation)
    requires Good(db) && d < |db.delegations| && !db.delegations[d].state.Completed? && row.state.Active() && StillFree(db, d)
    requires row.input == db.delegations[d].input && row.checkoutId == db.delegations[d].checkoutId
    ensures Good(SaveDelegation(db, d, row))
  {
    var rows := db.delegations[d := row];
    Open(db);
    forall g | 0 <= g < |db.goals| && db.goals[g].state.Completed? ensures HasCompletedTeam(rows, g) {
      var i :| 0 <= i < |db.delegations| && db.delegations[i].input.goalId == g && db.delegations[i].state.Completed?;
      assert rows[i] == db.delegations[i];
    }
    Close(SaveDelegation(db, d, row));
  }

  lemma {:induction false} OfferSound(m: Machine, w: World, d: Id, actionId: Id)
    requires Sound(m)
    ensures Sound(Offer(m, w, d, actionId))
  {
    if Offer(m, w, d, actionId) != m {
      OfferIsFresh(m, w, d);
      GoodIsFree(m.db, d);
      FreeRowSaved(m.db, d, OfferedRow(m.seenTeams[d], actionId, w.now));
    }
  }

  lemma {:induction false} RescheduleKeeps(db: Db, d: Id, nextCheckAt: nat)
    requires Good(db) && d < |db.delegations| && !db.delegations[d].state.Unsent()
    ensures Keeps(db, SaveDelegation(db, d, db.delegations[d].(nextCheckAt := nextCheckAt)))
  {
    RowsMoved(db, db.delegations[d := db.delegations[d].(nextCheckAt := nextCheckAt)]);
  }

  lemma {:induction false} CheckSound(m: Machine, w: World, d: Id, interval: nat, v: Variant)
    requires Sound(m)
    ensures Sound(Check(m, w, d, interval, v))
    ensures TurnsExact(m.db) ==> TurnsExact(Check(m, w, d, interval, v).db)
  {
    if CheckDue(m, w, d) {
      var woken := WakeListed(m.db, m.db.delegations[d].input.goalId, v);
      WakeListedSound(m, m.db.delegations[d].input.goalId, v);
      RescheduleKeeps(woken, d, w.now + interval);
      KeepsTransitive(m.db, woken, Check(m, w, d, interval, v).db);
      SeenStays(m, Check(m, w, d, interval, v).db);
    }
  }

  /** Reading the goal's teams leaves the tables alone. */
  lemma {:induction false} TeamsListed(m: Machine, db: Db, g: Id)
    requires Sound(m) && Sound(m.(db := db)) && db.delegations == m.db.delegations
    ensures Sound(m.(seenGoals := m.seenGoals - {g}, seenTeams := ActiveTeams(m.db, g), db := db))
  {
  }

  lemma {:induction false} VisitSound(m: Machine, w: World, g: Id, v: Variant)
    requires Sound(m)
    ensures Sound(Visit(m, w, g, v))
    ensures v.Rechecked? && TurnsExact(m.db) ==> TurnsExact(Visit(m, w, g, v).db)
  {
    if g in m.seenGoals && g < |m.db.goals| {
      if !MayRun(m.seenGoals[g], w, Coordination) {
        BlockListedSound(m, g, v);
      } else if HasActiveTeam(m.db.delegations, g) || HasWake(m.db.wakes, g) {
        TeamsListed(m, m.db, g);
      } else {
        WakeListedSound(m, g, v);
        TeamsListed(m, WakeListed(m.db, g, v), g);
      }
    }
  }

  lemma {:induction false} TransactionSound(m: Machine, w: World, event: Event)
    requires Sound(m)
    ensures Sound(m.(db := Transaction(m.db, w, event).Or(m.db)))
    ensures TurnsExact(m.db) ==> TurnsExact(Transaction(m.db, w, event).Or(m.db))
  {
    if Transaction(m.db, w, event).Done? {
      TransactionKeeps(m.db, w, event);
      SeenStays(m, Transaction(m.db, w, event).db);
    }
  }

  lemma {:induction false} ListSound(m: Machine)
    requires Sound(m)
    ensures Sound(m.(seenGoals := Listed(m.db), seenTeams := map[]))
  {
    assert Holds(m.db, TurnsBudgeted);
  }

  lemma {:induction false} ApplySound(m: Machine, w: World, event: Event, v: Variant)
    requires Sound(m)
    ensures Sound(Apply(m, w, event, v))
    ensures v.Rechecked? && TurnsExact(m.db) ==> TurnsExact(Apply(m, w, event, v).db)
  {
    match event
    case ListGoals => ListSound(m);
    case VisitGoal(g) => VisitSound(m, w, g, v);
    case OfferTeam(d, actionId) => OfferSound(m, w, d, actionId);
    case CheckTeam(d, interval) => CheckSound(m, w, d, interval, v);
    case _ => TransactionSound(m, w, event);
  }

  lemma {:induction false} StepSound(m: Machine, s: Step, v: Variant)
    requires Sound(m)
    ensures Sound(Next(m, s, v))
    ensures v.Rechecked? && TurnsExact(m.db) ==> TurnsExact(Next(m, s, v).db)
  {
    ApplySound(m, At(m, s.w), s.event, v);
  }

  /** Every state of every run, with the service's writes as they are. */
  lemma {:induction false} ReachableSound(steps: seq<Step>, v: Variant)
    ensures Sound(Run(steps, v))
    ensures v.Rechecked? ==> TurnsExact(Run(steps, v).db)
  {
    if steps != [] {
      ReachableSound(steps[..|steps| - 1], v);
      StepSound(Run(steps[..|steps| - 1], v), steps[|steps| - 1], v);
    }
  }

  /** A completed goal owns a completed delegation, and each one it owns is certified by the accountable member and an independent reviewer. */
  lemma {:induction false} CompletedGoalIsCertified(steps: seq<Step>, v: Variant, g: Id)
    requires g < |Run(steps, v).db.goals| && Run(steps, v).db.goals[g].state.Completed?
    ensures HasCompletedTeam(Run(steps, v).db.delegations, g)
    ensures !HasActiveTeam(Run(steps, v).db.delegations, g)
    ensures var db := Run(steps, v).db;
            forall d :: 0 <= d < |db.delegations| && db.delegations[d].input.goalId == g && db.delegations[d].state.Completed? ==>
              Certified(db.reports, d, db.delegations[d].input.memberId)
  {
    ReachableSound(steps, v);
    Open(Run(steps, v).db);
  }

  /** No two active delegations share a team or a checkout. */
  lemma {:induction false} ActiveTeamsNeverShare(steps: seq<Step>, v: Variant, i: Id, j: Id)
    requires i < |Run(steps, v).db.delegations| && j < |Run(steps, v).db.delegations| && i != j
    requires Run(steps, v).db.delegations[i].state.Active() && Run(steps, v).db.delegations[j].state.Active()
    ensures Run(steps, v).db.delegations[i].input.groupId != Run(steps, v).db.delegations[j].input.groupId
    ensures Run(steps, v).db.delegations[i].checkoutId != Run(steps, v).db.delegations[j].checkoutId
  {
    ReachableSound(steps, v);
    GoodIsFree(Run(steps, v).db, i);
  }

  /** With the re-read, the reviews ever created for a goal are exactly its turns used, never more than granted, at most one outstanding. */
  lemma {:induction false} TurnsStayInBudget(steps: seq<Step>, g: Id)
    requires g < |Run(steps, Rechecked).db.goals|
    ensures var db := Run(steps, Rechecked).db;
            && WakesOf(db.wakes, g) == db.goals[g].turnsUsed <= db.goals[g].grant.maxForemanTurns
            && OneOutstanding(db.wakes)
  {
    ReachableSound(steps, Rechecked);
    assert Holds(Run(steps, Rechecked).db, TurnsBudgeted);
  }

  // ---------------------------------------------------------------- request keys

  /** A request key names at most one delegation of a goal, and at most one report of a member about a delegation. */
  ghost predicate KeysUnique(db: Db) {
    && (forall i, j :: 0 <= i < j < |db.delegations| ==> !SameRequest(db.delegations[i], db.delegations[j].input))
    && (forall i, j :: 0 <= i < j < |db.reports| ==>
          db.reports[i].input.delegationId != db.reports[j].input.delegationId || db.reports[i].memberId != db.reports[j].memberId
          || db.reports[i].input.requestId != db.reports[j].input.requestId)
  }

  lemma {:induction false} ReportKeysUnique(db: Db, w: World, p: Principal, input: ReportInput)
    requires KeysUnique(db) && RecordReport(db, w, p, input).Done?
    ensures KeysUnique(RecordReport(db, w, p, input).db)
  {
    var next := RecordReport(db, w, p, input).db;
    if FindReport(db.reports, p, input).None? {
      assert next.reports[|db.reports|].input == input;
      assert forall i :: 0 <= i < |db.reports| ==> next.reports[i] == db.reports[i];
    }
  }

  lemma {:induction false} DelegateKeysUnique(db: Db, w: World, input: DelegateInput, plan: Option<Id>)
    requires KeysUnique(db) && DelegateTeam(db, w, input, plan).Done?
    ensures KeysUnique(DelegateTeam(db, w, input, plan).db)
  {
  }

  lemma {:induction false} ControlKeysUnique(db: Db, w: World, g: Id, revision: nat, action: Control)
    requires KeysUnique(db) && ControlGoal(db, w, g, revision, action).Done?
    ensures KeysUnique(ControlGoal(db, w, g, revision, action).db)
  {
  }

  lemma {:induction false} TransactionKeys(db: Db, w: World, event: Event)
    requires KeysUnique(db) && Transaction(db, w, event).Done?
    ensures KeysUnique(Transaction(db, w, event).db)
  {
    match event
    case Propose(proposal) =>
    case ControlBy(g, revision, action) => ControlKeysUnique(db, w, g, revision, action);
    case Delegate(input, plan) => DelegateKeysUnique(db, w, input, plan);
    case Ask(question, kind) =>
    case Resolve(id, revision, answer, byHuman) =>
    case ReportBy(p, input) => ReportKeysUnique(db, w, p, input);
    case Recover(d, member) =>
    case MoveWake(i, to) =>
  }

  lemma {:induction false} PassKeys(m: Machine, w: World, event: Event, v: Variant)
    requires KeysUnique(m.db) && TeamsGood(m) && OfPass(event)
    ensures KeysUnique(Apply(m, w, event, v).db)
  {
    match event
    case ListGoals =>
    case VisitGoal(g) => assert Visit(m, w, g, v).db.reports == m.db.reports && Visit(m, w, g, v).db.delegations == m.db.delegations;
    case OfferTeam(d, actionId) => OfferKeys(m, w, d, actionId);
    case CheckTeam(d, interval) => CheckKeys(m, w, d, interval, v);
  }

  lemma {:induction false} OfferKeys(m: Machine, w: World, d: Id, actionId: Id)
    requires KeysUnique(m.db) && TeamsGood(m)
    ensures KeysUnique(Offer(m, w, d, actionId).db)
  {
    assert Offer(m, w, d, actionId).db.reports == m.db.reports;
  }

  lemma {:induction false} CheckKeys(m: Machine, w: World, d: Id, interval: nat, v: Variant)
    requires KeysUnique(m.db)
    ensures KeysUnique(Check(m, w, d, interval, v).db)
  {
    assert Check(m, w, d, interval, v).db.reports == m.db.reports;
  }

  /** Repeating a request never records it twice, over any run. */
  lemma {:induction false} RequestsRecordOnce(steps: seq<Step>, v: Variant)
    ensures KeysUnique(Run(steps, v).db)
  {
    if steps != [] {
      var before := steps[..|steps| - 1];
      var s := steps[|steps| - 1];
      RequestsRecordOnce(before, v);
      ReachableSound(before, v);
      var m := Run(before, v);
      var w := At(m, s.w);
      if OfPass(s.event) { PassKeys(m, w, s.event, v); }
      else if Transaction(m.db, w, s.event).Done? { TransactionKeys(m.db, w, s.event); }
    }
  }
}
