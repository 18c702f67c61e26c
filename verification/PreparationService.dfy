/**
 The preparation service as it runs (`apps/daemon/src/foreman-orchestration-service.ts`).  The daemon can
 die after any durable step, and every `await` lets the rest of the daemon move on.
 */
module PreparationService {
  import opened Wrappers
  import opened Preparation

  /** How a piece of `#advance` ends: it falls through, the visit is over, an error is thrown, or the daemon died. */
  datatype Outcome = Going | Returned | Threw(code: Code) | Died
  {
    predicate IsFailure() { !Going? }
    function PropagateFailure(): Outcome { this }
  }

  /** What a visit started from: the rows, the time and the effects so far. */
  datatype Visit = Visit(rows: seq<Record>, since: nat, past: seq<Entry>)

  class ForemanOrchestrationService {
    /** What the rest of the daemon looks like after each `await`. */
    const world: nat -> Moment
    var awaits: nat
    /** Durable steps left before the daemon dies. */
    var life: nat
    var clock: nat
    var records: seq<Record>
    var delegations: seq<Delegation>
    var ended: set<nat>
    /** Effects started, oldest first. */
    ghost var journal: seq<Entry>
    /** How often each preparation was advanced, and how often the daemon died or an error escaped meanwhile. */
    ghost var attempts: multiset<nat>
    ghost var cutShort: multiset<nat>

    function At(): Moment
      reads this
    {
      world(awaits)
    }

    ghost predicate Valid()
      reads this
    {
      Sound(records, delegations, ended, journal)
    }

    /** The state in the middle of visit `v` to row `i`. */
    ghost predicate Underway(i: nat, v: Visit)
      reads this
    {
      && Valid() && v.past <= journal && v.since <= clock && Progress(i, v.rows, v.since, records)
      && !Finished(records[i].phase) && records[i].nextAttempt <= clock + 1000
    }

    ghost predicate First(i: nat)
      reads this
      requires i < |records|
    {
      Ahead(records, i, records[i].input.group) == 0
    }

    ghost predicate After(i: nat, v: Visit, outcome: Outcome)
      reads this
    {
      && Valid() && v.past <= journal && v.since <= clock && Progress(i, v.rows, v.since, records)
      && (outcome.Going? ==> Underway(i, v) && First(i))
      && (outcome.Threw? ==> Underway(i, v))
      && (outcome.Returned? ==> v.since + 1000 <= records[i].nextAttempt)
    }

    constructor (world: nat -> Moment)
      ensures Valid() && Timed(records, attempts, cutShort) && records == [] && delegations == [] && journal == [] && this.world == world
    {
      this.world := world;
      awaits, life, clock, records, delegations, ended := 0, 0, 0, [], [], {};
      journal, attempts, cutShort := [], multiset{}, multiset{};
      new;
      forall i: nat ensures RowHolds(records, delegations, ended, i) {}
      forall k: nat ensures EntryHolds(records, journal, k) {}
    }

    // -------------------------------------------------------------- durable steps

    method Pulse() returns (outcome: Outcome)
      modifies this`life
      ensures outcome == Going || outcome == Died
    {
      if life == 0 { return Died; }
      life := life - 1;
      outcome := Going;
    }

    method Save(i: nat, record: Record, phase: Phase, reason: Option<Code>, ghost v: Visit) returns (outcome: Outcome)
      requires Underway(i, v)
      requires Evolves(records[i], record) && RowFits(Saved(record, phase, reason, clock), delegations, ended)
      requires Claims(Saved(record, phase, reason, clock)) ==>
                 (Claims(records[i]) && record.checkout == records[i].checkout) || Unrivalled(records, i, record.checkout)
      modifies this`records, this`life
      ensures records == old(records)[i := Saved(record, phase, reason, clock)]
      ensures Valid() && Progress(i, v.rows, v.since, records) && v.since + 1000 <= records[i].nextAttempt
      ensures old(First(i)) ==> First(i)
      ensures forall c :: Unrivalled(old(records), i, c) ==> Unrivalled(records, i, c)
      ensures outcome == Going || outcome == Died
    {
      var now := Saved(record, phase, reason, clock);
      WriteSound(records, delegations, ended, journal, i, now);
      ProgressSave(i, v.rows, v.since, records, now);
      records := records[i := now];
      outcome := Pulse();
    }

    /** `return this.#save(...)`. */
    method Leave(i: nat, record: Record, phase: Phase, reason: Option<Code>, ghost v: Visit) returns (outcome: Outcome)
      requires Underway(i, v) && record == records[i]
      requires !phase.Delegated? && (phase.Ready? ==> record.bound && record.input.operation.Prepare?)
      modifies this`records, this`life
      ensures After(i, v, outcome) && !outcome.Going? && !outcome.Threw?
      ensures records == old(records)[i := Saved(record, phase, reason, clock)]
    {
      assert RowHolds(records, delegations, ended, i);
      outcome := Save(i, record, phase, reason, v);
      if outcome.Going? { outcome := Returned; }
    }

    /** Other requests, delegations and run ends arrive, and the clock moves. */
    method Await(i: nat, ghost v: Visit) returns (outcome: Outcome)
      requires Underway(i, v)
      modifies this`awaits, this`life, this`clock, this`records, this`delegations, this`ended
      ensures Underway(i, v) && old(clock) <= clock && old(ended) <= ended && old(delegations) <= delegations
      ensures i < |old(records)| && records[i] == old(records)[i] && (old(First(i)) ==> First(i)) && old(awaits) <= awaits
      ensures forall c :: Unrivalled(old(records), i, c) ==> Unrivalled(records, i, c)
      ensures outcome == Going || outcome == Died
    {
      ghost var was := records;
      Arrive();
      ProgressArrivals(i, v.rows, v.since, was, records);
      outcome := Pulse();
    }

    method Arrive()
      requires Valid()
      modifies this`awaits, this`clock, this`records, this`delegations, this`ended
      ensures awaits == old(awaits) + 1
      ensures Valid() && old(clock) <= clock && old(ended) <= ended && old(delegations) <= delegations && Grown(old(records), records)
    {
      awaits := awaits + 1;
      var m := At();
      if clock < m.now { clock := m.now; }
      EndedSound(records, delegations, ended, journal, m.ended);
      ended := ended + m.ended;
      DelegateAllSound(records, delegations, ended, journal, m.delegations);
      delegations := DelegateAll(delegations, m.delegations);
      AllRequestedSound(records, delegations, ended, journal, m.requests, clock, m);
      records := AllRequested(records, m.requests, clock, m);
    }

    /** An awaited call with no effect of its own, such as refreshing a checkout. */
    method Refresh(i: nat, ghost v: Visit) returns (outcome: Outcome)
      requires Underway(i, v) && First(i)
      modifies this`awaits, this`life, this`clock, this`records, this`delegations, this`ended
      ensures After(i, v, outcome) && i < |old(records)| && records[i] == old(records)[i]
      ensures old(ended) <= ended && (forall c :: Unrivalled(old(records), i, c) ==> Unrivalled(records, i, c))
    {
      outcome := Await(i, v);
      if outcome.Going? && At().fault.Some? { outcome := Threw(At().fault.value); }
    }

    /** Starts an effect behind the fence, unless the callee's own last check bars it. */
    method Perform(i: nat, effect: Effect, ghost v: Visit) returns (outcome: Outcome)
      requires Underway(i, v) && First(i)
      requires match effect
               case StopRun(run) => Stopped(records[i], run) && NotYet(journal, i, effect)
               case StartMember(member) => Started(records[i], member) && NotYet(journal, i, effect)
               case _ => true
      modifies this`awaits, this`life, this`clock, this`records, this`delegations, this`ended, this`journal
      ensures After(i, v, outcome) && i < |old(records)| && records[i] == old(records)[i]
      ensures old(ended) <= ended && (forall c :: Unrivalled(old(records), i, c) ==> Unrivalled(records, i, c))
      ensures journal == old(journal) || journal == old(journal) + [Entry(i, effect, 0, true)]
      ensures !outcome.Returned?
      ensures outcome.Going? ==> journal == old(journal) + [Entry(i, effect, 0, true)]
      ensures old(awaits) <= awaits
    {
      outcome := Await(i, v);
      if !outcome.Going? { return; }
      var code := Fence(records[i], clock, At());
      if code.Some? { return Threw(code.value); }
      if At().barred(effect).Some? { return Threw(At().barred(effect).value); }
      ghost var entry := Entry(i, effect, Ahead(records, i, records[i].input.group), Fence(records[i], clock, At()) == None);
      EffectSound(records, delegations, ended, journal, entry);
      journal := journal + [entry];
      :- Await(i, v);
      if effect.StopRun? {
        code := Fence(records[i], clock, At());
        if code.Some? { return Threw(code.value); }
      }
      if At().fault.Some? { return Threw(At().fault.value); }
      return Going;
    }

    // -------------------------------------------------------------- the sections of a visit

    /** The first unfinished preparation of a team. */
    method FindPrior(group: nat) returns (prior: nat)
      ensures prior <= |records| && Ahead(records, prior, group) == 0
      ensures prior < |records| ==> Blocks(records[prior], group)
    {
      prior := 0;
      while prior < |records| && !Blocks(records[prior], group)
        invariant prior <= |records| && Ahead(records, prior, group) == 0
      {
        prior := prior + 1;
      }
    }

    /** The commit the preparation is based on is the first one seen. */
    method PinHead(i: nat, head: Option<nat>, ghost v: Visit) returns (outcome: Outcome)
      requires Underway(i, v) && First(i) && head.Some?
      modifies this`life, this`records
      ensures After(i, v, outcome) && i < |old(records)| && (outcome.Going? || outcome.Died?)
      ensures records[i] == if old(records)[i].head.Some? then old(records)[i]
                            else Saved(old(records)[i].(head := head), old(records)[i].phase, None, clock)
    {
      if records[i].head.Some? { return Going; }
      assert RowHolds(records, delegations, ended, i);
      outcome := Save(i, records[i].(head := head), records[i].phase, None, v);
    }

    method Admit(i: nat, ghost v: Visit) returns (outcome: Outcome)
      requires Underway(i, v)
      modifies this`awaits, this`life, this`clock, this`records, this`delegations, this`ended
      ensures After(i, v, outcome) && i < |old(records)|
      ensures !outcome.Returned? && !outcome.Died? ==> records[i].stops == old(records)[i].stops && records[i].starts == old(records)[i].starts
      ensures outcome.Going? ==> records[i].head.Some? && !At().checkout(records[i].source).kind.Bare?
      ensures outcome.Going? && records[i].decision.Some? ==> At().decision(records[i].decision.value).Approved?
    {
      var record := records[i];
      var group := record.input.group;
      if !At().foremanRunning(record.input.foreman) { return Threw(ForemanUnavailable); }
      var goal := At().goal(record.input.goal);
      if goal.refusal.Some? { return Threw(goal.refusal.value); }
      var prior := FindPrior(group);
      if prior != i {
        outcome := Leave(i, record, Waiting, Some(TeamPreparationReserved), v);
        return;
      }
      if goal.teams >= goal.maxTeams {
        outcome := Leave(i, record, Waiting, Some(GoalTeamCapacity), v);
        return;
      }
      :- Refresh(i, v);
      var source := At().checkout(record.source);
      if source.kind.Bare? || source.head.None? { return Threw(SourceCommitMissing); }
      if source.repository != At().checkout(record.original).repository { return Threw(RepositoryMismatch); }
      :- PinHead(i, source.head, v);
      outcome := Approve(i, goal.automatic, v);
    }

    method Approve(i: nat, automatic: bool, ghost v: Visit) returns (outcome: Outcome)
      requires Underway(i, v) && First(i)
      modifies this`life, this`records
      ensures After(i, v, outcome) && i < |old(records)|
      ensures !outcome.Returned? && !outcome.Died? ==> records[i] == old(records)[i]
      ensures outcome.Going? ==> if records[i].decision.Some? then At().decision(records[i].decision.value).Approved? else automatic
    {
      var record := records[i];
      assert RowHolds(records, delegations, ended, i);
      if !automatic && record.decision.None? {
        if At().fault.Some? { return Threw(At().fault.value); }
        record := record.(decision := Some(At().asked));
        :- Save(i, record, NeedsApproval, Some(PlanApprovalRequired), v);
        return Returned;
      }
      if record.decision.Some? {
        var answer := At().decision(record.decision.value);
        if answer.Pending? {
          outcome := Leave(i, record, NeedsApproval, Some(PlanApprovalRequired), v);
          return;
        }
        if answer.Denied? {
          outcome := Leave(i, record, Cancelled, Some(PlanDenied), v);
          return;
        }
      }
      outcome := Going;
    }

    /** What a crash left half done: a checkout assignment that took effect is completed, an open intent is never replayed. */
    method Resume(i: nat, ghost v: Visit) returns (outcome: Outcome)
      requires Underway(i, v) && First(i)
      modifies this`life, this`records
      ensures After(i, v, outcome) && i < |old(records)|
      ensures outcome.Going? ==> !HasIntent(records[i]) && Fence(records[i], clock, At()) == None
      ensures outcome.Going? ==> (records[i].bound <==> old(records)[i].bound || TookEffect(old(records)[i], At()))
      ensures HasIntent(old(records[i])) ==> !outcome.Going?
    {
      var record := records[i];
      if TookEffect(record, At()) {
        assert RowHolds(records, delegations, ended, i);
        record := record.(checkoutRevision := record.checkoutRevision + 1, bound := true);
        :- Save(i, record, record.phase, None, v);
        record := records[i];
      }
      if HasIntent(record) { return Threw(EffectUncertain); }
      var code := Fence(record, clock, At());
      if code.Some? { return Threw(code.value); }
      if At().group(record.input.group).runtimeNotReady {
        outcome := Leave(i, record, Waiting, Some(RuntimeNotReady), v);
        return;
      }
      outcome := Going;
    }

    method CreateWorkspace(i: nat, ghost v: Visit) returns (outcome: Outcome)
      requires Underway(i, v) && First(i)
      modifies this`awaits, this`life, this`clock, this`records, this`delegations, this`ended, this`journal
      ensures After(i, v, outcome) && i < |old(records)|
      ensures outcome.Going? ==> records[i].stops == old(records)[i].stops && records[i].starts == old(records)[i].starts
      ensures outcome.Going? ==> records[i].checkout == old(records)[i].checkout && At().receipt.Some?
      ensures outcome.Going? ==> journal == old(journal) + [Entry(i, CreateWorktree, 0, true)]
    {
      assert RowHolds(records, delegations, ended, i);
      :- Save(i, records[i], Preparing, None, v);
      :- Perform(i, CreateWorktree, v);
      outcome := if At().receipt.None? then Threw(WorkspaceIncomplete) else Going;
    }

    /** Puts the target checkout on record; nothing is bound yet. */
    method Target(i: nat, checkout: Option<nat>, ghost v: Visit) returns (outcome: Outcome)
      requires Underway(i, v) && First(i) && records[i].checkout.None? && checkout.Some?
      modifies this`life, this`records
      ensures After(i, v, outcome) && i < |old(records)|
      ensures records[i] == Saved(old(records)[i].(checkout := checkout), old(records)[i].phase, None, clock)
    {
      assert RowHolds(records, delegations, ended, i);
      outcome := Save(i, records[i].(checkout := checkout), records[i].phase, None, v);
    }

    method EnsureCheckout(i: nat, ghost v: Visit) returns (outcome: Outcome)
      requires Underway(i, v) && First(i)
      modifies this`awaits, this`life, this`clock, this`records, this`delegations, this`ended, this`journal
      ensures After(i, v, outcome) && i < |old(records)|
      ensures outcome.Going? ==> records[i].stops == old(records)[i].stops && records[i].starts == old(records)[i].starts
      ensures outcome.Going? ==> records[i].checkout.Some?
      ensures outcome.Going? && old(records)[i].checkout.Some? ==> records == old(records) && journal == old(journal)
      ensures outcome.Going? && old(records)[i].checkout.None? && old(records)[i].input.workspace.Existing? ==>
                records[i].checkout == Some(records[i].original) && journal == old(journal)
      ensures outcome.Going? && old(records)[i].checkout.None? ==>
                if records[i].checkout == Some(records[i].original) && journal == old(journal) then !records[i].input.workspace.New?
                else records[i].checkout == At().receipt && journal == old(journal) + [Entry(i, CreateWorktree, 0, true)]
    {
      if records[i].checkout.Some? { return Going; }
      if records[i].original != records[i].source { :- Refresh(i, v); }
      var record := records[i];
      var current := At().checkout(record.original);
      if record.input.workspace.Existing?
         || (record.input.workspace.Auto? && current.kind.Linked? && !current.dirty && current.head == record.head && current.managed) {
        outcome := Target(i, Some(record.original), v);
      } else {
        :- CreateWorkspace(i, v);
        outcome := Target(i, At().receipt, v);
      }
    }

    /** Another unfinished preparation has this checkout. */
    method ReservedElsewhere(i: nat, checkout: Option<nat>) returns (reserved: bool)
      ensures reserved <==> exists j :: 0 <= j < |records| && j != i && records[j].checkout == checkout && !Finished(records[j].phase)
      ensures !reserved ==> Unrivalled(records, i, checkout)
    {
      reserved := false;
      for j := 0 to |records|
        invariant reserved <==> exists k :: 0 <= k < j && k != i && records[k].checkout == checkout && !Finished(records[k].phase)
      {
        if j != i && records[j].checkout == checkout && !Finished(records[j].phase) { reserved := true; }
      }
      if !reserved { forall k: nat ensures RivalHolds(records, i, checkout, k) {} }
    }

    method CheckTarget(i: nat, source: CheckoutView, ghost v: Visit) returns (outcome: Outcome)
      requires Underway(i, v) && First(i) && records[i].checkout.Some?
      modifies this`awaits, this`life, this`clock, this`records, this`delegations, this`ended
      ensures After(i, v, outcome) && i < |old(records)|
      ensures outcome.Going? ==> records[i] == old(records)[i] && Unrivalled(records, i, records[i].checkout)
      ensures outcome.Going? ==> Fence(records[i], clock, At()) == None && Suits(records[i], source, At())
    {
      outcome := Refresh(i, v);
      if !outcome.Going? { return; }
      var record := records[i];
      var checkout := record.checkout.value;
      if checkout != record.source { :- Refresh(i, v); }
      var refreshed := At().checkout(record.source);
      if refreshed.repository != source.repository || refreshed.identity != source.identity { return Threw(SourceChanged); }
      var code := Fence(record, clock, At());
      if code.Some? { return Threw(code.value); }
      var target := At().checkout(checkout);
      if target.repository != source.repository || !target.kind.Linked? || target.dirty { return Threw(WorkspaceUnsuitable); }
      if !record.bound && target.head != record.head { return Threw(BaseChanged); }
      var reserved := ReservedElsewhere(i, record.checkout);
      if target.taken(record.input.group) || reserved {
        outcome := Leave(i, record, Waiting, Some(CheckoutReserved), v);
        return;
      }
      if At().fault.Some? { return Threw(At().fault.value); }
      outcome := Going;
    }

    method IntendStop(i: nat, member: nat, run: nat, ghost v: Visit) returns (outcome: Outcome)
      requires Underway(i, v) && First(i) && !Stopped(records[i], run)
      requires Unrivalled(records, i, records[i].checkout)
      modifies this`life, this`records
      ensures After(i, v, outcome) && i < |old(records)|
      ensures outcome.Going? ==> records[i] == Saved(WithStop(old(records)[i], member, run), Stopping, None, clock)
      ensures outcome.Going? ==> Unrivalled(records, i, records[i].checkout) && Stopped(records[i], run) && NotYet(journal, i, StopRun(run))
      ensures outcome.Going? ==> forall r: nat :: Stopped(records[i], r) ==> r == run || Stopped(old(records)[i], r)
    {
      var record := records[i];
      if exists a :: 0 <= a < |record.stops| && record.stops[a].member == member && !record.stops[a].done {
        return Threw(StopUncertain);
      }
      NotStarted(records, delegations, ended, journal, i, StopRun(run));
      assert RowHolds(records, delegations, ended, i);
      StopIntended(record, member, run, delegations, ended, Stopping, clock);
      outcome := Save(i, WithStop(record, member, run), Stopping, None, v);
    }

    /** The stop took effect: the run is over, and the step says so. */
    method ConfirmStop(i: nat, member: nat, run: nat, ghost was: Record, ghost v: Visit) returns (outcome: Outcome)
      requires Underway(i, v) && First(i) && records[i].stops == was.stops + [Step(member, Some(run), false)]
      modifies this`life, this`records, this`ended
      ensures After(i, v, outcome) && i < |old(records)| && ended == old(ended) + {run}
      ensures records[i].stops == was.stops + [Step(member, Some(run), true)] && records[i].checkout == old(records)[i].checkout
      ensures forall r: nat :: Stopped(records[i], r) ==> r == run || Stopped(was, r)
      ensures forall c :: Unrivalled(old(records), i, c) ==> Unrivalled(records, i, c)
    {
      EndedSound(records, delegations, ended, journal, {run});
      ended := ended + {run};
      assert RowHolds(records, delegations, ended, i);
      StopConfirmed(records[i], was, member, run, delegations, ended, clock);
      outcome := Save(i, WithStopDone(records[i], member, run), records[i].phase, None, v);
    }

    /** Stops one run behind an intent on record. */
    method StopOne(i: nat, member: nat, run: nat, ghost v: Visit) returns (outcome: Outcome)
      requires Underway(i, v) && First(i) && !Stopped(records[i], run)
      requires Unrivalled(records, i, records[i].checkout)
      modifies this`awaits, this`life, this`clock, this`records, this`delegations, this`ended, this`journal
      ensures After(i, v, outcome) && i < |old(records)|
      ensures outcome.Going? ==> records[i].checkout == old(records)[i].checkout && Unrivalled(records, i, records[i].checkout)
      ensures outcome.Going? ==> forall r: nat :: Stopped(records[i], r) ==> r == run || Stopped(old(records)[i], r)
      ensures outcome.Going? ==> records[i].stops == old(records)[i].stops + [Step(member, Some(run), true)]
      ensures old(ended) <= ended && (outcome.Going? ==> run in ended && journal == old(journal) + [Entry(i, StopRun(run), 0, true)])
    {
      ghost var record := records[i];
      :- IntendStop(i, member, run, v);
      :- Perform(i, StopRun(run), v);
      outcome := ConfirmStop(i, member, run, record, v);
    }

    /** Stops every run of the team that requires it. */
    method StopRuns(i: nat, ghost v: Visit) returns (outcome: Outcome)
      requires Underway(i, v) && First(i) && !HasIntent(records[i])
      requires Unrivalled(records, i, records[i].checkout)
      modifies this`awaits, this`life, this`clock, this`records, this`delegations, this`ended, this`journal
      ensures After(i, v, outcome) && i < |old(records)|
      ensures outcome.Going? ==> records[i].checkout == old(records)[i].checkout && Unrivalled(records, i, records[i].checkout)
      ensures outcome.Going? ==> forall run :: Lists(old(At()).group(old(records)[i].input.group).requiringStop, run) ==> run in ended
    {
      var runs := Live(At().group(records[i].input.group).requiringStop, ended);
      assert RowHolds(records, delegations, ended, i);
      LiveUnstopped(records[i], At().group(records[i].input.group).requiringStop, delegations, ended);
      for k := 0 to |runs|
        invariant Underway(i, v) && First(i) && i < |old(records)|
        invariant records[i].checkout == old(records)[i].checkout && Unrivalled(records, i, records[i].checkout)
        invariant forall j :: k <= j < |runs| ==> !Stopped(records[i], runs[j].1)
        invariant old(ended) <= ended && forall j :: 0 <= j < k ==> runs[j].1 in ended
      {
        :- StopOne(i, runs[k].0, runs[k].1, v);
      }
      forall run | Lists(old(At()).group(old(records)[i].input.group).requiringStop, run) ensures run in ended {
        LiveComplete(old(At()).group(old(records)[i].input.group).requiringStop, old(ended), run);
      }
      outcome := Going;
    }

    /** Switches the team to the target checkout once its runs are stopped. */
    method Reassign(i: nat, ghost v: Visit) returns (outcome: Outcome)
      requires Underway(i, v) && First(i) && !HasIntent(records[i])
      requires records[i].checkout.Some? && Unrivalled(records, i, records[i].checkout)
      modifies this`awaits, this`life, this`clock, this`records, this`delegations, this`ended, this`journal
      ensures After(i, v, outcome) && i < |old(records)|
      ensures outcome.Going? ==> records[i].assignmentPending && records[i].checkout == old(records)[i].checkout
      ensures outcome.Going? ==> Switched(journal, i, records[i].checkout)
      ensures outcome.Going? ==> forall run :: Lists(old(At()).group(old(records)[i].input.group).requiringStop, run) ==> run in ended
    {
      outcome := StopRuns(i, v);
      if !outcome.Going? { return; }
      assert RowHolds(records, delegations, ended, i);
      :- Save(i, records[i].(assignmentPending := true), Assigning, None, v);
      outcome := Perform(i, AssignCheckout(records[i].checkout.value), v);
    }

    /** Binds the team to the target checkout, switching first if it is not the one the team already has. */
    method Bind(i: nat, ghost v: Visit) returns (outcome: Outcome)
      requires Underway(i, v) && First(i) && !HasIntent(records[i])
      requires records[i].checkout.Some? && Unrivalled(records, i, records[i].checkout)
      modifies this`awaits, this`life, this`clock, this`records, this`delegations, this`ended, this`journal
      ensures After(i, v, outcome) && i < |old(records)|
      ensures outcome.Going? ==> records[i].bound && records[i].checkout == old(records)[i].checkout
      ensures outcome.Going? && !old(records)[i].bound && old(records)[i].checkout != Some(old(records)[i].original) ==>
                && Switched(journal, i, records[i].checkout)
                && forall run :: Lists(old(At()).group(old(records)[i].input.group).requiringStop, run) ==> run in ended
    {
      var revision := records[i].checkoutRevision;
      if !records[i].bound && records[i].checkout != Some(records[i].original) {
        :- Reassign(i, v);
        revision := At().group(records[i].input.group).checkoutRevision;
      }
      assert RowHolds(records, delegations, ended, i);
      outcome := Save(i, records[i].(checkoutRevision := revision, bound := true), records[i].phase, None, v);
    }

    method IntendStart(i: nat, member: nat, ghost v: Visit) returns (outcome: Outcome)
      requires Underway(i, v) && First(i)
      modifies this`life, this`records
      ensures After(i, v, outcome) && i < |old(records)|
      ensures outcome.Going? ==> records[i] == Saved(WithStart(old(records)[i], member), Starting, None, clock)
      ensures outcome.Going? ==> Started(records[i], member) && NotYet(journal, i, StartMember(member))
      ensures !outcome.Returned?
    {
      var record := records[i];
      if exists a :: 0 <= a < |record.starts| && record.starts[a].member == member { return Threw(StartUncertain); }
      NotStarted(records, delegations, ended, journal, i, StartMember(member));
      assert RowHolds(records, delegations, ended, i);
      StartIntended(record, member, delegations, ended, clock);
      outcome := Save(i, WithStart(record, member), Starting, None, v);
    }

    method ConfirmStart(i: nat, member: nat, ghost was: Record, ghost v: Visit) returns (outcome: Outcome)
      requires Underway(i, v) && First(i) && records[i].starts == was.starts + [Step(member, None, false)]
      modifies this`life, this`records
      ensures After(i, v, outcome) && i < |old(records)|
      ensures records[i].starts == was.starts + [Step(member, Some(At().launched), true)] && !outcome.Returned?
      ensures records[i].bound == old(records)[i].bound && records[i].input == old(records)[i].input
    {
      assert RowHolds(records, delegations, ended, i);
      StartConfirmed(records[i], was, member, Some(At().launched), delegations, ended, clock);
      outcome := Save(i, WithStartDone(records[i], member, Some(At().launched)), records[i].phase, None, v);
    }

    /** Launch consent is asked for behind the fence, which is checked again before the launch. */
    method AskConsent(i: nat, member: nat, ghost v: Visit) returns (outcome: Outcome)
      requires Underway(i, v) && First(i)
      modifies this`awaits, this`life, this`clock, this`records, this`delegations, this`ended
      ensures After(i, v, outcome) && i < |old(records)| && records[i] == old(records)[i] && old(awaits) <= awaits && !outcome.Returned?
    {
      outcome := Await(i, v);
      if !outcome.Going? { return; }
      var code := Fence(records[i], clock, At());
      if code.Some? { return Threw(code.value); }
      if At().barred(StartMember(member)).Some? { return Threw(At().barred(StartMember(member)).value); }
      outcome := Await(i, v);
      if outcome.Going? && At().fault.Some? { outcome := Threw(At().fault.value); }
    }

    /** Starts one member behind an intent on record; a launch that needs approval or is denied holds the preparation. */
    method StartOne(i: nat, member: nat, ghost v: Visit) returns (outcome: Outcome)
      requires Underway(i, v) && First(i)
      modifies this`awaits, this`life, this`clock, this`records, this`delegations, this`ended, this`journal
      ensures After(i, v, outcome) && i < |old(records)|
      ensures outcome.Going? ==> records[i].bound == old(records)[i].bound && journal == old(journal) + [Entry(i, StartMember(member), 0, true)]
      ensures outcome.Going? ==> records[i].starts == old(records)[i].starts + [Step(member, Some(At().launched), true)]
      ensures outcome.Going? ==> records[i].input == old(records)[i].input && old(awaits) <= awaits
      ensures outcome.Returned? ==> records[i].phase.Held?
    {
      ghost var record := records[i];
      :- IntendStart(i, member, v);
      :- AskConsent(i, member, v);
      if !At().consents {
        outcome := Leave(i, records[i], Held, Some(ProviderLaunch), v);
        return;
      }
      :- Perform(i, StartMember(member), v);
      outcome := ConfirmStart(i, member, record, v);
    }

    /** The member was seen active since, or its start is confirmed. */
    ghost predicate Up(i: nat, member: nat, since: nat)
      reads this
      requires i < |records|
    {
      || (exists t: nat :: since <= t <= awaits && world(t).group(records[i].input.group).active(member))
      || (exists s :: s in records[i].starts && s.member == member && s.done && s.run.Some?)
    }

    method StartMembers(i: nat, ghost v: Visit) returns (outcome: Outcome)
      requires Underway(i, v) && First(i)
      modifies this`awaits, this`life, this`clock, this`records, this`delegations, this`ended, this`journal
      ensures After(i, v, outcome) && i < |old(records)|
      ensures outcome.Going? ==> records[i].bound == old(records)[i].bound
      ensures outcome.Returned? ==> records[i].phase.Held?
      ensures outcome.Going? ==> forall m :: m in old(At()).group(old(records)[i].input.group).members ==> Up(i, m, old(awaits))
    {
      ghost var group := records[i].input.group;
      var members := At().group(records[i].input.group).members;
      for k := 0 to |members|
        invariant Underway(i, v) && First(i) && i < |old(records)| && records[i].bound == old(records)[i].bound
        invariant records[i].input.group == group && old(awaits) <= awaits
        invariant forall j :: 0 <= j < k ==> Up(i, members[j], old(awaits))
      {
        if !At().group(records[i].input.group).active(members[k]) {
          :- StartOne(i, members[k], v);
        }
      }
      outcome := Going;
    }

    /** The delegation recorded for a preparation. */
    method FindDelegation(record: Record) returns (d: nat)
      ensures d <= |delegations| && (d < |delegations| ==> Names(delegations[d], record))
      ensures d == |delegations| ==> forall k :: 0 <= k < |delegations| ==> !Names(delegations[k], record)
    {
      d := 0;
      while d < |delegations| && !Names(delegations[d], record)
        invariant d <= |delegations| && forall k :: 0 <= k < d ==> !Names(delegations[k], record)
      {
        d := d + 1;
      }
    }

    /** Records the delegation of a preparation, once, and finishes it. */
    method RecordDelegation(i: nat, checkout: nat, ghost v: Visit) returns (outcome: Outcome)
      requires Underway(i, v)
      modifies this`life, this`records, this`delegations
      ensures After(i, v, outcome) && !outcome.Going? && i < |old(records)| && old(delegations) <= delegations
      ensures outcome.Returned? ==> records[i].phase.Delegated?
      ensures records[i].starts == old(records)[i].starts && records[i].input == old(records)[i].input
      ensures var input := old(records)[i].input;
              delegations == Delegate(old(delegations), Delegation(input.goal, OfPreparation(i), input.group, input.member, input.brief, checkout))
    {
      var record := records[i];
      var input := record.input;
      var delegation := Delegation(input.goal, OfPreparation(i), input.group, input.member, input.brief, checkout);
      DelegateSound(records, delegations, ended, journal, delegation);
      delegations := Delegate(delegations, delegation);
      :- Pulse();
      var d := FindDelegation(record);
      if d == |delegations| || delegations[d].group != input.group || delegations[d].member != input.member || delegations[d].brief != input.brief {
        return Threw(PreparationConflict);
      }
      assert RowHolds(records, delegations, ended, i);
      :- Save(i, record.(delegation := Some(d)), Delegated, None, v);
      outcome := Returned;
    }

    method Handover(i: nat, ghost v: Visit) returns (outcome: Outcome)
      requires Underway(i, v) && First(i) && records[i].bound
      modifies this`life, this`records, this`delegations
      ensures After(i, v, outcome) && !outcome.Going? && i < |old(records)|
      ensures outcome.Returned? && Finished(records[i].phase) ==> records[i].phase.Delegated?
      ensures records[i].starts == old(records)[i].starts && records[i].input == old(records)[i].input
    {
      var record := records[i];
      var group := At().group(record.input.group);
      assert RowHolds(records, delegations, ended, i);
      var code := Fence(record, clock, At());
      if code.Some? { return Threw(code.value); }
      if group.notReady.Some? {
        outcome := Leave(i, record, Waiting, group.notReady, v);
        return;
      }
      if !group.reporters {
        outcome := Leave(i, record, Waiting, Some(ReporterReadiness), v);
        return;
      }
      :- Save(i, record, Delegating, None, v);
      if At().fault.Some? { return Threw(At().fault.value); }
      outcome := RecordDelegation(i, group.effective.value, v);
    }

    /** Starts the members that are not up and hands the outcome over. */
    method Staff(i: nat, ghost v: Visit) returns (outcome: Outcome)
      requires Underway(i, v) && First(i) && records[i].bound
      modifies this`awaits, this`life, this`clock, this`records, this`delegations, this`ended, this`journal
      ensures After(i, v, outcome) && !outcome.Going? && i < |old(records)|
      ensures outcome.Returned? && records[i].phase.Delegated? ==>
                forall m :: m in old(At()).group(old(records)[i].input.group).members ==> Up(i, m, old(awaits))
    {
      outcome := StartMembers(i, v);
      if !outcome.Going? { return; }
      outcome := Handover(i, v);
    }

    /** `#advance`. */
    method Advance(i: nat, ghost v: Visit) returns (outcome: Outcome)
      requires Underway(i, v)
      modifies this`awaits, this`life, this`clock, this`records, this`delegations, this`ended, this`journal
      ensures After(i, v, outcome) && !outcome.Going? && i < |old(records)|
      ensures HasIntent(old(records[i])) ==> journal == old(journal)
    {
      outcome := Admit(i, v);
      if !outcome.Going? { return; }
      :- Resume(i, v);
      var source := At().checkout(records[i].source);
      :- EnsureCheckout(i, v);
      :- CheckTarget(i, source, v);
      :- Bind(i, v);
      if records[i].input.operation.Prepare? {
        outcome := Leave(i, records[i], Ready, None, v);
        return;
      }
      outcome := Staff(i, v);
    }

    // -------------------------------------------------------------- the reconciler

    /** A delegation on record finishes its preparation; one that does not match is an error. */
    method ReconcileDelegation(i: nat, ghost v: Visit) returns (outcome: Outcome)
      requires Underway(i, v)
      modifies this`life, this`records
      ensures Valid() && v.past <= journal && v.since <= clock && Progress(i, v.rows, v.since, records) && i < |old(records)|
      ensures outcome.Going? ==> records == old(records) && forall k :: 0 <= k < |delegations| ==> !Names(delegations[k], records[i])
      ensures outcome.Threw? ==> records == old(records)
      ensures !outcome.Going? ==> exists k :: 0 <= k < |delegations| && Names(delegations[k], old(records)[i])
      ensures outcome.Returned? ==> v.since + 1000 <= records[i].nextAttempt && Reconciled(old(records)[i], records[i], delegations, At())
      ensures outcome.Threw? ==> exists k :: 0 <= k < |delegations| && Names(delegations[k], old(records)[i]) && !Matches(delegations[k], old(records)[i])
    {
      var record := records[i];
      var d := FindDelegation(record);
      if d == |delegations| { return Going; }
      assert RowHolds(records, delegations, ended, i);
      if !Matches(delegations[d], record) { return Threw(PreparationConflict); }
      var phase := if At().delegationCancelled(delegations[d]) then Cancelled else Delegated;
      :- Save(i, record.(delegation := Some(d)), phase, None, v);
      outcome := Returned;
    }

    method Retry(i: nat, code: Code, ghost v: Visit) returns (outcome: Outcome)
      requires Underway(i, v)
      modifies this`life, this`records
      ensures Valid() && v.past <= journal && v.since <= clock && Progress(i, v.rows, v.since, records) && i < |old(records)|
      ensures (outcome.Returned? || outcome.Died?) && v.since + 1000 <= records[i].nextAttempt
      ensures records[i] == Saved(old(records)[i].(retries := old(records)[i].retries + 1), AfterError(code, Running), Some(code), clock)
    {
      assert RowHolds(records, delegations, ended, i);
      :- Save(i, records[i].(retries := records[i].retries + 1), AfterError(code, Running), Some(code), v);
      outcome := Returned;
    }

    /** An error of `#advance`: retried later, held for inspection, or the end of the preparation. */
    method Recover(i: nat, code: Code, ghost v: Visit) returns (outcome: Outcome)
      requires Underway(i, v)
      modifies this`life, this`records
      ensures Valid() && v.past <= journal && v.since <= clock && Progress(i, v.rows, v.since, records) && i < |old(records)|
      ensures !outcome.Going? && (outcome.Returned? ==> v.since + 1000 <= records[i].nextAttempt)
      ensures outcome.Threw? ==> records == old(records)
      ensures outcome.Returned? && (forall k :: 0 <= k < |delegations| ==> !Names(delegations[k], old(records)[i])) ==>
                records[i].phase == AfterError(code, At().goal(old(records)[i].input.goal).state)
    {
      outcome := ReconcileDelegation(i, v);
      if !outcome.Going? { return; }
      var record := records[i];
      var state := At().goal(record.input.goal).state;
      if !state.Running? {
        outcome := Leave(i, record, AfterError(code, state), Some(GoalStopped), v);
        return;
      }
      outcome := Retry(i, code, v);
    }

    /** The checks before an attempt. */
    method Decide(i: nat, ghost v: Visit) returns (outcome: Outcome)
      requires Underway(i, v)
      modifies this`life, this`records
      ensures Valid() && v.past <= journal && v.since <= clock && Progress(i, v.rows, v.since, records) && i < |old(records)|
      ensures outcome.Going? ==> records == old(records) && clock < records[i].deadline
      ensures outcome.Going? ==> forall k :: 0 <= k < |delegations| ==> !Names(delegations[k], records[i])
    {
      outcome := ReconcileDelegation(i, v);
      if !outcome.Going? { return; }
      var record := records[i];
      var state := At().goal(record.input.goal).state;
      if state.Completed? || state.GoalCancelled? {
        outcome := Leave(i, record, Cancelled, Some(GoalStopped), v);
      } else if record.deadline <= clock {
        outcome := Leave(i, record, Expired, Some(DeadlineExceeded), v);
      } else if !state.Running? {
        outcome := Leave(i, record, Waiting, Some(GoalPaused), v);
      } else {
        outcome := Going;
      }
    }

    method Attempt(i: nat, ghost v: Visit) returns (outcome: Outcome)
      requires Underway(i, v)
      modifies this`awaits, this`life, this`clock, this`records, this`delegations, this`ended, this`journal
      ensures Valid() && v.past <= journal && v.since <= clock && Progress(i, v.rows, v.since, records) && i < |old(records)|
      ensures outcome.Died? || outcome.Threw? || (outcome.Returned? && v.since + 1000 <= records[i].nextAttempt)
      ensures HasIntent(old(records)[i]) ==> journal == old(journal)
    {
      outcome := Advance(i, v);
      if outcome.Threw? { outcome := Recover(i, outcome.code, v); }
    }

    /** One row of `#reconcile`. */
    method Reconcile(i: nat) returns (outcome: Outcome)
      requires Valid() && Timed(records, attempts, cutShort) && i < |records|
      modifies this
      ensures Valid() && Timed(records, attempts, cutShort) && old(journal) <= journal && |old(records)| <= |records|
      ensures forall j: nat :: j < |old(records)| && (j != i || Finished(old(records)[j].phase)) ==> records[j] == old(records)[j]
      ensures HasIntent(old(records)[i]) ==> journal == old(journal)
      ensures (exists d :: 0 <= d < |old(delegations)| && Names(old(delegations)[d], old(records)[i])) ==>
                journal == old(journal) && delegations == old(delegations)
      ensures cutShort == old(cutShort) + if (outcome.Died? || outcome.Threw?) && attempts != old(attempts) then multiset{i} else multiset{}
    {
      if Finished(records[i].phase) || records[i].nextAttempt > clock { return Going; }
      ghost var v := Visit(records, clock, journal);
      ProgressStart(i, records, clock);
      outcome := Decide(i, v);
      if outcome.Going? {
        assert RowHolds(records, delegations, ended, i);
        outcome := Attempt(i, v);
        ghost var cut := outcome.Died? || outcome.Threw?;
        TimedAttempt(v.rows, records, attempts, cutShort, v.since, i, cut);
        assert multiset{i}[i] == 1 && (attempts + multiset{i})[i] == attempts[i] + 1;
        attempts := attempts + multiset{i};
        if cut { cutShort := cutShort + multiset{i}; }
      } else {
        TimedVisit(v.rows, records, attempts, cutShort, v.since, i);
      }
      forall j: nat | j < |v.rows| && j != i ensures records[j] == v.rows[j] { assert OtherHolds(i, v.rows, records, j); }
    }

    /** `#reconcile`: the rows there were at the start, in order, until the daemon dies or an error escapes. */
    method Tick() returns (outcome: Outcome)
      requires Valid() && Timed(records, attempts, cutShort)
      modifies this
      ensures Valid() && Timed(records, attempts, cutShort) && old(journal) <= journal && |old(records)| <= |records|
      ensures forall j: nat :: j < |old(records)| && Finished(old(records)[j].phase) ==> records[j] == old(records)[j]
    {
      var n := |records|;
      for i := 0 to n
        invariant Valid() && Timed(records, attempts, cutShort) && old(journal) <= journal && n == |old(records)| <= |records|
        invariant forall j: nat :: j < n && Finished(old(records)[j].phase) ==> records[j] == old(records)[j]
      {
        outcome := Reconcile(i);
        if outcome.Died? || outcome.Threw? { return; }
      }
      outcome := Going;
    }

    /**
     Any number of daemon lifetimes, each dying after any number of durable steps: every preparation that
     was finished stays as it was and names its result; no stop and no start happens twice, and none unless the
     fence was open and its preparation first in line; no preparation yields two delegations; no two unfinished
     ones hold one checkout; and none is advanced more than 600 times, but for the times the daemon died or an
     error escaped meanwhile.
     */
    method Serve(lifetimes: seq<(nat, nat)>)
      requires Valid() && Timed(records, attempts, cutShort)
      modifies this
      ensures Valid() && Timed(records, attempts, cutShort) && old(journal) <= journal && |old(records)| <= |records|
      ensures forall j: nat :: j < |old(records)| && Finished(old(records)[j].phase) ==> records[j] == old(records)[j]
      ensures forall id: nat, effect: Effect :: effect.StopRun? || effect.StartMember? ==> Count(journal, IsEntry(id, effect)) <= 1
      ensures forall k :: 0 <= k < |journal| ==> journal[k].ahead == 0 && journal[k].fenced
      ensures forall record: Record :: Count(delegations, IsFor(record)) <= 1
      ensures forall i, j :: 0 <= i < j < |records| && Claims(records[i]) && Claims(records[j]) ==> records[i].checkout != records[j].checkout
      ensures forall i: nat :: attempts[i] <= 600 + cutShort[i]
      ensures forall i :: 0 <= i < |records| && records[i].phase.Delegated? ==>
                records[i].delegation.Some? && records[i].delegation.value < |delegations|
                && Fulfils(delegations[records[i].delegation.value], records[i].input, i)
      ensures forall i :: 0 <= i < |records| && records[i].phase.Ready? ==> records[i].bound && records[i].input.operation.Prepare?
    {
      Repeat(lifetimes);
      forall id: nat, effect: Effect | effect.StopRun? || effect.StartMember? ensures Count(journal, IsEntry(id, effect)) <= 1 {
        EffectsHappenOnce(records, delegations, ended, journal, id, effect);
      }
      forall record: Record ensures Count(delegations, IsFor(record)) <= 1 {
        DelegatesOnce(records, delegations, ended, journal, record);
      }
      NeverConflict(records, delegations, ended, journal);
      forall i: nat ensures attempts[i] <= 600 + cutShort[i] { AttemptsAreBounded(records, attempts, cutShort, i); }
      forall i: nat | i < |records|
        ensures records[i].phase.Delegated? ==>
                  records[i].delegation.Some? && records[i].delegation.value < |delegations|
                  && Fulfils(delegations[records[i].delegation.value], records[i].input, i)
        ensures records[i].phase.Ready? ==> records[i].bound && records[i].input.operation.Prepare?
      {
        FinishedRowsNameTheirResult(records, delegations, ended, journal, i);
      }
    }

    method Repeat(lifetimes: seq<(nat, nat)>)
      requires Valid() && Timed(records, attempts, cutShort)
      modifies this
      ensures Valid() && Timed(records, attempts, cutShort) && old(journal) <= journal && |old(records)| <= |records|
      ensures forall j: nat :: j < |old(records)| && Finished(old(records)[j].phase) ==> records[j] == old(records)[j]
    {
      for k := 0 to |lifetimes|
        invariant Valid() && Timed(records, attempts, cutShort) && old(journal) <= journal && |old(records)| <= |records|
        invariant forall j: nat :: j < |old(records)| && Finished(old(records)[j].phase) ==> records[j] == old(records)[j]
      {
        life := lifetimes[k].0;
        var ticks := lifetimes[k].1;
        while ticks > 0
          invariant Valid() && Timed(records, attempts, cutShort) && old(journal) <= journal && |old(records)| <= |records|
          invariant forall j: nat :: j < |old(records)| && Finished(old(records)[j].phase) ==> records[j] == old(records)[j]
        {
          ghost var was := records;
          Arrive();
          TimedArrivals(was, records, attempts, cutShort);
          var outcome := Tick();
          if outcome.Died? { break; }
          ticks := ticks - 1;
        }
      }
    }
  }
}
