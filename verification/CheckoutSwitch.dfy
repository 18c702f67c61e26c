/**
 Switching a team to another checkout (`assignGroupCheckout` in `apps/daemon/src/run-runtime-coordinator.ts`):
 nothing of the team runs when the checkout changes, and a failed stop leaves it unchanged.
 */
module CheckoutSwitch {
  datatype Policy = RequireStopped | StopAndSwitch | StopSwitchRestart
  datatype Outcome = NotRunning | Stopped(run: nat) | Restarted | Withheld | Failed(run: nat)
  datatype Run = Run(member: nat, id: nat)

  /** The rest of the daemon after an `await`: runs that now require a stop, and how the awaited call ends. */
  datatype Moment = Moment(appeared: seq<Run>, fails: bool, fenced: bool, available: bool, consents: bool)

  /** What the operation did, in order; a switch records how many runs of the team required a stop just then. */
  datatype Act = DidStop(member: nat) | DidSwitch(checkout: nat, running: nat) | DidLaunch(member: nat)

  datatype Result = Switched(outcomes: map<nat, Outcome>) | Refused(outcomes: map<nat, Outcome>)

  function Without(runs: seq<Run>, member: nat): seq<Run> {
    if runs == [] then []
    else Without(runs[..|runs| - 1], member) + if runs[|runs| - 1].member == member then [] else [runs[|runs| - 1]]
  }

  /** A stop removes the runs of its member and no others. */
  lemma {:induction false} WithoutExact(runs: seq<Run>, member: nat, run: Run)
    ensures run in Without(runs, member) <==> run in runs && run.member != member
  {
    if runs != [] {
      assert runs == runs[..|runs| - 1] + [runs[|runs| - 1]];
      WithoutExact(runs[..|runs| - 1], member, run);
    }
  }

  /** One stop for each run, in order. */
  function StopsOf(runs: seq<Run>): (acts: seq<Act>)
    ensures |acts| == |runs| && OnlyStops(acts)
  {
    if runs == [] then [] else StopsOf(runs[..|runs| - 1]) + [DidStop(runs[|runs| - 1].member)]
  }

  /** The runs that still require a stop after each of `runs` was stopped, the daemon moving on before every stop. */
  function Remaining(world: nat -> Moment, since: nat, requiring: seq<Run>, runs: seq<Run>): seq<Run> {
    if runs == [] then requiring
    else Without(Remaining(world, since, requiring, runs[..|runs| - 1]) + world(since + |runs|).appeared, runs[|runs| - 1].member)
  }

  /** None of the `n` awaited stops after `since` fails. */
  ghost predicate AllStop(world: nat -> Moment, since: nat, n: nat) {
    forall t: nat :: since < t <= since + n ==> !world(t).fails
  }

  lemma {:induction false} RemainingMore(world: nat -> Moment, since: nat, requiring: seq<Run>, runs: seq<Run>, k: nat)
    requires k < |runs|
    ensures Remaining(world, since, requiring, runs[..k + 1]) ==
            Without(Remaining(world, since, requiring, runs[..k]) + world(since + k + 1).appeared, runs[k].member)
  {
    var front := runs[..k + 1];
    assert |front| == k + 1 && front[..k] == runs[..k] && front[k] == runs[k];
  }

  lemma {:induction false} StopsMore(runs: seq<Run>, k: nat)
    requires k < |runs|
    ensures StopsOf(runs[..k + 1]) == StopsOf(runs[..k]) + [DidStop(runs[k].member)]
  {
    var front := runs[..k + 1];
    assert |front| == k + 1 && front[..k] == runs[..k] && front[k] == runs[k];
  }

  lemma {:induction false} AllStopMore(world: nat -> Moment, since: nat, k: nat, n: nat)
    requires k < n
    ensures AllStop(world, since, k + 1) <==> AllStop(world, since, k) && !world(since + k + 1).fails
    ensures world(since + k + 1).fails ==> !AllStop(world, since, n)
  {
    if AllStop(world, since, k) && !world(since + k + 1).fails {
      forall t: nat | since < t <= since + k + 1 ensures !world(t).fails {
        if t == since + k + 1 { assert !world(t).fails; }
      }
    }
  }

  /** How a relaunch ended: a launch is on record for a member that was restarted. */
  predicate Relaunched(outcome: Outcome, member: nat, launches: seq<Act>) {
    (outcome.Restarted? && DidLaunch(member) in launches) || outcome.Withheld? || outcome.Failed?
  }

  lemma {:induction false} RelaunchedMore(outcomes: map<nat, Outcome>, runs: seq<Run>, launches: seq<Act>, more: seq<Act>)
    requires forall run :: run in runs ==> run.member in outcomes && Relaunched(outcomes[run.member], run.member, launches)
    ensures forall run :: run in runs ==> Relaunched(outcomes[run.member], run.member, launches + more)
  {
    forall run | run in runs ensures Relaunched(outcomes[run.member], run.member, launches + more) {
      if outcomes[run.member].Restarted? {
        var k :| 0 <= k < |launches| && launches[k] == DidLaunch(run.member);
        assert (launches + more)[k] == DidLaunch(run.member);
      }
    }
  }

  predicate OnlyStops(acts: seq<Act>) {
    forall k :: 0 <= k < |acts| ==> acts[k].DidStop?
  }

  predicate OnlyLaunches(acts: seq<Act>) {
    forall k :: 0 <= k < |acts| ==> acts[k].DidLaunch?
  }

  class Team {
    const world: nat -> Moment
    const members: seq<nat>
    var awaits: nat
    /** The team's runs that require a stop before its checkout may change. */
    var requiring: seq<Run>
    var checkout: nat
    var revision: nat
    ghost var journal: seq<Act>

    constructor (world: nat -> Moment, members: seq<nat>, requiring: seq<Run>, checkout: nat, revision: nat)
      ensures this.world == world && this.members == members && this.requiring == requiring
      ensures this.checkout == checkout && this.revision == revision && journal == []
    {
      this.world, this.members, this.requiring, this.checkout, this.revision := world, members, requiring, checkout, revision;
      awaits, journal := 0, [];
    }

    function At(): Moment
      reads this
    {
      world(awaits)
    }

    method Await()
      modifies this`awaits, this`requiring
      ensures awaits == old(awaits) + 1 && requiring == old(requiring) + At().appeared
    {
      awaits := awaits + 1;
      requiring := requiring + At().appeared;
    }

    /** `validateGroupCheckoutAssignment`. */
    predicate Assignable(expected: nat)
      reads this
    {
      revision == expected && At().available
    }

    method StopRun(member: nat) returns (stopped: bool)
      modifies this`awaits, this`requiring, this`journal
      ensures journal == if stopped then old(journal) + [DidStop(member)] else old(journal)
      ensures awaits == old(awaits) + 1 && (stopped <==> !At().fails)
      ensures requiring == if stopped then Without(old(requiring) + At().appeared, member) else old(requiring) + At().appeared
    {
      Await();
      if At().fails { return false; }
      requiring := Without(requiring, member);
      journal := journal + [DidStop(member)];
      stopped := true;
    }

    /** The store's own assignment, which checks once more that nothing runs. */
    method Switch(target: nat, expected: nat) returns (switched: bool)
      modifies this`checkout, this`revision, this`journal
      ensures switched <==> old(Assignable(expected)) && requiring == []
      ensures switched ==> checkout == target && revision == expected + 1 && journal == old(journal) + [DidSwitch(target, 0)]
      ensures !switched ==> checkout == old(checkout) && revision == old(revision) && journal == old(journal)
    {
      if !Assignable(expected) || requiring != [] { return false; }
      journal := journal + [DidSwitch(target, |requiring|)];
      checkout, revision := target, revision + 1;
      switched := true;
    }

    /** A consent that is withheld, or a launch that fails, leaves the member stopped. */
    method RelaunchOne(run: Run) returns (outcome: Outcome)
      modifies this`awaits, this`requiring, this`journal
      ensures journal == old(journal) + if outcome.Restarted? then [DidLaunch(run.member)] else []
      ensures outcome == if !world(old(awaits) + 1).consents then Withheld else if world(old(awaits) + 2).fails then Failed(run.id) else Restarted
    {
      Await();
      if !At().consents { return Withheld; }
      Await();
      if At().fails { return Failed(run.id); }
      journal := journal + [DidLaunch(run.member)];
      outcome := Restarted;
    }

    method Relaunch(runs: seq<Run>, stopped: map<nat, Outcome>) returns (outcomes: map<nat, Outcome>, ghost launches: seq<Act>)
      modifies this`awaits, this`requiring, this`journal
      ensures journal == old(journal) + launches && OnlyLaunches(launches)
      ensures outcomes.Keys == stopped.Keys + set run | run in runs :: run.member
      ensures forall member :: member in stopped && (forall run :: run in runs ==> run.member != member) ==> outcomes[member] == stopped[member]
      ensures forall run :: run in runs ==> Relaunched(outcomes[run.member], run.member, launches)
    {
      outcomes, launches := stopped, [];
      for k := 0 to |runs|
        invariant journal == old(journal) + launches && OnlyLaunches(launches)
        invariant outcomes.Keys == stopped.Keys + set run | run in runs[..k] :: run.member
        invariant forall member :: member in stopped && (forall run :: run in runs ==> run.member != member) ==> outcomes[member] == stopped[member]
        invariant forall run :: run in runs[..k] ==> Relaunched(outcomes[run.member], run.member, launches)
      {
        assert runs[..k + 1] == runs[..k] + [runs[k]];
        var outcome := RelaunchOne(runs[k]);
        ghost var more := if outcome.Restarted? then [DidLaunch(runs[k].member)] else [];
        assert old(journal) + (launches + more) == old(journal) + launches + more;
        RelaunchedMore(outcomes, runs[..k], launches, more);
        assert outcome.Restarted? ==> (launches + more)[|launches|] == DidLaunch(runs[k].member);
        outcomes, launches := outcomes[runs[k].member := outcome], launches + more;
      }
      assert runs[..|runs|] == runs;
    }

    /** The first `k` runs were stopped, one await each. */
    ghost predicate Halfway(runs: seq<Run>, k: nat, since: nat, before: seq<Run>, acts: seq<Act>)
      reads this
      requires k <= |runs|
    {
      && journal == acts + StopsOf(runs[..k]) && awaits == since + k
      && AllStop(world, since, k) && requiring == Remaining(world, since, before, runs[..k])
    }

    method StopNext(runs: seq<Run>, k: nat, ghost since: nat, ghost before: seq<Run>, ghost acts: seq<Act>) returns (stopped: bool)
      requires k < |runs| && Halfway(runs, k, since, before, acts)
      modifies this`awaits, this`requiring, this`journal
      ensures stopped ==> Halfway(runs, k + 1, since, before, acts)
      ensures !stopped ==> !AllStop(world, since, |runs|) && journal == acts + StopsOf(runs[..k])
    {
      AllStopMore(world, since, k, |runs|);
      RemainingMore(world, since, before, runs, k);
      StopsMore(runs, k);
      stopped := StopRun(runs[k].member);
      assert acts + (StopsOf(runs[..k]) + [DidStop(runs[k].member)]) == acts + StopsOf(runs[..k]) + [DidStop(runs[k].member)];
    }

    /** Stops the listed runs in order, until one cannot be stopped. */
    method StopAll(runs: seq<Run>) returns (ok: bool, outcomes: map<nat, Outcome>)
      modifies this`awaits, this`requiring, this`journal
      ensures ok <==> AllStop(world, old(awaits), |runs|)
      ensures ok ==> requiring == Remaining(world, old(awaits), old(requiring), runs) && awaits == old(awaits) + |runs|
      ensures ok ==> journal == old(journal) + StopsOf(runs)
      ensures ok ==> forall run :: run in runs ==> run.member in outcomes && outcomes[run.member].Stopped?
      ensures !ok ==> old(journal) <= journal && OnlyStops(journal[|old(journal)|..])
    {
      outcomes := map member | member in members :: NotRunning;
      ghost var since, before, acts := awaits, requiring, journal;
      for k := 0 to |runs|
        invariant Halfway(runs, k, since, before, acts)
        invariant forall run :: run in runs[..k] ==> run.member in outcomes && outcomes[run.member].Stopped?
      {
        var stopped := StopNext(runs, k, since, before, acts);
        if !stopped { return false, outcomes[runs[k].member := Failed(runs[k].id)]; }
        outcomes := outcomes[runs[k].member := Stopped(runs[k].id)];
        assert runs[..k + 1] == runs[..k] + [runs[k]];
      }
      assert runs[..|runs|] == runs;
      ok := true;
    }

    /** The checks, and the runs that have to be stopped first. */
    method Admit(expected: nat, policy: Policy) returns (admitted: bool, runs: seq<Run>)
      modifies this`awaits, this`requiring
      ensures awaits == old(awaits) + 1 && runs == requiring == old(requiring) + At().appeared
      ensures admitted <==> !At().fails && !At().fenced && Assignable(expected) && (policy.RequireStopped? ==> runs == [])
    {
      Await();
      runs := requiring;
      if At().fails || At().fenced || !Assignable(expected) { return false, runs; }
      if policy.RequireStopped? && runs != [] { return false, runs; }
      admitted := true;
    }

    /** Stops the runs, then assigns the checkout, unless something goes wrong before. */
    method StopAndSwitch(target: nat, expected: nat, runs: seq<Run>) returns (switched: bool, outcomes: map<nat, Outcome>)
      modifies this`awaits, this`requiring, this`checkout, this`revision, this`journal
      ensures switched <==>
                && AllStop(world, old(awaits), |runs|) && old(revision) == expected && world(old(awaits) + |runs|).available
                && Remaining(world, old(awaits), old(requiring), runs) == []
      ensures !switched ==> checkout == old(checkout) && revision == old(revision)
      ensures !switched ==> old(journal) <= journal && OnlyStops(journal[|old(journal)|..])
      ensures switched ==> checkout == target && revision == expected + 1
      ensures switched ==> journal == old(journal) + StopsOf(runs) + [DidSwitch(target, 0)]
      ensures switched ==> forall run :: run in runs ==> run.member in outcomes && outcomes[run.member].Stopped?
    {
      var ok;
      ok, outcomes := StopAll(runs);
      if !ok { return false, outcomes; }
      switched := Switch(target, expected);
    }

    /** When the assignment takes place: it is admitted, every stop works, and just then it is admitted still and nothing runs. */
    ghost predicate Switches(since: nat, requiring: seq<Run>, revision: nat, expected: nat, policy: Policy) {
      var first := world(since + 1);
      var runs := requiring + first.appeared;
      && !first.fails && !first.fenced && first.available && revision == expected && (policy.RequireStopped? ==> runs == [])
      && AllStop(world, since + 1, |runs|) && world(since + 1 + |runs|).available && Remaining(world, since + 1, runs, runs) == []
    }

    /**
     The checkout changes only once every run that required it has been stopped and none is left; then,
     if asked to, the same members are launched again.  Any failure before leaves the checkout as it was.
     */
    method AssignGroupCheckout(target: nat, expected: nat, policy: Policy) returns (result: Result, ghost stopped: seq<Run>, ghost launches: seq<Act>)
      modifies this
      ensures result.Switched? <==> Switches(old(awaits), old(requiring), old(revision), expected, policy)
      ensures result.Refused? ==> checkout == old(checkout) && revision == old(revision)
      ensures result.Refused? ==> old(journal) <= journal && OnlyStops(journal[|old(journal)|..])
      ensures result.Switched? ==> checkout == target && revision == expected + 1
      ensures result.Switched? ==> (forall run :: run in old(requiring) ==> run in stopped) && (policy.RequireStopped? ==> stopped == [])
      ensures result.Switched? ==> journal == old(journal) + StopsOf(stopped) + [DidSwitch(target, 0)] + launches
      ensures result.Switched? ==> OnlyLaunches(launches) && (!policy.StopSwitchRestart? ==> launches == [])
      ensures result.Switched? ==> forall run :: run in stopped ==> run.member in result.outcomes
      ensures result.Switched? && policy.StopSwitchRestart? ==> forall run :: run in stopped ==> Relaunched(result.outcomes[run.member], run.member, launches)
      ensures result.Switched? && !policy.StopSwitchRestart? ==> forall run :: run in stopped ==> result.outcomes[run.member].Stopped?
    {
      var admitted, runs := Admit(expected, policy);
      stopped, launches := runs, [];
      if !admitted { return Refused(map[]), stopped, launches; }
      var switched, outcomes := StopAndSwitch(target, expected, runs);
      if !switched { return Refused(outcomes), stopped, launches; }
      if policy.StopSwitchRestart? { outcomes, launches := Relaunch(runs, outcomes); }
      result := Switched(outcomes);
    }
  }
}
