/** The inbox scheduler as it runs (`apps/daemon/src/foreman-inbox-scheduler.ts`), dying anywhere and restarting. */
module InboxScheduler {
  import opened Wrappers
  import opened Inbox

  class ForemanInboxScheduler {
    /** What the rest of the daemon looks like after each `await`. */
    const world: nat -> Moment
    var awaits: nat
    /** Durable steps left before the daemon dies. */
    var life: nat
    var closed: bool
    var items: seq<Item>
    /** Runs that have stopped or failed. */
    var over: set<nat>
    ghost var pastes: seq<Paste>

    function At(): Moment
      reads this
    {
      world(awaits)
    }

    ghost predicate Valid()
      reads this
    {
      Sound(items, pastes, over)
    }

    constructor (world: nat -> Moment)
      ensures Valid() && items == [] && pastes == [] && this.world == world
    {
      this.world := world;
      awaits, life, closed, items, over, pastes := 0, 0, false, [], {}, [];
      new;
      forall k: nat ensures PasteHolds(items, pastes, over, k) {}
    }

    method Pulse() returns (alive: bool)
      modifies this`life
      ensures (alive <==> old(life) > 0) && life == if alive then old(life) - 1 else 0
    {
      alive := life > 0;
      if alive { life := life - 1; }
    }

    /** Other services move rows and add new ones, and runs end. */
    method Await() returns (alive: bool)
      requires Valid()
      modifies this`awaits, this`life, this`closed, this`items, this`over
      ensures Valid() && |old(items)| <= |items| && old(over) <= over && (Free(old(items)) ==> Free(items)) && (old(closed) ==> closed)
      ensures forall i :: 0 <= i < |old(items)| ==> Drifts(old(items)[i], items[i])
      ensures alive <==> old(life) > 0
    {
      awaits := awaits + 1;
      closed := closed || At().closing;
      OverSound(items, pastes, over, At().over);
      over := over + At().over;
      MovedSound(items, At().moves, pastes, over);
      forall i | 0 <= i < |items| ensures Drifts(items[i], AllMoved(items, At().moves)[i]) { MovedDrifts(items, At().moves, i); }
      items := AllMoved(items, At().moves);
      ArrivedSound(items, At().arrivals, pastes, over);
      items := items + Arrived(At().arrivals);
      alive := Pulse();
    }

    /** `start`: an interrupted paste is not repeated. */
    method Start()
      requires Valid()
      modifies this`items, this`closed
      ensures Valid() && items == Rewritten(old(items), Interrupted()) && !closed
    {
      RewrittenSound(items, Interrupted(), pastes, over);
      items := Rewritten(items, Interrupted());
      closed := false;
    }

    /** Whether any input is outstanding. */
    method Blocked() returns (blocked: bool)
      ensures !blocked ==> Free(items)
      ensures blocked ==> exists i :: 0 <= i < |items| && Outstanding(items[i])
    {
      blocked := false;
      for i := 0 to |items|
        invariant !blocked ==> forall j: nat :: j < i ==> FreeHolds(items, j)
        invariant blocked ==> exists j :: 0 <= j < |items| && Outstanding(items[j])
      {
        if Outstanding(items[i]) { blocked := true; }
      }
    }

    /** The oldest queued row. */
    method Oldest() returns (next: nat)
      ensures next <= |items|
      ensures next < |items| ==> items[next].state.Queued? && forall i :: 0 <= i < |items| && items[i].state.Queued? ==> Older(items[next], items[i])
      ensures next == |items| ==> forall i :: 0 <= i < |items| ==> !items[i].state.Queued?
    {
      next := |items|;
      for i := 0 to |items|
        invariant next < i || next == |items|
        invariant next < |items| ==> items[next].state.Queued? && forall j :: 0 <= j < i && items[j].state.Queued? ==> Older(items[next], items[j])
        invariant next == |items| ==> forall j :: 0 <= j < i ==> !items[j].state.Queued?
      {
        if items[i].state.Queued? && (next == |items| || Older(items[i], items[next])) { next := i; }
      }
    }

    /** The fence in front of the keystrokes: the target is still what was claimed. */
    predicate Fenced(run: Run, item: nat, target: Target)
      reads this
    {
      var m := At();
      var status := m.status(run.id);
      || !m.authorized(item) || closed || !m.configured || m.authority != target.authority || !Ready(run, m, over)
      || status.epoch != target.epoch || status.changedAt != target.changedAt
      || status.completions != target.completions || status.process != target.process
    }

    /** Claims a row for the current run and pastes it; whatever goes wrong after the claim leaves it ambiguous. */
    method Paste(run: Run, i: nat)
      requires Valid() && Free(items) && i < |items| && Ready(run, At(), over)
      modifies this`awaits, this`life, this`closed, this`items, this`over, this`pastes
      ensures Valid() && |old(items)| <= |items|
      ensures pastes == old(pastes) || (old(items)[i].state.Queued? && pastes == old(pastes) + [Inbox.Paste(i, run.id)])
      ensures old(items)[i].state.Queued? && old(life) > 0 <==> pastes != old(pastes)
      ensures pastes != old(pastes) ==> items[i].target.Some? && items[i].target.value.run == run.id && !items[i].state.Queued?
      ensures pastes != old(pastes) && items[i].state.Submitted? ==> At().pasted && !Fenced(run, items[i].id, items[i].target.value)
      ensures pastes != old(pastes) && old(life) > 1 ==> !items[i].state.Writing?
      ensures forall j :: 0 <= j < |old(items)| && j != i ==> Drifts(old(items)[j], items[j])
      ensures items[i].id == old(items)[i].id && items[i].created == old(items)[i].created
    {
      var status := At().status(run.id);
      var target := Target(run.id, run.generation, status.epoch, status.changedAt, status.completions, status.process, At().authority);
      if !items[i].state.Queued? { return; }
      var alive := Pulse();
      if !alive { return; }
      ClaimSound(items, pastes, over, i, target);
      items := items[i := items[i].(state := Writing, target := Some(target))];
      pastes := pastes + [Inbox.Paste(i, run.id)];
      alive := Await();
      if !alive { return; }
      if !items[i].state.Writing? { return; }
      var failed := Fenced(run, items[i].id, target) || !At().pasted;
      ghost var was := items;
      items := items[i := items[i].(state := if failed then Ambiguous else Submitted)];
      forall j: nat ensures CalmsAt(was, items, over, j) {}
      CalmSound(was, items, pastes, over);
    }

    /** A row whose input is no longer authorized. */
    method Withdraw(i: nat)
      requires Valid() && i < |items| && items[i].state.Queued?
      modifies this`items
      ensures Valid() && items == old(items)[i := old(items)[i].(state := Cancelled)]
    {
      ghost var was := items;
      items := items[i := items[i].(state := Cancelled)];
      forall j: nat ensures CalmsAt(was, items, over, j) {}
      CalmSound(was, items, pastes, over);
    }

    /** The paste went to the run that is current, and of the rows there were no queued one is older than the one pasted. */
    ghost predicate OldestFirst(items: seq<Item>, n: nat, paste: Inbox.Paste)
    {
      && paste.index < |items| && n <= |items|
      && items[paste.index].target.Some? && items[paste.index].target.value.run == paste.run
      && forall j :: 0 <= j < n && items[j].state.Queued? ==> Older(items[paste.index], items[j])
    }

    /** `#dispatch`. */
    method Dispatch()
      requires Valid()
      modifies this`awaits, this`life, this`closed, this`items, this`over, this`pastes
      ensures Valid() && |old(items)| <= |items|
      ensures pastes == old(pastes) || (|pastes| == |old(pastes)| + 1 && old(pastes) <= pastes && OldestFirst(items, |old(items)|, pastes[|old(pastes)|]))
    {
      var current := Current(At(), over);
      if current.None? || !At().configured || !current.value.running { return; }
      var run := current.value;
      var alive := Await();
      if !alive || closed || !Ready(run, At(), over) { return; }
      RewrittenSound(items, Requeued(run.id, over), pastes, over);
      items := Rewritten(items, Requeued(run.id, over));
      PasteOldest(run);
    }

    /** With nothing outstanding, the oldest queued row is pasted if its input is still authorized. */
    method PasteOldest(run: Run)
      requires Valid()
      modifies this`awaits, this`life, this`closed, this`items, this`over, this`pastes
      ensures Valid() && |old(items)| <= |items|
      ensures pastes == old(pastes) || (|pastes| == |old(pastes)| + 1 && old(pastes) <= pastes && OldestFirst(items, |old(items)|, pastes[|old(pastes)|]))
      ensures !Free(old(items)) ==> pastes == old(pastes)
    {
      var blocked := Blocked();
      if blocked { return; }
      var next := Oldest();
      if next == |items| { return; }
      if !At().authorized(items[next].id) {
        Withdraw(next);
        return;
      }
      var alive := Await();
      if !alive || !Ready(run, At(), over) { return; }
      Paste(run, next);
    }

    /**
     Any number of daemon lifetimes, each dying after any number of durable steps, with any number of ticks:
     at most one input is outstanding, an ordinary input was pasted at most once ever, and a conversation result
     at most once into each run.
     */
    method Serve(lifetimes: seq<(nat, nat)>)
      requires Valid()
      modifies this
      ensures Valid() && |old(items)| <= |items| && old(pastes) <= pastes
      ensures Count(items, IsOutstanding()) <= 1
      ensures forall i: nat :: i < |items| && !items[i].conversation ==> Count(pastes, PasteOf(i)) <= 1
      ensures forall i: nat, run: nat :: i < |items| ==> Count(pastes, PasteInto(i, run)) <= 1
    {
      Repeat(lifetimes);
      OneOutstanding(items, pastes, over);
      forall i: nat | i < |items| && !items[i].conversation ensures Count(pastes, PasteOf(i)) <= 1 { PastedOnce(items, pastes, over, i, 0); }
      forall i: nat, run: nat | i < |items| ensures Count(pastes, PasteInto(i, run)) <= 1 { PastedOnce(items, pastes, over, i, run); }
    }

    method Repeat(lifetimes: seq<(nat, nat)>)
      requires Valid()
      modifies this
      ensures Valid() && |old(items)| <= |items| && old(pastes) <= pastes
    {
      for k := 0 to |lifetimes|
        invariant Valid() && |old(items)| <= |items| && old(pastes) <= pastes
      {
        life := lifetimes[k].0;
        Start();
        var ticks := lifetimes[k].1;
        while ticks > 0 && life > 0
          invariant Valid() && |old(items)| <= |items| && old(pastes) <= pastes
        {
          var alive := Await();
          if alive && !closed { Dispatch(); }
          ticks := ticks - 1;
        }
      }
    }
  }
}
