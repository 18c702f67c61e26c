/**
 How status reporters number their events (`apps/daemon/src/status-reporter-assets.ts` and
 `apps/daemon/src/reporter-sequencer.ts`): any number of processes share a lock file and a sequence file,
 interleave at every file operation and may die at any of them.
 */
module Sequencer {
  import opened Wrappers

  /** The function embedded in the hook, the class, and the class with its lock removal guarded as in the hook. */
  datatype Form = Hook | Class | GuardedClass

  datatype Pc =
    | Starting
    | Holding
    | Counted(next: nat)
    | Written(next: nat)
    | Renamed(next: nat)
    | Abandoning
    | Refused
    | Issued(number: nat)
    | Ended
    | Dead

  /** One call of `nextSequence` or `next`. */
  datatype Call = Call(epoch: nat, startupOnly: bool, pc: Pc)

  /** A number that reached the sequence file, and the call that wrote it. */
  datatype Commit = Commit(epoch: nat, number: nat, call: nat)

  /** The lock file is there or not; `lock` also remembers which call created it. */
  datatype Disk = Disk(file: Option<(nat, nat)>, lock: Option<nat>, calls: seq<Call>, commits: seq<Commit>)

  datatype Event = Begin(epoch: nat, startupOnly: bool) | Move(call: nat) | Die(call: nat)

  /** The sequence on file for an epoch. */
  function OnFile(file: Option<(nat, nat)>, epoch: nat): nat {
    if file.Some? && file.value.0 == epoch then file.value.1 else 0
  }

  predicate Mismatched(file: Option<(nat, nat)>, epoch: nat) {
    file.Some? && file.value.0 != epoch
  }

  function At(d: Disk, p: nat, pc: Pc): Disk
    requires p < |d.calls|
  {
    d.(calls := d.calls[p := d.calls[p].(pc := pc)])
  }

  /** The next file operation of a call. */
  function Step(form: Form, d: Disk, p: nat): Disk
    requires p < |d.calls|
  {
    var call := d.calls[p];
    match call.pc
    case Starting => if d.lock.None? then At(d.(lock := Some(p)), p, Holding) else At(d, p, Refused)
    case Refused => if form.Class? then At(d.(lock := None), p, Ended) else At(d, p, Ended)
    case Holding =>
      var sequence := OnFile(d.file, call.epoch);
      if (if form.Hook? then call.startupOnly && sequence > 0 else Mismatched(d.file, call.epoch)) then At(d, p, Abandoning)
      else At(d, p, Counted(sequence + 1))
    case Counted(next) => At(d, p, Written(next))
    case Written(next) => At(d.(file := Some((call.epoch, next)), commits := d.commits + [Commit(call.epoch, next, p)]), p, Renamed(next))
    case Renamed(next) => At(d.(lock := None), p, Issued(next))
    case Abandoning => At(d.(lock := None), p, Ended)
    case Issued(_) => d
    case Ended => d
    case Dead => d
  }

  function Happen(form: Form, d: Disk, e: Event): Disk {
    match e
    case Begin(epoch, startupOnly) => d.(calls := d.calls + [Call(epoch, startupOnly, Starting)])
    case Move(p) => if p < |d.calls| then Step(form, d, p) else d
    case Die(p) => if p < |d.calls| && !d.calls[p].pc.Issued? && !d.calls[p].pc.Ended? then At(d, p, Dead) else d
  }

  function Run(form: Form, d: Disk, events: seq<Event>): Disk
    decreases |events|
  {
    if events == [] then d else Run(form, Happen(form, d, events[0]), events[1..])
  }

  const EMPTY := Disk(None, None, [], [])

  // ---------------------------------------------------------------- mutual exclusion and what is on file

  predicate Inside(pc: Pc) {
    pc.Holding? || pc.Counted? || pc.Written? || pc.Renamed? || pc.Abandoning?
  }

  /** A call between taking and removing the lock owns it, and what it counted is still next. */
  ghost predicate CallHolds(d: Disk, p: nat) {
    p < |d.calls| ==>
      var call := d.calls[p];
      && (Inside(call.pc) ==> d.lock == Some(p))
      && (call.pc.Counted? || call.pc.Written? ==> call.pc.next == OnFile(d.file, call.epoch) + 1)
  }

  ghost predicate Exclusive(d: Disk) {
    forall p: nat :: CallHolds(d, p)
  }

  /** Each commit is one more than the one before it, or 1 where its epoch is not continued. */
  ghost predicate CommitHolds(commits: seq<Commit>, k: nat) {
    k < |commits| ==>
      commits[k].number == if k > 0 && commits[k - 1].epoch == commits[k].epoch then commits[k - 1].number + 1 else 1
  }

  /** A number is issued by the call that committed it, once. */
  ghost predicate CallCommits(d: Disk, p: nat) {
    p < |d.calls| && (d.calls[p].pc.Renamed? || d.calls[p].pc.Issued?) ==>
      var n := if d.calls[p].pc.Renamed? then d.calls[p].pc.next else d.calls[p].pc.number;
      exists k :: 0 <= k < |d.commits| && d.commits[k] == Commit(d.calls[p].epoch, n, p)
  }

  ghost predicate CommitOnce(d: Disk, j: nat, k: nat) {
    j < k < |d.commits| ==> d.commits[j].call != d.commits[k].call
  }

  ghost predicate CommitDone(d: Disk, k: nat) {
    k < |d.commits| ==>
      d.commits[k].call < |d.calls|
      && var call := d.calls[d.commits[k].call];
         (call.pc.Renamed? || call.pc.Issued? || call.pc.Dead?) && call.epoch == d.commits[k].epoch
  }

  ghost predicate Filed(d: Disk) {
    d.file == if d.commits == [] then None else Some((d.commits[|d.commits| - 1].epoch, d.commits[|d.commits| - 1].number))
  }

  /** A startup call commits only the first number. */
  ghost predicate StartupHolds(d: Disk, p: nat) {
    p < |d.calls| && d.calls[p].startupOnly ==>
      match d.calls[p].pc
      case Counted(n) => n == 1
      case Written(n) => n == 1
      case Renamed(n) => n == 1
      case Issued(n) => n == 1
      case _ => true
  }

  ghost predicate Numbered(d: Disk) {
    && Filed(d)
    && (forall k: nat :: CommitHolds(d.commits, k))
    && (forall p: nat :: CallCommits(d, p))
    && (forall j: nat, k: nat :: CommitOnce(d, j, k))
    && (forall k: nat :: CommitDone(d, k))
  }

  /** A refused call of the class removes the lock while another call is inside. */
  predicate Disturbs(form: Form, d: Disk, e: Event) {
    form.Class? && e.Move? && e.call < |d.calls| && d.calls[e.call].pc.Refused? && exists q :: 0 <= q < |d.calls| && Inside(d.calls[q].pc)
  }

  /** That never happens in the run; with the hook and the guarded class it never can. */
  predicate Undisturbed(form: Form, d: Disk, events: seq<Event>)
    decreases |events|
  {
    events == [] || (!Disturbs(form, d, events[0]) && Undisturbed(form, Happen(form, d, events[0]), events[1..]))
  }

  /** Every file operation keeps mutual exclusion, exactly unless it disturbs. */
  lemma {:induction false} HappenExclusive(form: Form, d: Disk, e: Event)
    requires Exclusive(d)
    ensures Exclusive(Happen(form, d, e)) <==> !Disturbs(form, d, e)
  {
    if Disturbs(form, d, e) {
      var q :| 0 <= q < |d.calls| && Inside(d.calls[q].pc);
      assert !CallHolds(Happen(form, d, e), q);
    } else {
      StillExclusive(form, d, e);
    }
  }

  lemma {:induction false} StillExclusive(form: Form, d: Disk, e: Event)
    requires Exclusive(d) && !Disturbs(form, d, e)
    ensures Exclusive(Happen(form, d, e))
  {
    var after := Happen(form, d, e);
    forall p: nat ensures CallHolds(after, p) {
      assert CallHolds(d, p);
      if e.Move? { assert CallHolds(d, e.call); }
      if e.Die? { assert CallHolds(d, e.call); }
    }
  }

  lemma {:induction false} CommitNumbered(d: Disk, p: nat)
    requires Exclusive(d) && Numbered(d) && p < |d.calls| && d.calls[p].pc.Written?
    ensures Numbered(Step(Hook, d, p))
  {
    var after, next := Step(Hook, d, p), d.calls[p].pc.next;
    assert CallHolds(d, p);
    forall k: nat ensures CommitHolds(after.commits, k) { assert CommitHolds(d.commits, k); }
    assert after.commits[|d.commits|] == Commit(d.calls[p].epoch, next, p);
    forall q: nat ensures CallCommits(after, q) {
      assert CallCommits(d, q);
      if q < |d.calls| && q != p && (d.calls[q].pc.Renamed? || d.calls[q].pc.Issued?) {
        var n := if d.calls[q].pc.Renamed? then d.calls[q].pc.next else d.calls[q].pc.number;
        var k :| 0 <= k < |d.commits| && d.commits[k] == Commit(d.calls[q].epoch, n, q);
        assert after.commits[k] == d.commits[k];
      }
    }
    forall j: nat, k: nat ensures CommitOnce(after, j, k) { assert CommitOnce(d, j, k) && CommitDone(d, j); }
    forall k: nat ensures CommitDone(after, k) { assert CommitDone(d, k); }
  }

  /** Any other operation leaves the commits alone. */
  lemma {:induction false} StillNumbered(d: Disk, after: Disk)
    requires Numbered(d) && after.file == d.file && after.commits == d.commits && |d.calls| <= |after.calls|
    requires forall q :: 0 <= q < |after.calls| ==>
               if q < |d.calls| then MovesOn(d.calls[q], after.calls[q]) else after.calls[q].pc == Starting
    ensures Numbered(after)
  {
    forall k: nat ensures CommitHolds(after.commits, k) { assert CommitHolds(d.commits, k); }
    forall q: nat ensures CallCommits(after, q) { assert CallCommits(d, q); }
    forall j: nat, k: nat ensures CommitOnce(after, j, k) { assert CommitOnce(d, j, k); }
    forall k: nat ensures CommitDone(after, k) { assert CommitDone(d, k); }
  }

  predicate MovesOn(was: Call, now: Call) {
    now == was
    || (now.epoch == was.epoch
        && match was.pc
           case Renamed(n) => now.pc == Issued(n) || now.pc.Dead?
           case Issued(_) => false
           case Dead => false
           case _ => !now.pc.Renamed? && !now.pc.Issued?)
  }

  lemma {:induction false} HappenNumbered(form: Form, d: Disk, e: Event)
    requires Exclusive(d) && Numbered(d)
    ensures Numbered(Happen(form, d, e))
  {
    if e.Move? && e.call < |d.calls| && d.calls[e.call].pc.Written? {
      CommitNumbered(d, e.call);
    } else {
      StillNumbered(d, Happen(form, d, e));
    }
  }

  lemma {:induction false} HappenStartup(d: Disk, e: Event)
    requires forall p: nat :: StartupHolds(d, p)
    ensures forall p: nat :: StartupHolds(Happen(Hook, d, e), p)
  {
    forall p: nat ensures StartupHolds(Happen(Hook, d, e), p) { assert StartupHolds(d, p); }
  }

  // ---------------------------------------------------------------- whole runs

  lemma {:induction false} OnlyTheClassDisturbs(form: Form, d: Disk, events: seq<Event>)
    requires !form.Class?
    ensures Undisturbed(form, d, events)
    decreases |events|
  {
    if events != [] { OnlyTheClassDisturbs(form, Happen(form, d, events[0]), events[1..]); }
  }

  lemma {:induction false} RunNumbered(form: Form, d: Disk, events: seq<Event>)
    requires Exclusive(d) && Numbered(d) && Undisturbed(form, d, events)
    ensures Exclusive(Run(form, d, events)) && Numbered(Run(form, d, events))
    decreases |events|
  {
    if events != [] {
      HappenExclusive(form, d, events[0]);
      HappenNumbered(form, d, events[0]);
      RunNumbered(form, Happen(form, d, events[0]), events[1..]);
    }
  }

  lemma {:induction false} RunStartup(d: Disk, events: seq<Event>)
    requires forall p: nat :: StartupHolds(d, p)
    ensures forall p: nat :: StartupHolds(Run(Hook, d, events), p)
    decreases |events|
  {
    if events != [] {
      HappenStartup(d, events[0]);
      RunStartup(Happen(Hook, d, events[0]), events[1..]);
    }
  }

  lemma {:induction false} EmptyNumbered()
    ensures Exclusive(EMPTY) && Numbered(EMPTY) && forall p: nat :: StartupHolds(EMPTY, p)
  {
    forall p: nat ensures CallHolds(EMPTY, p) && CallCommits(EMPTY, p) && StartupHolds(EMPTY, p) {}
    forall k: nat ensures CommitHolds(EMPTY.commits, k) && CommitDone(EMPTY, k) {}
    forall j: nat, k: nat ensures CommitOnce(EMPTY, j, k) {}
  }

  ghost predicate Increases(commits: seq<Commit>, epoch: nat) {
    forall j, k :: 0 <= j < k < |commits| && commits[j].epoch == epoch == commits[k].epoch ==> commits[j].number < commits[k].number
  }

  ghost predicate Distinct(commits: seq<Commit>, epoch: nat) {
    forall j, k :: 0 <= j < k < |commits| && commits[j].epoch == epoch == commits[k].epoch ==> commits[j].number != commits[k].number
  }

  /** No other epoch commits between two commits of this one. */
  ghost predicate Uninterrupted(commits: seq<Commit>, epoch: nat) {
    forall i, j, k :: 0 <= i < j < k < |commits| && commits[i].epoch == epoch == commits[k].epoch ==> commits[j].epoch == epoch
  }

  lemma {:induction false} BlockIncreases(commits: seq<Commit>, epoch: nat, j: nat, k: nat)
    requires (forall i: nat :: CommitHolds(commits, i)) && Uninterrupted(commits, epoch)
    requires j < k < |commits| && commits[j].epoch == epoch == commits[k].epoch
    ensures commits[j].number < commits[k].number
    decreases k
  {
    assert CommitHolds(commits, k);
    if j < k - 1 {
      assert commits[k - 1].epoch == epoch;
      BlockIncreases(commits, epoch, j, k - 1);
    }
  }

  /** The first commit of an epoch after index `from` that does not continue it is a 1. */
  lemma {:induction false} FirstIsOne(commits: seq<Commit>, epoch: nat, from: nat, k: nat) returns (first: nat)
    requires forall i: nat :: CommitHolds(commits, i)
    requires from <= k < |commits| && commits[k].epoch == epoch && (from == 0 || commits[from - 1].epoch != epoch)
    ensures from <= first <= k && commits[first] == Commit(epoch, 1, commits[first].call)
    decreases k
  {
    assert CommitHolds(commits, k);
    if k > from && commits[k - 1].epoch == epoch {
      first := FirstIsOne(commits, epoch, from, k - 1);
    } else {
      first := k;
    }
  }

  lemma {:induction false} UninterruptedIncreases(commits: seq<Commit>, epoch: nat)
    requires (forall i: nat :: CommitHolds(commits, i)) && Uninterrupted(commits, epoch)
    ensures Increases(commits, epoch)
  {
    forall j, k | 0 <= j < k < |commits| && commits[j].epoch == epoch == commits[k].epoch ensures commits[j].number < commits[k].number {
      BlockIncreases(commits, epoch, j, k);
    }
  }

  /** An epoch that resumes after another one begins at 1 again. */
  lemma {:induction false} InterruptedRepeats(commits: seq<Commit>, epoch: nat, i: nat, j: nat, k: nat)
    requires forall n: nat :: CommitHolds(commits, n)
    requires i < j < k < |commits| && commits[i].epoch == epoch == commits[k].epoch && commits[j].epoch != epoch
    ensures !Distinct(commits, epoch)
  {
    var a := FirstIsOne(commits, epoch, 0, i);
    var b := FirstIsOne(commits, epoch, j + 1, k);
    assert a < b && commits[a].number == commits[b].number;
  }

  lemma {:induction false} BlocksAreDistinct(commits: seq<Commit>, epoch: nat)
    requires forall i: nat :: CommitHolds(commits, i)
    ensures Uninterrupted(commits, epoch) ==> Increases(commits, epoch)
    ensures Distinct(commits, epoch) ==> Uninterrupted(commits, epoch)
  {
    if Uninterrupted(commits, epoch) {
      UninterruptedIncreases(commits, epoch);
    } else {
      var i: nat, j: nat, k: nat :| i < j < k < |commits| && commits[i].epoch == epoch == commits[k].epoch && commits[j].epoch != epoch;
      InterruptedRepeats(commits, epoch, i, j, k);
    }
  }

  /** Numbers of an epoch are distinct exactly when no other epoch commits in between, and then they increase. */
  lemma {:induction false} DistinctIffUninterrupted(form: Form, events: seq<Event>, epoch: nat)
    requires form.Class? ==> Undisturbed(form, EMPTY, events)
    ensures Distinct(Run(form, EMPTY, events).commits, epoch) <==> Uninterrupted(Run(form, EMPTY, events).commits, epoch)
    ensures Uninterrupted(Run(form, EMPTY, events).commits, epoch) ==> Increases(Run(form, EMPTY, events).commits, epoch)
  {
    EmptyNumbered();
    if !form.Class? { OnlyTheClassDisturbs(form, EMPTY, events); }
    RunNumbered(form, EMPTY, events);
    BlocksAreDistinct(Run(form, EMPTY, events).commits, epoch);
  }

  /** Every call on the file uses the one epoch the file is named after. */
  ghost predicate OneEpoch(d: Disk, epoch: nat) {
    (forall p :: 0 <= p < |d.calls| ==> d.calls[p].epoch == epoch) && (forall k :: 0 <= k < |d.commits| ==> d.commits[k].epoch == epoch)
  }

  lemma {:induction false} RunOneEpoch(form: Form, d: Disk, events: seq<Event>, epoch: nat)
    requires OneEpoch(d, epoch) && forall e :: e in events && e.Begin? ==> e.epoch == epoch
    ensures OneEpoch(Run(form, d, events), epoch)
    decreases |events|
  {
    if events != [] {
      assert events[0] in events;
      RunOneEpoch(form, Happen(form, d, events[0]), events[1..], epoch);
    }
  }

  ghost predicate IssuedOnce(d: Disk) {
    forall p, q :: 0 <= p < q < |d.calls| && d.calls[p].pc.Issued? && d.calls[q].pc.Issued? ==> d.calls[p].pc.number != d.calls[q].pc.number
  }

  lemma {:induction false} NumberedIssuesOnce(d: Disk, epoch: nat)
    requires Numbered(d) && OneEpoch(d, epoch)
    ensures Increases(d.commits, epoch) && IssuedOnce(d)
  {
    BlocksAreDistinct(d.commits, epoch);
    forall p, q | 0 <= p < q < |d.calls| && d.calls[p].pc.Issued? && d.calls[q].pc.Issued? ensures d.calls[p].pc.number != d.calls[q].pc.number {
      assert CallCommits(d, p) && CallCommits(d, q);
      var j :| 0 <= j < |d.commits| && d.commits[j] == Commit(d.calls[p].epoch, d.calls[p].pc.number, p);
      var k :| 0 <= k < |d.commits| && d.commits[k] == Commit(d.calls[q].epoch, d.calls[q].pc.number, q);
      assert j < k || k < j;
    }
  }

  ghost predicate AllOfEpoch(events: seq<Event>, epoch: nat) {
    forall e :: e in events && e.Begin? ==> e.epoch == epoch
  }

  /**
   With one epoch to a sequence file, as the reporter environment names it, distinct numbers are issued that
   increase in commit order, however the processes interleave and die: always by the hook, whose startup calls
   are only ever issued 1, and by the class as long as no refused call removes the lock of a call inside.
   */
  lemma {:induction false} IssuedNumbersAreDistinct(form: Form, events: seq<Event>, epoch: nat)
    requires AllOfEpoch(events, epoch) && (form.Class? ==> Undisturbed(form, EMPTY, events))
    ensures var d := Run(form, EMPTY, events);
            && Increases(d.commits, epoch) && IssuedOnce(d)
            && (form.Hook? ==> forall p :: 0 <= p < |d.calls| && d.calls[p].startupOnly && d.calls[p].pc.Issued? ==> d.calls[p].pc.number == 1)
  {
    EmptyNumbered();
    if !form.Class? { OnlyTheClassDisturbs(form, EMPTY, events); }
    RunNumbered(form, EMPTY, events);
    RunOneEpoch(form, EMPTY, events, epoch);
    var d := Run(form, EMPTY, events);
    NumberedIssuesOnce(d, epoch);
    if form.Hook? {
      RunStartup(EMPTY, events);
      forall p | 0 <= p < |d.calls| && d.calls[p].startupOnly && d.calls[p].pc.Issued? ensures d.calls[p].pc.number == 1 {
        assert StartupHolds(d, p);
      }
    }
  }

  // ---------------------------------------------------------------- the class form

  /** Mutual exclusion holds at every moment of a run if and only if nothing disturbs it. */
  lemma {:induction false} ExclusiveThroughoutIff(form: Form, d: Disk, events: seq<Event>)
    requires Exclusive(d)
    ensures (forall n: nat :: n <= |events| ==> ExclusiveAfter(form, d, events, n)) <==> Undisturbed(form, d, events)
    decreases |events|
  {
    if events == [] {
      forall n: nat | n <= |events| ensures ExclusiveAfter(form, d, events, n) {}
    } else {
      var next, rest := Happen(form, d, events[0]), events[1..];
      HappenExclusive(form, d, events[0]);
      forall n: nat | n <= |rest| ensures ExclusiveAfter(form, d, events, n + 1) <==> ExclusiveAfter(form, next, rest, n) {
        assert events[..n + 1][0] == events[0] && events[..n + 1][1..] == rest[..n];
      }
      if Exclusive(next) { ExclusiveThroughoutIff(form, next, rest); }
      if Undisturbed(form, d, events) {
        forall n: nat | n <= |events| ensures ExclusiveAfter(form, d, events, n) {
          if n > 0 { assert ExclusiveAfter(form, next, rest, n - 1); }
        }
      } else if Disturbs(form, d, events[0]) {
        assert rest[..0] == [] && !ExclusiveAfter(form, next, rest, 0);
        assert !ExclusiveAfter(form, d, events, 1);
      } else {
        var n: nat :| n <= |rest| && !ExclusiveAfter(form, next, rest, n);
        assert !ExclusiveAfter(form, d, events, n + 1);
      }
    }
  }

  ghost predicate ExclusiveAfter(form: Form, d: Disk, events: seq<Event>, n: nat)
    requires n <= |events|
  {
    Exclusive(Run(form, d, events[..n]))
  }

  /** Whatever follows, as long as nothing disturbs it, no number is issued twice. */
  ghost predicate Safe(d: Disk, epoch: nat) {
    forall rest :: Follows(d, rest, epoch) ==> IssuedOnce(Run(Class, d, rest))
  }

  ghost predicate Follows(d: Disk, rest: seq<Event>, epoch: nat) {
    AllOfEpoch(rest, epoch) && Undisturbed(Class, d, rest)
  }

  /** After an undisturbed run of the class, the next operation leaves the numbers safe if and only if it does not disturb. */
  lemma {:induction false} ClassSafeIff(events: seq<Event>, e: Event, epoch: nat)
    requires AllOfEpoch(events, epoch) && AllOfEpoch([e], epoch) && Undisturbed(Class, EMPTY, events)
    ensures Safe(Happen(Class, Run(Class, EMPTY, events), e), epoch) <==> !Disturbs(Class, Run(Class, EMPTY, events), e)
  {
    var d := Run(Class, EMPTY, events);
    EmptyNumbered();
    RunNumbered(Class, EMPTY, events);
    RunOneEpoch(Class, EMPTY, events, epoch);
    assert e in [e];
    var next := Happen(Class, d, e);
    HappenExclusive(Class, d, e);
    HappenNumbered(Class, d, e);
    assert OneEpoch(next, epoch);
    if Disturbs(Class, d, e) {
      var rest := TwiceAfter(d, e, epoch);
      assert Follows(next, rest, epoch);
    } else {
      forall rest | Follows(next, rest, epoch) ensures IssuedOnce(Run(Class, next, rest)) {
        RunNumbered(Class, next, rest);
        RunOneEpoch(Class, next, rest, epoch);
        NumberedIssuesOnce(Run(Class, next, rest), epoch);
      }
    }
  }

  // ---------------------------------------------------------------- how a disturbed run issues a number twice

  lemma {:induction false} RunConcat(d: Disk, first: seq<Event>, second: seq<Event>)
    ensures Run(Class, d, first + second) == Run(Class, Run(Class, d, first), second)
    ensures Undisturbed(Class, d, first + second) <==> Undisturbed(Class, d, first) && Undisturbed(Class, Run(Class, d, first), second)
    decreases |first|
  {
    if first == [] {
      assert first + second == second;
    } else {
      assert (first + second)[0] == first[0] && (first + second)[1..] == first[1..] + second;
      RunConcat(Happen(Class, d, first[0]), first[1..], second);
    }
  }

  lemma {:induction false} RunOne(d: Disk, e: Event)
    ensures Run(Class, d, [e]) == Happen(Class, d, e) && (Undisturbed(Class, d, [e]) <==> !Disturbs(Class, d, e))
  {
    assert [e][1..] == [];
  }

  /** The call is about to commit this number. */
  predicate Ready(call: Call, n: nat) {
    (call.pc.Counted? && call.pc.next == n) || (call.pc.Written? && call.pc.next == n)
  }

  /** The other calls are where they were. */
  predicate OthersStay(d: Disk, after: Disk, p: nat) {
    |d.calls| <= |after.calls| && forall q :: 0 <= q < |d.calls| && q != p ==> after.calls[q] == d.calls[q]
  }

  /** What moving call `p` on its own comes to. */
  ghost predicate Alone(d: Disk, rest: seq<Event>, after: Disk, p: nat, epoch: nat) {
    Follows(d, rest, epoch) && Run(Class, d, rest) == after && OthersStay(d, after, p)
  }

  lemma {:induction false} MoveOn(d: Disk, p: nat, before: seq<Event>, at: Disk, epoch: nat) returns (rest: seq<Event>)
    requires Alone(d, before, at, p, epoch) && p < |at.calls| && !at.calls[p].pc.Refused?
    ensures Alone(d, rest, Step(Class, at, p), p, epoch)
  {
    rest := before + [Move(p)];
    RunConcat(d, before, [Move(p)]);
    RunOne(at, Move(p));
  }

  /** A call about to commit a number is issued it. */
  lemma {:induction false} IssueOne(d: Disk, p: nat, n: nat, epoch: nat) returns (rest: seq<Event>, after: Disk)
    requires p < |d.calls| && Ready(d.calls[p], n)
    ensures Alone(d, rest, after, p, epoch) && p < |after.calls| && after.calls[p].pc == Issued(n)
  {
    rest, after := [], d;
    if d.calls[p].pc.Counted? {
      rest := MoveOn(d, p, rest, after, epoch);
      after := Step(Class, after, p);
    }
    rest := MoveOn(d, p, rest, after, epoch);
    after := Step(Class, after, p);
    rest := MoveOn(d, p, rest, after, epoch);
    after := Step(Class, after, p);
  }

  lemma {:induction false} Then(d: Disk, first: seq<Event>, second: seq<Event>, epoch: nat)
    requires Follows(d, first, epoch) && Follows(Run(Class, d, first), second, epoch)
    ensures Follows(d, first + second, epoch) && Run(Class, d, first + second) == Run(Class, Run(Class, d, first), second)
  {
    RunConcat(d, first, second);
  }

  lemma {:induction false} IssueTwice(d: Disk, p: nat, q: nat, n: nat, epoch: nat) returns (rest: seq<Event>)
    requires p < |d.calls| && q < |d.calls| && p != q && Ready(d.calls[p], n) && Ready(d.calls[q], n)
    ensures Follows(d, rest, epoch) && !IssuedOnce(Run(Class, d, rest))
  {
    var first, between := IssueOne(d, p, n, epoch);
    var second, after := IssueOne(between, q, n, epoch);
    Then(d, first, second, epoch);
    rest := first + second;
    assert after.calls[p].pc == Issued(n) && after.calls[q].pc == Issued(n);
  }

  /** With the lock free, a new call comes to count the number after the one on file. */
  lemma {:induction false} CountNew(d: Disk, epoch: nat) returns (rest: seq<Event>, after: Disk)
    requires d.lock.None? && !Mismatched(d.file, epoch)
    ensures Alone(d, rest, after, |d.calls|, epoch) && |after.calls| == |d.calls| + 1 && after.file == d.file
    ensures after.calls[|d.calls|] == Call(epoch, false, Counted(OnFile(d.file, epoch) + 1))
  {
    rest, after := [Begin(epoch, false)], Happen(Class, d, Begin(epoch, false));
    RunOne(d, Begin(epoch, false));
    rest := MoveOn(d, |d.calls|, rest, after, epoch);
    after := Step(Class, after, |d.calls|);
    rest := MoveOn(d, |d.calls|, rest, after, epoch);
    after := Step(Class, after, |d.calls|);
  }

  /** A call inside, whose lock was removed, and a number that two calls are about to commit. */
  lemma {:induction false} TwiceInside(d: Disk, q: nat, epoch: nat) returns (rest: seq<Event>)
    requires d.lock.None? && !Mismatched(d.file, epoch) && q < |d.calls| && d.calls[q].epoch == epoch && Inside(d.calls[q].pc)
    requires d.calls[q].pc.Counted? || d.calls[q].pc.Written? ==> d.calls[q].pc.next == OnFile(d.file, epoch) + 1
    ensures Follows(d, rest, epoch) && !IssuedOnce(Run(Class, d, rest))
  {
    var n, r := OnFile(d.file, epoch) + 1, |d.calls|;
    var counts, counted := CountNew(d, epoch);
    var more;
    if d.calls[q].pc.Counted? || d.calls[q].pc.Written? {
      more := IssueTwice(counted, q, r, n, epoch);
    } else {
      RunOne(counted, Move(q));
      var moved := Step(Class, counted, q);
      assert Follows(counted, [Move(q)], epoch);
      if d.calls[q].pc.Holding? {
        more := IssueTwice(moved, q, r, n, epoch);
      } else {
        var again, both := CountNew(moved, epoch);
        more := IssueTwice(both, r, |moved.calls|, n, epoch);
        Then(moved, again, more, epoch);
        more := again + more;
      }
      Then(counted, [Move(q)], more, epoch);
      more := [Move(q)] + more;
    }
    Then(d, counts, more, epoch);
    rest := counts + more;
  }

  lemma {:induction false} TwiceAfter(d: Disk, e: Event, epoch: nat) returns (rest: seq<Event>)
    requires Exclusive(d) && Numbered(d) && OneEpoch(d, epoch) && Disturbs(Class, d, e)
    ensures Follows(Happen(Class, d, e), rest, epoch) && !IssuedOnce(Run(Class, Happen(Class, d, e), rest))
  {
    var q :| 0 <= q < |d.calls| && Inside(d.calls[q].pc);
    assert CallHolds(d, q);
    rest := TwiceInside(Happen(Class, d, e), q, epoch);
  }

  /** Three calls of the class: the second, refused, removes the first one's lock, and the third is issued the same number. */
  lemma {:induction false} ClassIssuesTwice(epoch: nat)
    ensures var begin := Begin(epoch, false);
            var begun := Happen(Class, Happen(Class, Happen(Class, EMPTY, begin), begin), begin);
            var counted := Step(Class, Step(Class, begun, 0), 0);
            var unlocked := Step(Class, Step(Class, counted, 1), 1);
            var both := Step(Class, Step(Class, unlocked, 2), 2);
            var first := Step(Class, Step(Class, Step(Class, both, 0), 0), 0);
            var second := Step(Class, Step(Class, Step(Class, first, 2), 2), 2);
            second.calls[0].pc == Issued(1) && second.calls[2].pc == Issued(1)
  {
  }
}
