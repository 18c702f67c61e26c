/**
 When the coordinator recovers a run whose terminal is gone (`apps/daemon/src/run-runtime-coordinator.ts`):
 one missing sighting is never enough.
 */
module RunObservation {
  import opened Wrappers

  datatype Seen = Present | Dead | Missing | Indeterminate

  /** A sighting counts once its handler has returned; `pass` numbers the reconciliations. */
  datatype Sighting = Sighting(pass: nat, seen: Seen, handled: bool)

  datatype Key = Key(run: nat, generation: nat)

  /** One look at a run: the observation can fail, and so can the handler it is passed to. */
  datatype Look = Unobserved | Looked(seen: Seen, handlerFails: bool)

  /** What a pass sees of a run, again if it looks twice, and whether a resume it waits for has timed out. */
  datatype Visit = Visit(key: Key, first: Look, second: Look, resumeExpired: bool)

  /** A recovery, whether it was because the run was missing, and everything seen of the run until then. */
  datatype Recovery = Recovery(key: Key, missing: bool, evidence: seq<Sighting>)

  function Handled(sightings: seq<Sighting>): seq<Sighting> {
    if sightings == [] then []
    else Handled(sightings[..|sightings| - 1]) + if sightings[|sightings| - 1].handled then [sightings[|sightings| - 1]] else []
  }

  lemma {:induction false} HandledAppend(sightings: seq<Sighting>, s: Sighting)
    ensures Handled(sightings + [s]) == Handled(sightings) + if s.handled then [s] else []
  {
    assert (sightings + [s])[..|sightings|] == sightings;
  }

  /** Missing in two passes, then missing or dead on a second look in the later one, and nothing else between. */
  ghost predicate Confirmed(h: seq<Sighting>) {
    && |h| >= 3
    && h[|h| - 3].seen.Missing? && h[|h| - 2].seen.Missing? && (h[|h| - 1].seen.Missing? || h[|h| - 1].seen.Dead?)
    && h[|h| - 3].pass < h[|h| - 2].pass == h[|h| - 1].pass
  }

  /** Where the last `n` sightings that count begin. */
  function LastHandled(sightings: seq<Sighting>, n: nat): (i: nat)
    requires 1 <= n <= |Handled(sightings)|
    ensures i < |sightings| && sightings[i].handled
  {
    var front := sightings[..|sightings| - 1];
    if !sightings[|sightings| - 1].handled then LastHandled(front, n)
    else if n == 1 then |sightings| - 1
    else LastHandled(front, n - 1)
  }

  /** The sightings since then count for exactly `n`. */
  lemma {:induction false} LastHandledCounts(sightings: seq<Sighting>, n: nat)
    requires 1 <= n <= |Handled(sightings)|
    ensures Handled(sightings[LastHandled(sightings, n)..]) == Handled(sightings)[|Handled(sightings)| - n..]
  {
    var front, last, i := sightings[..|sightings| - 1], sightings[|sightings| - 1], LastHandled(sightings, n);
    if last.handled && n == 1 {
      assert sightings[i..] == [] + [last];
      HandledAppend([], last);
    } else {
      LastHandledCounts(front, if last.handled then n - 1 else n);
      assert sightings[i..] == front[i..] + [last];
      HandledAppend(front[i..], last);
    }
  }

  lemma {:induction false} HandledHas(sightings: seq<Sighting>, j: nat)
    requires j < |sightings| && sightings[j].handled
    ensures sightings[j] in Handled(sightings)
  {
    if j < |sightings| - 1 { HandledHas(sightings[..|sightings| - 1], j); }
  }

  /** The run was there, or may have been. */
  predicate Sighted(s: Sighting) {
    s.seen.Present? || s.seen.Indeterminate?
  }

  /** Since its first confirmation the run was never seen to be there, nor possibly there. */
  ghost predicate Undisturbed(evidence: seq<Sighting>)
    requires |Handled(evidence)| >= 3
  {
    forall j :: LastHandled(evidence, 3) <= j < |evidence| ==> !Sighted(evidence[j])
  }

  /** Since its first confirmation, the handler of every sighting of the run there, or possibly there, returned. */
  ghost predicate SightingsHandled(evidence: seq<Sighting>)
    requires |Handled(evidence)| >= 3
  {
    forall j :: LastHandled(evidence, 3) <= j < |evidence| && Sighted(evidence[j]) ==> evidence[j].handled
  }

  /** A confirmed run was not seen between its confirmations if and only if no handler of such a sighting failed. */
  lemma {:induction false} UndisturbedIff(evidence: seq<Sighting>)
    requires Confirmed(Handled(evidence))
    ensures Undisturbed(evidence) <==> SightingsHandled(evidence)
  {
    var i := LastHandled(evidence, 3);
    LastHandledCounts(evidence, 3);
    forall j | i <= j < |evidence| && Sighted(evidence[j]) ensures !evidence[j].handled {
      assert evidence[i..][j - i] == evidence[j];
      if evidence[j].handled { HandledHas(evidence[i..], j - i); }
    }
  }

  function SightingsOf(history: map<Key, seq<Sighting>>, key: Key): seq<Sighting> {
    if key in history then history[key] else []
  }

  // ---------------------------------------------------------------- one pass over the runs

  /** The confirmations the coordinator holds, with everything seen and recovered so far. */
  datatype Memory = Memory(missing: map<Key, nat>, history: map<Key, seq<Sighting>>, recoveries: seq<Recovery>)

  function Saw(m: Memory, key: Key, look: Look, pass: nat): Memory {
    if look.Unobserved? then m
    else m.(history := m.history[key := SightingsOf(m.history, key) + [Sighting(pass, look.seen, !look.handlerFails)]])
  }

  predicate Fails(look: Look) {
    look.Unobserved? || look.handlerFails
  }

  function Recovered(m: Memory, key: Key, missing: bool): Memory {
    m.(missing := m.missing - {key}, recoveries := m.recoveries + [Recovery(key, missing, SightingsOf(m.history, key))])
  }

  function Confirmations(m: Memory, key: Key): nat {
    if key in m.missing then m.missing[key] else 0
  }

  /** A run that is missing again. */
  function MissedAgain(m: Memory, v: Visit, pass: nat): Memory {
    var counted := CountedAgain(m, v.key);
    if Confirmations(counted, v.key) < 2 then counted
    else
      var again := Saw(counted, v.key, v.second, pass);
      if Fails(v.second) then again
      else if v.second.seen.Missing? || v.second.seen.Dead? then Recovered(again, v.key, true)
      else again.(missing := again.missing - {v.key})
  }

  function Visited(m: Memory, v: Visit, pass: nat): Memory {
    var seen := Saw(m, v.key, v.first, pass);
    if Fails(v.first) then seen
    else match v.first.seen
      case Present => if v.resumeExpired then Recovered(seen, v.key, false) else seen.(missing := seen.missing - {v.key})
      case Indeterminate => seen.(missing := seen.missing - {v.key})
      case Missing => MissedAgain(seen, v, pass)
      case Dead => Recovered(seen, v.key, false)
  }

  /** A failing observation or handler ends the pass. */
  predicate Aborts(m: Memory, v: Visit) {
    Fails(v.first) || (v.first.seen.Missing? && Confirmations(m, v.key) >= 1 && Fails(v.second))
  }

  function Passed(m: Memory, visits: seq<Visit>, pass: nat): Memory
    decreases |visits|
  {
    if visits == [] then m
    else if Aborts(m, visits[0]) then Visited(m, visits[0], pass)
    else Passed(Visited(m, visits[0], pass), visits[1..], pass)
  }

  // ---------------------------------------------------------------- what a pass keeps

  /** A run with a confirmation was missing when it was last seen, in a pass before `next`. */
  ghost predicate CountHolds(m: Memory, next: nat, key: Key) {
    key in m.missing ==>
      var h := Handled(SightingsOf(m.history, key));
      m.missing[key] >= 1 && h != [] && h[|h| - 1].seen.Missing? && h[|h| - 1].pass < next
  }

  ghost predicate RecoveryHolds(m: Memory, k: nat) {
    k < |m.recoveries| && m.recoveries[k].missing ==> Confirmed(Handled(m.recoveries[k].evidence))
  }

  ghost predicate Sure(m: Memory) {
    forall k: nat :: RecoveryHolds(m, k)
  }

  ghost predicate Counted(m: Memory, next: nat) {
    forall key :: CountHolds(m, next, key)
  }

  /** Nothing about any other run moves. */
  predicate SameElsewhere(m: Memory, n: Memory, key: Key, other: Key) {
    other != key ==> (other in m.missing <==> other in n.missing) && Confirmations(m, other) == Confirmations(n, other)
                     && SightingsOf(m.history, other) == SightingsOf(n.history, other)
  }

  lemma {:induction false} RecoveredSure(m: Memory, key: Key, missing: bool)
    requires Sure(m) && (missing ==> Confirmed(Handled(SightingsOf(m.history, key))))
    ensures Sure(Recovered(m, key, missing))
  {
    forall k: nat ensures RecoveryHolds(Recovered(m, key, missing), k) { assert RecoveryHolds(m, k); }
  }

  lemma {:induction false} SawSure(m: Memory, key: Key, look: Look, pass: nat)
    requires Sure(m)
    ensures Sure(Saw(m, key, look, pass))
  {
    forall k: nat ensures RecoveryHolds(Saw(m, key, look, pass), k) { assert RecoveryHolds(m, k); }
  }

  lemma {:induction false} ClearedKeeps(m: Memory, key: Key, next: nat)
    requires Sure(m)
    ensures Sure(m.(missing := m.missing - {key})) && CountHolds(m.(missing := m.missing - {key}), next, key)
  {
    forall k: nat ensures RecoveryHolds(m.(missing := m.missing - {key}), k) { assert RecoveryHolds(m, k); }
  }

  lemma {:induction false} SawHandled(m: Memory, key: Key, look: Look, pass: nat)
    requires !Fails(look)
    ensures Handled(SightingsOf(Saw(m, key, look, pass).history, key)) == Handled(SightingsOf(m.history, key)) + [Sighting(pass, look.seen, true)]
  {
    HandledAppend(SightingsOf(m.history, key), Sighting(pass, look.seen, true));
  }

  lemma {:induction false} SawUnhandled(m: Memory, key: Key, look: Look, pass: nat)
    requires Fails(look)
    ensures Handled(SightingsOf(Saw(m, key, look, pass).history, key)) == Handled(SightingsOf(m.history, key))
  {
    if look.Looked? { HandledAppend(SightingsOf(m.history, key), Sighting(pass, look.seen, false)); }
  }

  function CountedAgain(m: Memory, key: Key): Memory {
    m.(missing := m.missing[key := Confirmations(m, key) + 1])
  }

  lemma {:induction false} CountedAgainSure(m: Memory, key: Key)
    requires Sure(m)
    ensures Sure(CountedAgain(m, key))
  {
    forall k: nat ensures RecoveryHolds(CountedAgain(m, key), k) { assert RecoveryHolds(m, k); }
  }

  /** The second look at a run that was missing in an earlier pass and is missing in this one. */
  lemma {:induction false} SecondLookKeeps(m: Memory, v: Visit, pass: nat)
    requires Sure(m) && Confirmations(m, v.key) >= 1 && |Handled(SightingsOf(m.history, v.key))| >= 2
    requires var h := Handled(SightingsOf(m.history, v.key));
             h[|h| - 1] == Sighting(pass, Missing, true) && h[|h| - 2].seen.Missing? && h[|h| - 2].pass < pass
    ensures Sure(MissedAgain(m, v, pass)) && CountHolds(MissedAgain(m, v, pass), pass + 1, v.key)
  {
    var counted := CountedAgain(m, v.key);
    var again := Saw(counted, v.key, v.second, pass);
    CountedAgainSure(m, v.key);
    SawSure(counted, v.key, v.second, pass);
    if Fails(v.second) {
      SawUnhandled(counted, v.key, v.second, pass);
    } else {
      SawHandled(counted, v.key, v.second, pass);
      if v.second.seen.Missing? || v.second.seen.Dead? {
        RecoveredSure(again, v.key, true);
      } else {
        ClearedKeeps(again, v.key, pass + 1);
      }
    }
  }

  lemma {:induction false} MissedAgainKeeps(m: Memory, v: Visit, pass: nat)
    requires Sure(m) && Handled(SightingsOf(m.history, v.key)) != []
    requires var h := Handled(SightingsOf(m.history, v.key));
             && h[|h| - 1] == Sighting(pass, Missing, true)
             && (v.key in m.missing ==> m.missing[v.key] >= 1 && |h| >= 2 && h[|h| - 2].seen.Missing? && h[|h| - 2].pass < pass)
    ensures Sure(MissedAgain(m, v, pass)) && CountHolds(MissedAgain(m, v, pass), pass + 1, v.key)
  {
    if v.key in m.missing {
      SecondLookKeeps(m, v, pass);
    } else {
      CountedAgainSure(m, v.key);
    }
  }

  /** The confirmations of other runs, and what was seen of them, are not touched. */
  lemma {:induction false} VisitedElsewhere(m: Memory, v: Visit, pass: nat, other: Key)
    ensures SameElsewhere(m, Visited(m, v, pass), v.key, other)
  {
  }

  lemma {:induction false} FailedKeeps(m: Memory, v: Visit, pass: nat)
    requires Sure(m) && CountHolds(m, pass, v.key) && Fails(v.first)
    ensures Sure(Visited(m, v, pass)) && CountHolds(Visited(m, v, pass), pass + 1, v.key)
  {
    SawSure(m, v.key, v.first, pass);
    SawUnhandled(m, v.key, v.first, pass);
  }

  lemma {:induction false} VisitedKeeps(m: Memory, v: Visit, pass: nat)
    requires Sure(m) && CountHolds(m, pass, v.key)
    ensures Sure(Visited(m, v, pass)) && CountHolds(Visited(m, v, pass), pass + 1, v.key)
  {
    var seen := Saw(m, v.key, v.first, pass);
    if Fails(v.first) {
      FailedKeeps(m, v, pass);
    } else {
      SawSure(m, v.key, v.first, pass);
      SawHandled(m, v.key, v.first, pass);
      ClearedKeeps(seen, v.key, pass + 1);
      match v.first.seen {
        case Missing => MissedAgainKeeps(seen, v, pass);
        case Dead => RecoveredSure(seen, v.key, false);
        case Present => RecoveredSure(seen, v.key, false);
        case Indeterminate =>
      }
    }
  }

  predicate Distinct(visits: seq<Visit>) {
    forall i, j :: 0 <= i < j < |visits| ==> visits[i].key != visits[j].key
  }

  ghost predicate CountsIn(m: Memory, next: nat, visits: seq<Visit>) {
    forall j :: 0 <= j < |visits| ==> CountHolds(m, next, visits[j].key)
  }

  lemma {:induction false} PassedKeeps(m: Memory, visits: seq<Visit>, pass: nat)
    requires Sure(m) && Counted(m, pass + 1) && CountsIn(m, pass, visits) && Distinct(visits)
    ensures Sure(Passed(m, visits, pass)) && Counted(Passed(m, visits, pass), pass + 1)
    decreases |visits|
  {
    if visits != [] {
      var v, next := visits[0], Visited(m, visits[0], pass);
      VisitedKeeps(m, v, pass);
      var later := pass + 1;
      forall key ensures CountHolds(next, later, key) {
        VisitedElsewhere(m, v, pass, key);
        assert CountHolds(m, later, key);
      }
      forall j | 0 <= j < |visits[1..]| ensures CountHolds(next, pass, visits[1..][j].key) {
        VisitedElsewhere(m, v, pass, visits[j + 1].key);
        assert CountHolds(m, pass, visits[j + 1].key);
      }
      if !Aborts(m, v) { PassedKeeps(next, visits[1..], pass); }
    }
  }

  lemma {:induction false} CountedLater(m: Memory, pass: nat)
    requires Counted(m, pass)
    ensures Counted(m, pass + 1)
  {
    var later := pass + 1;
    forall key ensures CountHolds(m, later, key) { assert CountHolds(m, pass, key); }
  }

  // ---------------------------------------------------------------- the coordinator

  class RunRuntimeCoordinator {
    var missing: map<Key, nat>
    var pass: nat
    ghost var history: map<Key, seq<Sighting>>
    ghost var recoveries: seq<Recovery>

    ghost function State(): Memory
      reads this
    {
      Memory(missing, history, recoveries)
    }

    ghost predicate Valid()
      reads this
    {
      Sure(State()) && Counted(State(), pass)
    }

    constructor ()
      ensures Valid() && State() == Memory(map[], map[], []) && pass == 0
    {
      missing, pass, history, recoveries := map[], 0, map[], [];
      new;
      forall k: nat ensures RecoveryHolds(State(), k) {}
      forall key ensures CountHolds(State(), pass, key) {}
    }

    /** The daemon restarts: the confirmations are forgotten, what was seen and recovered is not. */
    method Restart()
      requires Valid()
      modifies this`missing
      ensures Valid() && State() == old(State()).(missing := map[])
    {
      ghost var was := State();
      missing := map[];
      forall k: nat ensures RecoveryHolds(State(), k) { assert RecoveryHolds(was, k); }
      forall key ensures CountHolds(State(), pass, key) {}
    }

    /** An observation and its handler. */
    method See(key: Key, look: Look) returns (ok: bool)
      modifies this`history
      ensures State() == Saw(old(State()), key, look, pass) && ok == !Fails(look)
    {
      if look.Unobserved? { return false; }
      history := history[key := SightingsOf(history, key) + [Sighting(pass, look.seen, !look.handlerFails)]];
      ok := !look.handlerFails;
    }

    method Recover(key: Key, becauseMissing: bool)
      modifies this`missing, this`recoveries
      ensures State() == Recovered(old(State()), key, becauseMissing)
    {
      missing := missing - {key};
      recoveries := recoveries + [Recovery(key, becauseMissing, SightingsOf(history, key))];
    }

    method VisitRun(v: Visit) returns (aborted: bool)
      modifies this`missing, this`history, this`recoveries
      ensures State() == Visited(old(State()), v, pass) && aborted == Aborts(old(State()), v)
    {
      var ok := See(v.key, v.first);
      if !ok { return true; }
      if v.first.seen.Present? {
        if v.resumeExpired { Recover(v.key, false); } else { missing := missing - {v.key}; }
        return false;
      }
      if v.first.seen.Indeterminate? {
        missing := missing - {v.key};
        return false;
      }
      if v.first.seen.Missing? {
        var confirmations := (if v.key in missing then missing[v.key] else 0) + 1;
        missing := missing[v.key := confirmations];
        if confirmations < 2 { return false; }
        ok := See(v.key, v.second);
        if !ok { return true; }
        if !v.second.seen.Missing? && !v.second.seen.Dead? {
          missing := missing - {v.key};
          return false;
        }
      }
      Recover(v.key, v.first.seen.Missing?);
      aborted := false;
    }

    /** One reconciliation: each run that should be running, once, until something fails. */
    method Reconcile(visits: seq<Visit>)
      requires Valid() && Distinct(visits)
      modifies this
      ensures Valid() && State() == Passed(old(State()), visits, old(pass)) && pass == old(pass) + 1
    {
      CountedLater(State(), pass);
      forall j | 0 <= j < |visits| ensures CountHolds(State(), pass, visits[j].key) {}
      PassedKeeps(State(), visits, pass);
      var k, aborted := 0, false;
      while k < |visits| && !aborted
        invariant k <= |visits| && pass == old(pass)
        invariant Passed(old(State()), visits, pass) == if aborted then State() else Passed(State(), visits[k..], pass)
      {
        assert visits[k..][1..] == visits[k + 1..];
        aborted := VisitRun(visits[k]);
        k := k + 1;
      }
      pass := pass + 1;
    }

    /**
     Any number of reconciliations with restarts between: no run is ever recovered as missing unconfirmed, and
     none that was seen between its confirmations, unless the handler of that sighting failed.
     */
    method Serve(passes: seq<(bool, seq<Visit>)>)
      requires Valid() && forall k :: 0 <= k < |passes| ==> Distinct(passes[k].1)
      modifies this
      ensures Valid()
      ensures forall k :: 0 <= k < |recoveries| && recoveries[k].missing ==>
                Confirmed(Handled(recoveries[k].evidence)) && (Undisturbed(recoveries[k].evidence) <==> SightingsHandled(recoveries[k].evidence))
    {
      for k := 0 to |passes|
        invariant Valid()
      {
        if passes[k].0 { Restart(); }
        Reconcile(passes[k].1);
      }
      forall k | 0 <= k < |recoveries| && recoveries[k].missing
        ensures Confirmed(Handled(recoveries[k].evidence))
        ensures Undisturbed(recoveries[k].evidence) <==> SightingsHandled(recoveries[k].evidence)
      {
        assert RecoveryHolds(State(), k);
        UndisturbedIff(recoveries[k].evidence);
      }
    }
  }

  // ---------------------------------------------------------------- sightings whose handler failed

  /** A present or indeterminate sighting takes the confirmations away exactly when its handler returns. */
  lemma {:induction false} ClearedIffHandled(m: Memory, v: Visit, pass: nat)
    requires v.key in m.missing && v.first.Looked? && (v.first.seen.Present? || v.first.seen.Indeterminate?)
    ensures v.key !in Visited(m, v, pass).missing <==> !v.first.handlerFails
  {
    assert Saw(m, v.key, v.first, pass).missing == m.missing;
  }

  /**
   When the handler of a `present` sighting fails, which ends its pass, the confirmation before it survives:
   two passes later the run is recovered as missing although it was seen in between.
   */
  lemma {:induction false} PresentButRecovered(key: Key)
    ensures var gone, there := Looked(Missing, false), Looked(Present, true);
            var one := Passed(Memory(map[], map[], []), [Visit(key, gone, gone, false)], 0);
            var two := Passed(one, [Visit(key, there, gone, false)], 1);
            var three := Passed(two, [Visit(key, gone, gone, false)], 2);
            && |three.recoveries| == 1 && three.recoveries[0].key == key && three.recoveries[0].missing
            && var evidence := three.recoveries[0].evidence;
               && evidence == [Sighting(0, Missing, true), Sighting(1, Present, false), Sighting(2, Missing, true), Sighting(2, Missing, true)]
               && Confirmed(Handled(evidence)) && !Undisturbed(evidence)
  {
    var gone, there := Looked(Missing, false), Looked(Present, true);
    var none := Memory(map[], map[], []);
    OnePass(none, Visit(key, gone, gone, false), 0);
    var one := Passed(none, [Visit(key, gone, gone, false)], 0);
    OnePass(one, Visit(key, there, gone, false), 1);
    var two := Passed(one, [Visit(key, there, gone, false)], 1);
    OnePass(two, Visit(key, gone, gone, false), 2);
    SeenBetween();
  }

  /** Missing, there with a handler that failed, missing and missing again: confirmed all the same. */
  lemma {:induction false} SeenBetween()
    ensures var evidence := [Sighting(0, Missing, true), Sighting(1, Present, false), Sighting(2, Missing, true), Sighting(2, Missing, true)];
            Confirmed(Handled(evidence)) && !Undisturbed(evidence)
  {
    var a, b, c := Sighting(0, Missing, true), Sighting(1, Present, false), Sighting(2, Missing, true);
    var evidence := [a, b, c, c];
    HandledFour(a, b, c, c);
    assert Handled(evidence) == [a, c, c];
    LastHandledCounts(evidence, 3);
    HandledShorter(evidence[LastHandled(evidence, 3)..]);
    assert Sighted(evidence[1]);
  }

  lemma {:induction false} HandledFour(a: Sighting, b: Sighting, c: Sighting, d: Sighting)
    ensures Handled([a, b, c, d]) ==
            (if a.handled then [a] else []) + (if b.handled then [b] else []) + (if c.handled then [c] else []) + (if d.handled then [d] else [])
  {
    HandledAppend([], a);
    assert [] + [a] == [a];
    HandledAppend([a], b);
    assert [a] + [b] == [a, b];
    HandledAppend([a, b], c);
    assert [a, b] + [c] == [a, b, c];
    HandledAppend([a, b, c], d);
    assert [a, b, c] + [d] == [a, b, c, d];
  }

  lemma {:induction false} HandledShorter(sightings: seq<Sighting>)
    ensures |Handled(sightings)| <= |sightings|
  {
    if sightings != [] { HandledShorter(sightings[..|sightings| - 1]); }
  }

  lemma {:induction false} OnePass(m: Memory, v: Visit, pass: nat)
    ensures Passed(m, [v], pass) == Visited(m, v, pass)
  {
    assert [v][1..] == [];
  }
}
