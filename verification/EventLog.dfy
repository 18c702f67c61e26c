/** The event log and the slices of it that a client may see (`apps/daemon/src/event-log.ts`). */
module EventLog {
  datatype Event = Event(sequence: nat, body: nat)

  function HighWater(log: seq<Event>): nat {
    if log == [] then 0 else log[|log| - 1].sequence
  }

  /** Sequence numbers start at 1 and only go up. */
  ghost predicate Ascending(log: seq<Event>) {
    log == [] || (Ascending(log[..|log| - 1]) && HighWater(log[..|log| - 1]) < HighWater(log))
  }

  lemma {:induction false} AscendingPair(log: seq<Event>, i: nat, j: nat)
    requires Ascending(log) && i <= j < |log|
    ensures 0 < log[i].sequence <= log[j].sequence <= HighWater(log) && (i < j ==> log[i].sequence < log[j].sequence)
  {
    var init := log[..|log| - 1];
    if j < |init| {
      AscendingPair(init, i, j);
    } else if i < j {
      AscendingPair(init, i, |init| - 1);
    }
  }

  lemma {:induction false} AscendingAll(log: seq<Event>)
    requires Ascending(log)
    ensures forall i, j :: 0 <= i < j < |log| ==> log[i].sequence < log[j].sequence
    ensures forall x :: x in log ==> 0 < x.sequence <= HighWater(log)
  {
    forall i, j | 0 <= i < j < |log| ensures log[i].sequence < log[j].sequence { AscendingPair(log, i, j); }
    forall x | x in log ensures 0 < x.sequence <= HighWater(log) {
      var i :| 0 <= i < |log| && log[i] == x;
      AscendingPair(log, i, i);
    }
  }

  function Earliest(log: seq<Event>): nat {
    if log == [] then 0 else log[0].sequence
  }

  /** The events after `after` up to and including `through`, in log order. */
  function Slice(log: seq<Event>, after: nat, through: nat): seq<Event> {
    if log == [] then []
    else
      var last := log[|log| - 1];
      Slice(log[..|log| - 1], after, through) + if after < last.sequence <= through then [last] else []
  }

  /** `listEventPage`. */
  function Page(log: seq<Event>, after: nat, through: nat, limit: nat): seq<Event> {
    var all := Slice(log, after, through);
    var bounded := if limit < 1000 then limit else 1000;
    if bounded < |all| then all[..bounded] else all
  }

  lemma {:induction false} SliceMember(log: seq<Event>, after: nat, through: nat, e: Event)
    ensures e in Slice(log, after, through) <==> e in log && after < e.sequence <= through
  {
    if log != [] {
      SliceMember(log[..|log| - 1], after, through, e);
      assert log == log[..|log| - 1] + [log[|log| - 1]];
    }
  }

  lemma {:induction false} SliceEmpty(log: seq<Event>, after: nat)
    ensures Slice(log, after, after) == []
  {
    if log != [] { SliceEmpty(log[..|log| - 1], after); }
  }

  /** Events beyond the slice leave it alone. */
  lemma {:induction false} SliceBeyond(log: seq<Event>, more: seq<Event>, after: nat, through: nat)
    requires forall i :: 0 <= i < |more| ==> through < more[i].sequence
    ensures Slice(log + more, after, through) == Slice(log, after, through)
  {
    if more == [] {
      assert log + more == log;
    } else {
      assert (log + more)[..|log + more| - 1] == log + more[..|more| - 1];
      SliceBeyond(log, more[..|more| - 1], after, through);
    }
  }

  /** A slice is ascending whenever the log is. */
  lemma {:induction false} SliceAscending(log: seq<Event>, after: nat, through: nat)
    requires Ascending(log)
    ensures Ascending(Slice(log, after, through))
  {
    if log != [] {
      var init, last := log[..|log| - 1], log[|log| - 1];
      var s := Slice(init, after, through);
      SliceAscending(init, after, through);
      if after < last.sequence <= through {
        assert (s + [last])[..|s|] == s;
        if s != [] {
          SliceMember(init, after, through, s[|s| - 1]);
          AscendingAll(init);
        }
      } else {
        assert s + [] == s;
      }
    }
  }

  /** With nothing logged between `through` and the event, sending it extends the slice by exactly that event. */
  lemma {:induction false} SliceExtends(log: seq<Event>, after: nat, through: nat, e: Event)
    requires Ascending(log) && e in log && after <= through < e.sequence
    requires forall x :: x in log && through < x.sequence ==> e.sequence <= x.sequence
    ensures Slice(log, after, e.sequence) == Slice(log, after, through) + [e]
  {
    AscendingAll(log);
    var init, last := log[..|log| - 1], log[|log| - 1];
    if last == e {
      assert forall x :: x in init ==> x.sequence <= through;
      SliceSame(init, after, through, e.sequence);
    } else {
      assert e in init;
      SliceExtends(init, after, through, e);
    }
  }

  /** Sending an event beyond the cursor keeps a contiguous slice if and only if nothing unsent lies before it. */
  lemma {:induction false} SliceExtendsIff(log: seq<Event>, after: nat, through: nat, e: Event)
    requires Ascending(log) && e in log && after <= through < e.sequence
    ensures Slice(log, after, e.sequence) == Slice(log, after, through) + [e] <==>
            forall x :: x in log && through < x.sequence ==> e.sequence <= x.sequence
  {
    if forall x :: x in log && through < x.sequence ==> e.sequence <= x.sequence {
      SliceExtends(log, after, through, e);
    } else {
      var x :| x in log && through < x.sequence < e.sequence;
      SliceMember(log, after, e.sequence, x);
      SliceMember(log, after, through, x);
    }
  }

  lemma {:induction false} SliceSame(log: seq<Event>, after: nat, through: nat, beyond: nat)
    requires after <= through <= beyond && forall x :: x in log ==> x.sequence <= through || beyond < x.sequence
    ensures Slice(log, after, beyond) == Slice(log, after, through)
  {
    if log != [] { SliceSame(log[..|log| - 1], after, through, beyond); }
  }

  /** Two adjacent slices make one. */
  lemma {:induction false} SliceJoins(log: seq<Event>, a: nat, b: nat, c: nat)
    requires Ascending(log) && a <= b <= c
    ensures Slice(log, a, b) + Slice(log, b, c) == Slice(log, a, c)
  {
    AscendingAll(log);
    if log != [] {
      var init, last := log[..|log| - 1], log[|log| - 1];
      if last.sequence <= b {
        SliceNothing(log, b, c, b);
        SliceSame(log, a, b, c);
      } else {
        SliceJoins(init, a, b, c);
        assert Slice(log, a, b) == Slice(init, a, b);
        assert Slice(log, b, c) == Slice(init, b, c) + if last.sequence <= c then [last] else [];
      }
    }
  }

  lemma {:induction false} SliceNothing(log: seq<Event>, after: nat, through: nat, bound: nat)
    requires bound <= after && forall x :: x in log ==> x.sequence <= bound
    ensures Slice(log, after, through) == []
  {
    if log != [] { SliceNothing(log[..|log| - 1], after, through, bound); }
  }

  /** Pruning events the reader already has does not change what it still sees. */
  lemma {:induction false} SlicePruned(log: seq<Event>, pruned: nat, after: nat, through: nat)
    requires pruned <= |log| && forall i :: 0 <= i < pruned ==> log[i].sequence <= after
    ensures Slice(log[pruned..], after, through) == Slice(log, after, through)
  {
    if pruned == |log| {
      SliceNothing(log, after, through, after);
    } else {
      assert log[pruned..][..|log| - pruned - 1] == log[..|log| - 1][pruned..];
      SlicePruned(log[..|log| - 1], pruned, after, through);
    }
  }

  /** The first event of a slice is next in the log, and the rest is the slice after it. */
  lemma {:induction false} SliceHead(log: seq<Event>, after: nat, through: nat)
    requires Ascending(log) && Slice(log, after, through) != []
    ensures var head := Slice(log, after, through)[0];
            && head in log && after < head.sequence <= through
            && (forall x :: x in log && after < x.sequence ==> head.sequence <= x.sequence)
            && Slice(log, head.sequence, through) == Slice(log, after, through)[1..]
  {
    AscendingAll(log);
    var all := Slice(log, after, through);
    var head := all[0];
    SliceAscending(log, after, through);
    SliceMember(log, after, through, head);
    AscendingAll(all);
    forall x | x in log && after < x.sequence ensures head.sequence <= x.sequence {
      SliceMember(log, after, through, x);
    }
    SliceEmpty(log, after);
    SliceExtends(log, after, after, head);
    SliceJoins(log, after, head.sequence, through);
  }
}
