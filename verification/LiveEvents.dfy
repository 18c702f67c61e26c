/**
 What a live session does with the events it is told about (`apps/daemon/src/event-stream-session.ts`), as a
 function of the order they are told in.  A listener that appends while it is being told makes later sessions
 hear its event first; whether the client then misses one is decided by that order.
 */
module LiveEvents {
  import opened Wrappers
  import opened EventLog

  datatype Reason = CursorExpired | CursorAhead | InstanceChanged

  datatype Frame =
    | Started(cursor: nat, highWater: nat, earliestAvailable: nat)
    | Domain(event: Event)
    | Heartbeat(cursor: nat)
    | SlowConsumer(cursor: nat)
    | PlannedRestart
    | ResetRequired(reason: Reason, cursor: nat)

  /** The events among the frames a client received. */
  function Received(frames: seq<Frame>): seq<Event> {
    if frames == [] then []
    else Received(frames[..|frames| - 1]) + EventOf(frames[|frames| - 1])
  }

  function EventOf(frame: Frame): seq<Event> {
    match frame case Domain(e) => [e] case _ => []
  }

  lemma {:induction false} ReceivedAppend(frames: seq<Frame>, frame: Frame)
    ensures Received(frames + [frame]) == Received(frames) + EventOf(frame)
  {
    assert (frames + [frame])[..|frames|] == frames;
  }

  // ---------------------------------------------------------------- the environment

  /** Events appended at one moment and the order they are announced in, which a listener that appends again can shuffle. */
  datatype Batch = Batch(items: seq<(nat, nat)>, order: seq<nat>)
  {
    /** Every appended event is announced. */
    ghost predicate Complete() {
      (forall k :: 0 <= k < |order| ==> order[k] < |items|) && (forall i :: 0 <= i < |items| ==> i in order)
    }

    ghost predicate InOrder() {
      |order| == |items| && forall k :: 0 <= k < |order| ==> order[k] == k
    }
  }

  /** Appending gives each item the next sequence number, plus the gap a rolled back transaction leaves. */
  function Appended(from: nat, items: seq<(nat, nat)>): (events: seq<Event>)
    ensures |events| == |items|
    ensures forall i :: 0 <= i < |events| ==> from < events[i].sequence
    ensures Ascending(events) && from <= if items == [] then from else HighWater(events)
  {
    if items == [] then []
    else
      var earlier := Appended(from, items[..|items| - 1]);
      var (gap, body) := items[|items| - 1];
      earlier + [Event(1 + gap + (if earlier == [] then from else HighWater(earlier)), body)]
  }

  /** The log after a batch, and the batch's events in the order they are announced. */
  function Grown(log: seq<Event>, batch: Batch): (grown: seq<Event>)
    ensures |grown| == |log| + |batch.items| && log <= grown
  {
    log + Appended(HighWater(log), batch.items)
  }

  function Announced(log: seq<Event>, batch: Batch): (events: seq<Event>)
    requires batch.Complete() && |batch.items| <= |log|
    ensures |events| == |batch.order|
    ensures forall k :: 0 <= k < |events| ==> events[k] == log[|log| - |batch.items| + batch.order[k]]
  {
    seq(|batch.order|, k requires 0 <= k < |batch.order| => log[|log| - |batch.items| + batch.order[k]])
  }

  lemma {:induction false} AppendAscending(log: seq<Event>, added: seq<Event>)
    requires Ascending(log) && Ascending(added) && forall i :: 0 <= i < |added| ==> HighWater(log) < added[i].sequence
    ensures Ascending(log + added)
    ensures HighWater(log) <= HighWater(log + added)
  {
    if added == [] {
      assert log + added == log;
    } else {
      var init := added[..|added| - 1];
      AppendAscending(log, init);
      assert (log + added)[..|log + added| - 1] == log + init;
      if init == [] { assert log + init == log; }
    }
  }

  datatype Action =
    | Appends(batch: Batch)
    | Reads(bytes: nat)
    | Beats
    | Restarts
    | Disconnects(noticed: bool)

  ghost predicate AllComplete(actions: seq<Action>) {
    forall k :: 0 <= k < |actions| && actions[k].Appends? ==> actions[k].batch.Complete()
  }

  ghost predicate AllInOrder(actions: seq<Action>) {
    forall k :: 0 <= k < |actions| && actions[k].Appends? ==> actions[k].batch.InOrder()
  }

  // ---------------------------------------------------------------- a session, its socket and the log

  datatype Live = Live(log: seq<Event>, cursor: nat, received: seq<Event>, open: bool, closed: bool, buffered: nat)

  /** The most a socket may hold, and the size of a frame. */
  datatype Terms = Terms(limit: nat, size: Frame -> nat)

  /** `#sendBestEffort` of a frame that carries no event. */
  function BestEffort(s: Live, frame: Frame, t: Terms): Live {
    if s.open && s.buffered + t.size(frame) <= t.limit then s.(buffered := s.buffered + t.size(frame)) else s
  }

  /** `#slowConsumer`. */
  function Slowed(s: Live, t: Terms): Live {
    if s.closed then s else BestEffort(s, SlowConsumer(s.cursor), t).(open := false, closed := true)
  }

  predicate Fits(s: Live, frame: Frame, t: Terms) {
    !s.closed && s.open && s.buffered + t.size(frame) <= t.limit
  }

  /** `#send`. */
  function Pushed(s: Live, frame: Frame, t: Terms): Live {
    if Fits(s, frame, t) then s.(buffered := s.buffered + t.size(frame), received := s.received + EventOf(frame))
    else if s.open then Slowed(s, t) else s
  }

  /** `#sendEvent`. */
  function Heard(s: Live, e: Event, t: Terms): Live {
    if e.sequence <= s.cursor then s
    else if Fits(s, Domain(e), t) then Pushed(s, Domain(e), t).(cursor := e.sequence)
    else Pushed(s, Domain(e), t)
  }

  function HeardAll(s: Live, events: seq<Event>, t: Terms): Live {
    if events == [] then s else Heard(HeardAll(s, events[..|events| - 1], t), events[|events| - 1], t)
  }

  function Stepped(s: Live, action: Action, t: Terms): Live
    requires action.Appends? ==> action.batch.Complete()
  {
    match action
    case Appends(batch) => HeardAll(s.(log := Grown(s.log, batch)), Announced(Grown(s.log, batch), batch), t)
    case Reads(bytes) => s.(buffered := if bytes < s.buffered then s.buffered - bytes else 0)
    case Beats => Pushed(s, Heartbeat(s.cursor), t)
    case Restarts => if s.closed then s else BestEffort(s, PlannedRestart, t).(open := false, closed := true)
    case Disconnects(noticed) => s.(open := false, closed := s.closed || noticed)
  }

  function Ran(s: Live, actions: seq<Action>, t: Terms): Live
    requires AllComplete(actions)
  {
    if actions == [] then s else Stepped(Ran(s, actions[..|actions| - 1], t), actions[|actions| - 1], t)
  }

  lemma {:induction false} HeardMore(s: Live, events: seq<Event>, k: nat, t: Terms)
    requires k < |events|
    ensures HeardAll(s, events[..k + 1], t) == Heard(HeardAll(s, events[..k], t), events[k], t)
  {
    var front := events[..k + 1];
    assert |front| == k + 1 && front[..k] == events[..k] && front[k] == events[k];
  }

  lemma {:induction false} RanMore(s: Live, actions: seq<Action>, k: nat, t: Terms)
    requires AllComplete(actions) && k < |actions|
    ensures Ran(s, actions[..k + 1], t) == Stepped(Ran(s, actions[..k], t), actions[k], t)
  {
    var front := actions[..k + 1];
    assert |front| == k + 1 && front[..k] == actions[..k] && front[k] == actions[k];
  }

  // ---------------------------------------------------------------- the check on the order

  /** The event moves the cursor over one that was never sent. */
  predicate Skips(s: Live, e: Event, t: Terms) {
    s.cursor < e.sequence && Fits(s, Domain(e), t) && exists x :: x in s.log && s.cursor < x.sequence < e.sequence
  }

  predicate Unbroken(s: Live, events: seq<Event>, t: Terms) {
    events == []
    || (Unbroken(s, events[..|events| - 1], t) && !Skips(HeardAll(s, events[..|events| - 1], t), events[|events| - 1], t))
  }

  /** No event announced in the whole run moves the cursor over one that was never sent. */
  predicate Seamless(s: Live, actions: seq<Action>, t: Terms)
    requires AllComplete(actions)
  {
    if actions == [] then true
    else
      var before, last := Ran(s, actions[..|actions| - 1], t), actions[|actions| - 1];
      && Seamless(s, actions[..|actions| - 1], t)
      && (last.Appends? ==> Unbroken(before.(log := Grown(before.log, last.batch)), Announced(Grown(before.log, last.batch), last.batch), t))
  }

  // ---------------------------------------------------------------- what the client has, whatever the order

  /** The client received events of the log after `after` up to the cursor, each once and in order. */
  ghost predicate Fair(s: Live, after: nat) {
    && Ascending(s.log) && after <= s.cursor && (s.cursor == after || s.cursor <= HighWater(s.log))
    && Ascending(s.received) && forall e :: e in s.received ==> e in s.log && after < e.sequence <= s.cursor
  }

  /** And none is missing. */
  ghost predicate Whole(s: Live, after: nat) {
    s.received == Slice(s.log, after, s.cursor)
  }

  /** This event is behind the cursor and was never sent. */
  ghost predicate Lost(s: Live, after: nat, x: Event) {
    x in s.log && after < x.sequence <= s.cursor && x !in s.received
  }

  ghost predicate Misses(s: Live, after: nat) {
    exists x :: Lost(s, after, x)
  }

  lemma {:induction false} LostIsNotWhole(s: Live, after: nat)
    requires Misses(s, after)
    ensures !Whole(s, after)
  {
    var x :| Lost(s, after, x);
    SliceMember(s.log, after, s.cursor, x);
  }

  lemma {:induction false} HeardFair(s: Live, after: nat, e: Event, t: Terms)
    requires Fair(s, after) && e in s.log
    ensures Fair(Heard(s, e, t), after) && Heard(s, e, t).log == s.log
  {
    AscendingAll(s.log);
    if s.cursor < e.sequence && Fits(s, Domain(e), t) {
      var now := s.received + [e];
      assert now[..|now| - 1] == s.received;
      assert s.received != [] ==> s.received[|s.received| - 1] in s.received;
    }
  }

  /** One event keeps the slice whole exactly if it skips nothing; what is lost stays lost. */
  lemma {:induction false} HeardKeeps(s: Live, after: nat, e: Event, t: Terms)
    requires Fair(s, after) && e in s.log
    ensures Whole(s, after) && !Skips(s, e, t) ==> Whole(Heard(s, e, t), after)
    ensures Whole(s, after) && Skips(s, e, t) ==> Misses(Heard(s, e, t), after)
    ensures Misses(s, after) ==> Misses(Heard(s, e, t), after)
  {
    var now := Heard(s, e, t);
    if Misses(s, after) {
      var x :| Lost(s, after, x);
      assert Lost(now, after, x);
    }
    if Whole(s, after) && s.cursor < e.sequence && Fits(s, Domain(e), t) {
      if Skips(s, e, t) {
        var x :| x in s.log && s.cursor < x.sequence < e.sequence;
        assert Lost(now, after, x);
      } else {
        SliceExtends(s.log, after, s.cursor, e);
      }
    }
  }

  /** Whole as long as the order was unbroken, and missing an event from then on. */
  ghost predicate Told(s: Live, after: nat, unbroken: bool) {
    Fair(s, after) && if unbroken then Whole(s, after) else Misses(s, after)
  }

  lemma {:induction false} HeardAllTold(s: Live, after: nat, events: seq<Event>, t: Terms, unbroken: bool)
    requires Told(s, after, unbroken) && forall e :: e in events ==> e in s.log
    ensures HeardAll(s, events, t).log == s.log
    ensures Told(HeardAll(s, events, t), after, unbroken && Unbroken(s, events, t))
  {
    if events != [] {
      var front, last := events[..|events| - 1], events[|events| - 1];
      HeardAllTold(s, after, front, t, unbroken);
      HeardFair(HeardAll(s, front, t), after, last, t);
      HeardKeeps(HeardAll(s, front, t), after, last, t);
    }
  }

  /** What a live session received is the slice up to its cursor if and only if the order it was told in skips nothing. */
  lemma {:induction false} WholeIffUnbroken(s: Live, after: nat, events: seq<Event>, t: Terms)
    requires Fair(s, after) && Whole(s, after) && forall e :: e in events ==> e in s.log
    ensures Fair(HeardAll(s, events, t), after)
    ensures Whole(HeardAll(s, events, t), after) <==> Unbroken(s, events, t)
  {
    HeardAllTold(s, after, events, t, true);
    if Misses(HeardAll(s, events, t), after) { LostIsNotWhole(HeardAll(s, events, t), after); }
  }

  lemma {:induction false} GrownTold(s: Live, after: nat, batch: Batch, unbroken: bool)
    requires Told(s, after, unbroken)
    ensures Told(s.(log := Grown(s.log, batch)), after, unbroken)
  {
    var added := Appended(HighWater(s.log), batch.items);
    var now := s.(log := s.log + added);
    AppendAscending(s.log, added);
    if unbroken {
      if s.cursor == after {
        SliceEmpty(s.log, after);
        SliceEmpty(now.log, after);
      } else {
        SliceBeyond(s.log, added, after, s.cursor);
      }
    } else {
      var x :| Lost(s, after, x);
      assert Lost(now, after, x);
    }
  }

  lemma {:induction false} AnnouncedLogged(log: seq<Event>, batch: Batch)
    requires batch.Complete() && |batch.items| <= |log|
    ensures forall e :: e in Announced(log, batch) ==> e in log
  {
  }

  lemma {:induction false} SteppedTold(s: Live, after: nat, action: Action, t: Terms, unbroken: bool)
    requires Told(s, after, unbroken) && (action.Appends? ==> action.batch.Complete())
    ensures s.log <= Stepped(s, action, t).log
    ensures Told(Stepped(s, action, t), after, unbroken && (action.Appends? ==>
                 Unbroken(s.(log := Grown(s.log, action.batch)), Announced(Grown(s.log, action.batch), action.batch), t)))
  {
    if action.Appends? {
      var grown := Grown(s.log, action.batch);
      GrownTold(s, after, action.batch, unbroken);
      AnnouncedLogged(grown, action.batch);
      HeardAllTold(s.(log := grown), after, Announced(grown, action.batch), t, unbroken);
    } else {
      var now := Stepped(s, action, t);
      assert now.log == s.log && now.cursor == s.cursor && now.received == s.received;
      if !unbroken {
        var x :| Lost(s, after, x);
        assert Lost(now, after, x);
      }
    }
  }

  lemma {:induction false} RanTold(s: Live, after: nat, actions: seq<Action>, t: Terms)
    requires Told(s, after, true) && AllComplete(actions)
    ensures s.log <= Ran(s, actions, t).log && Told(Ran(s, actions, t), after, Seamless(s, actions, t))
  {
    if actions != [] {
      var front := actions[..|actions| - 1];
      RanTold(s, after, front, t);
      SteppedTold(Ran(s, front, t), after, actions[|actions| - 1], t, Seamless(s, front, t));
    }
  }

  /** Over a whole run: in order and without duplicates always, and without a gap if and only if no announcement skips. */
  lemma {:induction false} WholeIffSeamless(s: Live, after: nat, actions: seq<Action>, t: Terms)
    requires Fair(s, after) && Whole(s, after) && AllComplete(actions)
    ensures Fair(Ran(s, actions, t), after)
    ensures Whole(Ran(s, actions, t), after) <==> Seamless(s, actions, t)
  {
    RanTold(s, after, actions, t);
    if Misses(Ran(s, actions, t), after) { LostIsNotWhole(Ran(s, actions, t), after); }
  }

  // ---------------------------------------------------------------- everything arrives, unless the client is cut off

  predicate Off(s: Live) {
    s.closed || !s.open
  }

  ghost predicate CaughtUp(s: Live) {
    Off(s) || forall x :: x in s.log ==> x.sequence <= s.cursor
  }

  lemma {:induction false} HeardAllReaches(s: Live, events: seq<Event>, t: Terms)
    ensures var now := HeardAll(s, events, t);
            && now.log == s.log && s.cursor <= now.cursor && (Off(s) ==> now == s) && (s.open ==> now.open || now.closed)
            && (Off(now) || forall e :: e in events ==> e.sequence <= now.cursor)
  {
    if events != [] {
      var front := events[..|events| - 1];
      HeardAllReaches(s, front, t);
      assert events == front + [events[|events| - 1]];
    }
  }

  lemma {:induction false} AnnouncedAll(log: seq<Event>, batch: Batch, x: Event)
    requires batch.Complete() && x in Grown(log, batch)
    ensures x in log || x in Announced(Grown(log, batch), batch)
  {
    var grown := Grown(log, batch);
    var i :| 0 <= i < |grown| && grown[i] == x;
    if i < |log| {
      assert log[i] == x;
    } else {
      assert i - |log| in batch.order;
      var k :| 0 <= k < |batch.order| && batch.order[k] == i - |log|;
      assert Announced(grown, batch)[k] == x;
    }
  }

  lemma {:induction false} SteppedCaughtUp(s: Live, action: Action, t: Terms)
    requires CaughtUp(s) && (action.Appends? ==> action.batch.Complete())
    ensures CaughtUp(Stepped(s, action, t))
  {
    if action.Appends? {
      var grown := Grown(s.log, action.batch);
      HeardAllReaches(s.(log := grown), Announced(grown, action.batch), t);
      var now := Stepped(s, action, t);
      if !Off(now) {
        forall x | x in now.log ensures x.sequence <= now.cursor { AnnouncedAll(s.log, action.batch, x); }
      }
    }
  }

  lemma {:induction false} RanCaughtUp(s: Live, actions: seq<Action>, t: Terms)
    requires CaughtUp(s) && AllComplete(actions)
    ensures CaughtUp(Ran(s, actions, t))
  {
    if actions != [] {
      RanCaughtUp(s, actions[..|actions| - 1], t);
      SteppedCaughtUp(Ran(s, actions[..|actions| - 1], t), actions[|actions| - 1], t);
    }
  }

  /** The socket never holds more than the limit. */
  lemma {:induction false} HeardAllBounded(s: Live, events: seq<Event>, t: Terms)
    requires s.buffered <= t.limit
    ensures HeardAll(s, events, t).buffered <= t.limit
  {
    if events != [] { HeardAllBounded(s, events[..|events| - 1], t); }
  }

  lemma {:induction false} RanBounded(s: Live, actions: seq<Action>, t: Terms)
    requires s.buffered <= t.limit && AllComplete(actions)
    ensures Ran(s, actions, t).buffered <= t.limit
  {
    if actions != [] {
      var last := actions[|actions| - 1];
      RanBounded(s, actions[..|actions| - 1], t);
      if last.Appends? {
        var before := Ran(s, actions[..|actions| - 1], t);
        var grown := Grown(before.log, last.batch);
        HeardAllBounded(before.(log := grown), Announced(grown, last.batch), t);
      }
    }
  }

  // ---------------------------------------------------------------- announcements in log order skip nothing

  ghost predicate SentAt(log: seq<Event>, cursor: nat, n: nat, i: nat) {
    i < |log| ==> (log[i].sequence <= cursor <==> i < n)
  }

  /** The cursor stands just before the event with index `n`. */
  ghost predicate SentUpTo(log: seq<Event>, cursor: nat, n: nat) {
    forall i: nat :: SentAt(log, cursor, n, i)
  }

  lemma {:induction false} SentNext(log: seq<Event>, cursor: nat, n: nat)
    requires Ascending(log) && SentUpTo(log, cursor, n) && n < |log|
    ensures forall x :: x in log && cursor < x.sequence ==> log[n].sequence <= x.sequence
    ensures cursor < log[n].sequence && SentUpTo(log, log[n].sequence, n + 1)
  {
    AscendingAll(log);
    assert SentAt(log, cursor, n, n);
    forall x | x in log && cursor < x.sequence ensures log[n].sequence <= x.sequence {
      var i :| 0 <= i < |log| && log[i] == x;
      assert SentAt(log, cursor, n, i);
    }
    var now, next := log[n].sequence, n + 1;
    forall i: nat ensures SentAt(log, now, next, i) {}
  }

  lemma {:induction false} InOrderUnbroken(s: Live, start: nat, events: seq<Event>, t: Terms)
    requires Ascending(s.log) && start + |events| <= |s.log| && (Off(s) || SentUpTo(s.log, s.cursor, start))
    requires forall k :: 0 <= k < |events| ==> events[k] == s.log[start + k]
    ensures Unbroken(s, events, t)
    ensures var now := HeardAll(s, events, t);
            now.log == s.log && (Off(now) || SentUpTo(s.log, now.cursor, start + |events|))
  {
    if events != [] {
      var front := events[..|events| - 1];
      InOrderUnbroken(s, start, front, t);
      NextInOrder(HeardAll(s, front, t), start + |front|, t);
    }
  }

  lemma {:induction false} NextInOrder(s: Live, n: nat, t: Terms)
    requires Ascending(s.log) && n < |s.log| && (Off(s) || SentUpTo(s.log, s.cursor, n))
    ensures !Skips(s, s.log[n], t)
    ensures var now := Heard(s, s.log[n], t);
            now.log == s.log && (Off(now) || SentUpTo(s.log, now.cursor, n + 1))
  {
    if !Off(s) { SentNext(s.log, s.cursor, n); }
  }

  /** The log has reached the place the session began at. */
  predicate Reached(s: Live, after: nat) {
    Off(s) || after <= HighWater(s.log)
  }

  /** When every batch is announced in log order, the run skips nothing. */
  lemma {:induction false} InOrderSeamless(s: Live, after: nat, actions: seq<Action>, t: Terms)
    requires Told(s, after, true) && CaughtUp(s) && Reached(s, after)
    requires AllComplete(actions) && AllInOrder(actions)
    ensures Seamless(s, actions, t) && Reached(Ran(s, actions, t), after)
  {
    if actions != [] {
      var front, last := actions[..|actions| - 1], actions[|actions| - 1];
      InOrderSeamless(s, after, front, t);
      RanTold(s, after, front, t);
      RanCaughtUp(s, front, t);
      StepInOrder(Ran(s, front, t), after, last, t);
    }
  }

  lemma {:induction false} StepInOrder(s: Live, after: nat, action: Action, t: Terms)
    requires Told(s, after, true) && CaughtUp(s) && Reached(s, after)
    requires action.Appends? ==> action.batch.Complete() && action.batch.InOrder()
    ensures Reached(Stepped(s, action, t), after)
    ensures action.Appends? ==> Unbroken(s.(log := Grown(s.log, action.batch)), Announced(Grown(s.log, action.batch), action.batch), t)
  {
    if action.Appends? {
      var grown := Grown(s.log, action.batch);
      BatchInOrder(s, after, action.batch, t);
      HeardAllReaches(s.(log := grown), Announced(grown, action.batch), t);
    }
  }

  lemma {:induction false} SentBefore(log: seq<Event>, added: seq<Event>, cursor: nat)
    requires Ascending(log + added) && cursor <= HighWater(log) && forall x :: x in log ==> x.sequence <= cursor
    ensures SentUpTo(log + added, cursor, |log|)
  {
    var grown := log + added;
    forall i: nat ensures SentAt(grown, cursor, |log|, i) {
      if i < |log| {
        assert grown[i] == log[i];
      } else if i < |grown| && log != [] {
        AscendingPair(grown, |log| - 1, i);
      } else if i < |grown| {
        AscendingPair(grown, i, i);
      }
    }
  }

  lemma {:induction false} BatchInOrder(s: Live, after: nat, batch: Batch, t: Terms)
    requires Fair(s, after) && CaughtUp(s) && Reached(s, after) && batch.Complete() && batch.InOrder()
    ensures Unbroken(s.(log := Grown(s.log, batch)), Announced(Grown(s.log, batch), batch), t)
    ensures Off(s) || after <= HighWater(Grown(s.log, batch))
  {
    var grown := Grown(s.log, batch);
    GrownInOrder(s, after, batch);
    AnnouncedInOrder(grown, batch);
    InOrderUnbroken(s.(log := grown), |s.log|, Announced(grown, batch), t);
  }

  lemma {:induction false} GrownInOrder(s: Live, after: nat, batch: Batch)
    requires Fair(s, after) && CaughtUp(s) && Reached(s, after)
    ensures Ascending(Grown(s.log, batch))
    ensures Off(s) || (SentUpTo(Grown(s.log, batch), s.cursor, |s.log|) && after <= HighWater(Grown(s.log, batch)))
  {
    var added := Appended(HighWater(s.log), batch.items);
    AppendAscending(s.log, added);
    if !Off(s) { SentBefore(s.log, added, s.cursor); }
  }

  lemma {:induction false} AnnouncedInOrder(log: seq<Event>, batch: Batch)
    requires batch.Complete() && batch.InOrder() && |batch.items| <= |log|
    ensures forall k :: 0 <= k < |batch.order| ==> Announced(log, batch)[k] == log[|log| - |batch.items| + k]
  {
  }

  // ---------------------------------------------------------------- an order that loses an event

  /**
     Two events announced in the wrong order to a session that is up to date: the first is never sent, whatever
     happens afterwards, and a client that resumes from its cursor does not get it either.
   */
  lemma {:induction false} ReversedLoses(s: Live, after: nat, first: (nat, nat), second: (nat, nat), rest: seq<Action>, later: nat, t: Terms)
    requires Fair(s, after) && s.cursor == HighWater(s.log) && AllComplete(rest)
    requires forall e :: Fits(s, Domain(e), t)
    ensures Reversed(first, second).Complete()
    ensures var lost := Grown(s.log, Reversed(first, second))[|s.log|];
            var now := Ran(Stepped(s, Appends(Reversed(first, second)), t), rest, t);
            lost in now.log && after < lost.sequence <= now.cursor && lost !in now.received && lost !in Slice(now.log, now.cursor, later)
  {
    var lost := Grown(s.log, Reversed(first, second))[|s.log|];
    ReversedHeard(s, after, first, second, t);
    var told := Stepped(s, Appends(Reversed(first, second)), t);
    LostForever(told, after, lost, rest, t);
    SliceMember(Ran(told, rest, t).log, Ran(told, rest, t).cursor, later, lost);
  }

  /** Two events, the second announced before the first. */
  function Reversed(first: (nat, nat), second: (nat, nat)): (batch: Batch)
    ensures batch.Complete()
  {
    var batch := Batch([first, second], [1, 0]);
    assert batch.order[1] == 0 && batch.order[0] == 1;
    batch
  }

  lemma {:induction false} ReversedHeard(s: Live, after: nat, first: (nat, nat), second: (nat, nat), t: Terms)
    requires Fair(s, after) && s.cursor == HighWater(s.log) && forall e :: Fits(s, Domain(e), t)
    ensures Lost(Stepped(s, Appends(Reversed(first, second)), t), after, Grown(s.log, Reversed(first, second))[|s.log|])
  {
    var grown := Grown(s.log, Reversed(first, second));
    var lost, sent := grown[|s.log|], grown[|s.log| + 1];
    GrownTwo(s.log, first, second);
    assert Announced(grown, Reversed(first, second)) == [sent, lost];
    var told := s.(log := grown);
    TwoHeard(told, sent, lost, t);
    assert Fits(s, Domain(sent), t);
    assert lost in grown && lost !in s.received;
  }

  lemma {:induction false} GrownTwo(log: seq<Event>, first: (nat, nat), second: (nat, nat))
    requires Ascending(log)
    ensures var grown := Grown(log, Reversed(first, second));
            HighWater(log) < grown[|log|].sequence < grown[|log| + 1].sequence && grown[|log|] !in log
  {
    var items: seq<(nat, nat)> := [first, second];
    assert items[..1] == [first] && |items[..1][..0]| == 0;
    AscendingAll(log);
  }

  lemma {:induction false} HeardAllLost(s: Live, after: nat, x: Event, events: seq<Event>, t: Terms)
    requires Lost(s, after, x)
    ensures Lost(HeardAll(s, events, t), after, x)
  {
    if events != [] { HeardAllLost(s, after, x, events[..|events| - 1], t); }
  }

  lemma {:induction false} LostForever(s: Live, after: nat, x: Event, actions: seq<Action>, t: Terms)
    requires Lost(s, after, x) && AllComplete(actions)
    ensures Lost(Ran(s, actions, t), after, x)
  {
    if actions != [] {
      var front, last := actions[..|actions| - 1], actions[|actions| - 1];
      LostForever(s, after, x, front, t);
      if last.Appends? {
        var before := Ran(s, front, t);
        var grown := Grown(before.log, last.batch);
        HeardAllLost(before.(log := grown), after, x, Announced(grown, last.batch), t);
      }
    }
  }

  lemma {:induction false} AppendedTwo(first: (nat, nat), second: (nat, nat))
    ensures Appended(0, [first, second]) == [Event(1 + first.0, first.1), Event(2 + first.0 + second.0, second.1)]
  {
    assert [first, second][..1] == [first] && |[first][..0]| == 0;
    assert Appended(0, [first]) == [Event(1 + first.0, first.1)];
  }

  /** The smallest such run: an empty log, a fresh client, and two events. */
  lemma {:induction false} FirstEventLost(t: Terms)
    requires t.size(Domain(Event(2, 8))) <= t.limit
    ensures Stepped(Live([], 0, [], true, false, 0), Appends(Reversed((0, 7), (0, 8))), t) ==
            Live([Event(1, 7), Event(2, 8)], 2, [Event(2, 8)], true, false, t.size(Domain(Event(2, 8))))
  {
    AppendedTwo((0, 7), (0, 8));
    var log := Grown([], Reversed((0, 7), (0, 8)));
    assert log == [Event(1, 7), Event(2, 8)];
    assert Announced(log, Reversed((0, 7), (0, 8))) == [Event(2, 8), Event(1, 7)];
    TwoHeard(Live(log, 0, [], true, false, 0), Event(2, 8), Event(1, 7), t);
  }

  lemma {:induction false} TwoHeard(s: Live, first: Event, second: Event, t: Terms)
    ensures HeardAll(s, [first, second], t) == Heard(Heard(s, first, t), second, t)
  {
    assert [first, second][..1] == [first] && |[first][..0]| == 0;
    assert HeardAll(s, [first], t) == Heard(HeardAll(s, [first][..0], t), first, t);
  }

  // ---------------------------------------------------------------- the replay loop

  /** The guard of the replay loop. */
  predicate Replays(s: Live, highWater: nat) {
    !s.closed && s.cursor < highWater
  }

  function PageStep(s: Live, highWater: nat, pageSize: nat, t: Terms): Live {
    var page := Page(s.log, s.cursor, highWater, pageSize);
    if page == [] then BestEffort(s, ResetRequired(CursorExpired, highWater), t).(open := false, closed := true)
    else HeardAll(s, page, t)
  }

  function Replayed(s: Live, highWater: nat, pageSize: nat, t: Terms, n: nat): Live {
    if n == 0 then s
    else
      var before := Replayed(s, highWater, pageSize, t, n - 1);
      if Replays(before, highWater) then PageStep(before, highWater, pageSize, t) else before
  }

  lemma {:induction false} PageAdvances(s: Live, highWater: nat, pageSize: nat, t: Terms)
    requires 1 <= pageSize && s.open && Replays(s, highWater)
    ensures var now := PageStep(s, highWater, pageSize, t);
            now.closed || (now.open && s.cursor < now.cursor)
  {
    var page := Page(s.log, s.cursor, highWater, pageSize);
    if page != [] {
      assert page[0] in Slice(s.log, s.cursor, highWater);
      SliceMember(s.log, s.cursor, highWater, page[0]);
      HeardAllReaches(s, page, t);
      assert page[0] in page;
    }
  }

  lemma {:induction false} ReplayAdvances(s: Live, highWater: nat, pageSize: nat, t: Terms, n: nat)
    requires 1 <= pageSize && s.open
    ensures var now := Replayed(s, highWater, pageSize, t, n);
            !Replays(now, highWater) || (now.open && s.cursor + n <= now.cursor)
  {
    if n != 0 {
      ReplayAdvances(s, highWater, pageSize, t, n - 1);
      var before := Replayed(s, highWater, pageSize, t, n - 1);
      if Replays(before, highWater) { PageAdvances(before, highWater, pageSize, t); }
    }
  }

  lemma {:induction false} ReplayStutters(s: Live, highWater: nat, pageSize: nat, t: Terms, n: nat)
    requires Replays(s, highWater) && !s.open && Page(s.log, s.cursor, highWater, pageSize) != []
    ensures Replayed(s, highWater, pageSize, t, n) == s
  {
    if n != 0 {
      ReplayStutters(s, highWater, pageSize, t, n - 1);
      HeardAllReaches(s, Page(s.log, s.cursor, highWater, pageSize), t);
    }
  }

  ghost predicate ReplayEnds(s: Live, highWater: nat, pageSize: nat, t: Terms) {
    exists n: nat :: !Replays(Replayed(s, highWater, pageSize, t, n), highWater)
  }

  /** The replay loop ends if and only if the session is closed, its socket is open, or there is nothing to replay. */
  lemma {:induction false} ReplayEndsIff(s: Live, highWater: nat, pageSize: nat, t: Terms)
    requires 1 <= pageSize
    ensures ReplayEnds(s, highWater, pageSize, t) <==>
            s.closed || s.open || highWater <= s.cursor || Slice(s.log, s.cursor, highWater) == []
  {
    if s.closed || highWater <= s.cursor {
      assert !Replays(Replayed(s, highWater, pageSize, t, 0), highWater);
    } else if s.open {
      ReplayAdvances(s, highWater, pageSize, t, highWater - s.cursor);
      assert !Replays(Replayed(s, highWater, pageSize, t, highWater - s.cursor), highWater);
    } else if Slice(s.log, s.cursor, highWater) == [] {
      assert Replayed(s, highWater, pageSize, t, 1) == PageStep(Replayed(s, highWater, pageSize, t, 0), highWater, pageSize, t);
      assert !Replays(Replayed(s, highWater, pageSize, t, 1), highWater);
    } else {
      forall n: nat ensures Replays(Replayed(s, highWater, pageSize, t, n), highWater) { ReplayStutters(s, highWater, pageSize, t, n); }
    }
  }

  /** So a subscription that was not refused finishes its replay exactly when what `Start` requires holds. */
  lemma {:induction false} ReplayToTheEndEndsIff(s: Live, pageSize: nat, t: Terms)
    requires 1 <= pageSize
    ensures ReplayEnds(s, HighWater(s.log), pageSize, t) <==> s.closed || s.open || HighWater(s.log) <= s.cursor
  {
    ReplayEndsIff(s, HighWater(s.log), pageSize, t);
    if s.cursor < HighWater(s.log) { SliceMember(s.log, s.cursor, HighWater(s.log), s.log[|s.log| - 1]); }
  }
}
