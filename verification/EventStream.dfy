/**
 One client's event stream (`apps/daemon/src/event-stream-session.ts`): paged replay of the log,
 live events that arrive meanwhile, and closing a consumer that is too slow.  The `domain.event` frames on
 the socket are a contiguous slice of the log, exactly as long as live events come in an order that skips none.
 */
module EventStream {
  import opened Wrappers
  import opened EventLog
  import opened LiveEvents

  /** Why a subscription is refused, and the cursor the client should restart from. */
  function Refusal(sameInstance: bool, after: nat, log: seq<Event>): Option<(Reason, nat)> {
    if !sameInstance then Some((InstanceChanged, after))
    else if after > HighWater(log) then Some((CursorAhead, HighWater(log)))
    else if Earliest(log) > 0 && after < Earliest(log) - 1 then Some((CursorExpired, HighWater(log)))
    else None
  }

  // ---------------------------------------------------------------- sorting what arrived during replay

  ghost predicate Ordered(s: seq<Event>) {
    forall i, j :: 0 <= i < j < |s| ==> s[i].sequence <= s[j].sequence
  }

  function Insert(e: Event, s: seq<Event>): (r: seq<Event>)
    requires Ordered(s)
    ensures Ordered(r) && forall x :: x in r <==> x == e || x in s
  {
    if s == [] || e.sequence < s[0].sequence then [e] + s
    else
      var rest := Insert(e, s[1..]);
      assert forall x :: x in rest ==> s[0].sequence <= x.sequence;
      assert forall x :: x in s <==> x == s[0] || x in s[1..];
      [s[0]] + rest
  }

  function Sorted(s: seq<Event>): (r: seq<Event>)
    ensures Ordered(r) && forall x :: x in r <==> x in s
  {
    if s == [] then []
    else
      assert forall x :: x in s <==> x == s[0] || x in s[1..];
      Insert(s[0], Sorted(s[1..]))
  }

  // ---------------------------------------------------------------- the environment

  /** What happens between two pages: events are appended, and the client reads some bytes. */
  datatype Tick = Tick(batch: Batch, drained: nat)

  lemma {:induction false} PageAscends(log: seq<Event>, cursor: nat, bound: nat, page: seq<Event>)
    requires Ascending(log) && page <= Slice(log, cursor, bound)
    ensures forall e :: e in page ==> e in log && cursor < e.sequence <= bound
  {
    forall e | e in page ensures e in log && cursor < e.sequence <= bound {
      assert e in Slice(log, cursor, bound);
      SliceMember(log, cursor, bound, e);
    }
  }

  lemma {:induction false} PageHead(log: seq<Event>, cursor: nat, bound: nat, page: seq<Event>, k: nat)
    requires Ascending(log) && k < |page| && page[k..] <= Slice(log, cursor, bound)
    ensures cursor < page[k].sequence && (forall x :: x in log && cursor < x.sequence ==> page[k].sequence <= x.sequence)
    ensures page[k + 1..] <= Slice(log, page[k].sequence, bound)
  {
    assert page[k..][0] == page[k] && page[k..][1..] == page[k + 1..];
    SliceHead(log, cursor, bound);
  }

  /** Event `i`, if it came at index `base` or later and is beyond the cursor, is pending or still to be announced. */
  ghost predicate BufferedAt(log: seq<Event>, base: nat, cursor: nat, pending: seq<Event>, start: nat, order: seq<nat>, i: nat) {
    base <= i < |log| && cursor < log[i].sequence ==> log[i] in pending || (start <= i && (i - start) in order)
  }

  ghost predicate Buffered(log: seq<Event>, base: nat, cursor: nat, pending: seq<Event>, start: nat, order: seq<nat>) {
    forall i: nat :: BufferedAt(log, base, cursor, pending, start, order, i)
  }

  lemma {:induction false} BufferedAtFirst(log: seq<Event>, base: nat, cursor: nat, pending: seq<Event>, start: nat, batch: Batch)
    requires batch.Complete() && |log| == start + |batch.items|
    requires Buffered(log[..start], base, cursor, pending, 0, [])
    ensures Buffered(log, base, cursor, pending, start, batch.order)
  {
    forall i: nat ensures BufferedAt(log, base, cursor, pending, start, batch.order, i) {
      assert BufferedAt(log[..start], base, cursor, pending, 0, [], i);
    }
  }

  lemma {:induction false} BufferedNext(log: seq<Event>, base: nat, cursor: nat, pending: seq<Event>, start: nat, order: seq<nat>)
    requires order != [] && start + order[0] < |log| && Buffered(log, base, cursor, pending, start, order)
    ensures var e := log[start + order[0]];
            Buffered(log, base, cursor, if e.sequence <= cursor then pending else pending + [e], start, order[1..])
  {
    var e := log[start + order[0]];
    assert order == [order[0]] + order[1..];
    var held, rest := if e.sequence <= cursor then pending else pending + [e], order[1..];
    forall i: nat ensures BufferedAt(log, base, cursor, held, start, rest, i) {
      assert BufferedAt(log, base, cursor, pending, start, order, i);
    }
  }

  /** When the whole batch has been announced, only pending events are beyond the cursor; they still cover a later cursor. */
  lemma {:induction false} BufferedLater(log: seq<Event>, base: nat, cursor: nat, pending: seq<Event>, start: nat, later: nat)
    requires Buffered(log, base, cursor, pending, start, []) && cursor <= later
    ensures Buffered(log, base, later, pending, 0, [])
  {
    forall i: nat ensures BufferedAt(log, base, later, pending, 0, [], i) {
      assert BufferedAt(log, base, cursor, pending, start, [], i);
    }
  }

  /** Every event beyond the cursor is in `events`. */
  ghost predicate RemainingAt(log: seq<Event>, cursor: nat, events: seq<Event>, e: Event) {
    e in log && cursor < e.sequence ==> e in events
  }

  ghost predicate Remaining(log: seq<Event>, cursor: nat, events: seq<Event>) {
    forall e :: RemainingAt(log, cursor, events, e)
  }

  lemma {:induction false} RemainingSame(log: seq<Event>, cursor: nat, events: seq<Event>, same: seq<Event>)
    requires Remaining(log, cursor, events) && forall e :: e in same <==> e in events
    ensures Remaining(log, cursor, same)
  {
    forall e ensures RemainingAt(log, cursor, same, e) {
      assert RemainingAt(log, cursor, events, e);
    }
  }

  lemma {:induction false} RemainingNext(log: seq<Event>, cursor: nat, events: seq<Event>, k: nat)
    requires Ascending(log) && Ordered(events) && k < |events| && events[k] in log && Remaining(log, cursor, events[k..])
    ensures cursor < events[k].sequence ==> forall e :: e in log && cursor < e.sequence ==> events[k].sequence <= e.sequence
    ensures Remaining(log, if events[k].sequence <= cursor then cursor else events[k].sequence, events[k + 1..])
  {
    assert events[k..] == [events[k]] + events[k + 1..];
    AscendingAll(log);
    forall e | e in log && cursor < e.sequence ensures cursor < events[k].sequence ==> events[k].sequence <= e.sequence {
      assert RemainingAt(log, cursor, events[k..], e);
      var i :| 0 <= i < |events[k..]| && events[k..][i] == e;
    }
    var now := if events[k].sequence <= cursor then cursor else events[k].sequence;
    var rest := events[k + 1..];
    forall e ensures RemainingAt(log, now, rest, e) {
      assert RemainingAt(log, cursor, events[k..], e);
    }
  }

  /** After the replay, whatever is still beyond the cursor arrived while the session was subscribed. */
  lemma {:induction false} BufferedRemaining(log: seq<Event>, base: nat, cursor: nat, pending: seq<Event>, seen: nat)
    requires Ascending(log) && base <= seen <= |log| && HighWater(log[..seen]) <= cursor
    requires Buffered(log, base, cursor, pending, 0, [])
    ensures Remaining(log, cursor, pending)
  {
    AscendingAll(log);
    forall e ensures RemainingAt(log, cursor, pending, e) {
      if e in log && cursor < e.sequence {
        var i :| 0 <= i < |log| && log[i] == e;
        assert BufferedAt(log, base, cursor, pending, 0, [], i);
      }
    }
  }

  // ---------------------------------------------------------------- what the client has seen

  datatype Aspect = LogOrder | CursorBound | Contiguous | PendingLogged

  ghost predicate Holds(log: seq<Event>, after: nat, cursor: nat, frames: seq<Frame>, pending: seq<Event>, aspect: Aspect) {
    match aspect
    case LogOrder => Ascending(log)
    case CursorBound => cursor == after || cursor <= HighWater(log)
    case Contiguous => Received(frames) == Slice(log, after, cursor)
    case PendingLogged => forall e :: e in pending ==> e in log
  }

  /** The events received are the slice of the log after `after` up to the cursor. */
  ghost predicate Consistent(log: seq<Event>, after: nat, cursor: nat, frames: seq<Frame>, pending: seq<Event>) {
    forall aspect :: Holds(log, after, cursor, frames, pending, aspect)
  }

  lemma {:induction false} Opened(log: seq<Event>, after: nat, cursor: nat, frames: seq<Frame>, pending: seq<Event>)
    requires Consistent(log, after, cursor, frames, pending)
    ensures Ascending(log) && (cursor == after || cursor <= HighWater(log)) && Received(frames) == Slice(log, after, cursor)
    ensures forall e :: e in pending ==> e in log
  {
    assert Holds(log, after, cursor, frames, pending, LogOrder) && Holds(log, after, cursor, frames, pending, CursorBound);
    assert Holds(log, after, cursor, frames, pending, Contiguous) && Holds(log, after, cursor, frames, pending, PendingLogged);
  }

  /** Frames that carry no event and pending events dropped leave the picture as it is. */
  lemma {:induction false} StillConsistent(log: seq<Event>, after: nat, cursor: nat, frames: seq<Frame>, pending: seq<Event>, framesNow: seq<Frame>, pendingNow: seq<Event>)
    requires Consistent(log, after, cursor, frames, pending) && Received(framesNow) == Received(frames)
    requires pendingNow == pending || pendingNow == []
    ensures Consistent(log, after, cursor, framesNow, pendingNow)
  {
    Opened(log, after, cursor, frames, pending);
  }

  lemma {:induction false} HeldConsistent(log: seq<Event>, after: nat, cursor: nat, frames: seq<Frame>, pending: seq<Event>, e: Event)
    requires Consistent(log, after, cursor, frames, pending) && e in log
    ensures Consistent(log, after, cursor, frames, pending + [e])
  {
    Opened(log, after, cursor, frames, pending);
  }

  /** Sending the next event of the log moves the slice on by one. */
  lemma {:induction false} SentConsistent(log: seq<Event>, after: nat, cursor: nat, frames: seq<Frame>, pending: seq<Event>, e: Event)
    requires Consistent(log, after, cursor, frames, pending) && e in log && after <= cursor < e.sequence
    requires forall x :: x in log && cursor < x.sequence ==> e.sequence <= x.sequence
    ensures Consistent(log, after, e.sequence, frames + [Domain(e)], pending)
  {
    Opened(log, after, cursor, frames, pending);
    ReceivedAppend(frames, Domain(e));
    SliceExtends(log, after, cursor, e);
    AscendingAll(log);
  }

  lemma {:induction false} AppendedConsistent(log: seq<Event>, after: nat, cursor: nat, frames: seq<Frame>, pending: seq<Event>, items: seq<(nat, nat)>)
    requires Consistent(log, after, cursor, frames, pending)
    ensures Consistent(log + Appended(HighWater(log), items), after, cursor, frames, pending)
    ensures HighWater(log) <= HighWater(log + Appended(HighWater(log), items))
  {
    var added := Appended(HighWater(log), items);
    Opened(log, after, cursor, frames, pending);
    AppendAscending(log, added);
    if cursor == after {
      SliceEmpty(log, after);
      SliceEmpty(log + added, after);
    } else {
      SliceBeyond(log, added, after, cursor);
    }
  }

  class Log {
    var events: seq<Event>
  }

  class Socket {
    var open: bool
    var buffered: nat
    var frames: seq<Frame>

    constructor ()
      ensures open && buffered == 0 && frames == []
    {
      open, buffered, frames := true, 0, [];
    }

    method Send(frame: Frame, size: nat)
      modifies this
      ensures open == old(open) && frames == old(frames) + [frame] && buffered == old(buffered) + size
    {
      frames := frames + [frame];
      buffered := buffered + size;
    }

    method Drain(bytes: nat)
      modifies this`buffered
      ensures buffered == if bytes < old(buffered) then old(buffered) - bytes else 0
    {
      buffered := if bytes < buffered then buffered - bytes else 0;
    }

    method Close()
      modifies this
      ensures !open && frames == old(frames) && buffered == old(buffered)
    {
      open := false;
    }
  }

  class EventStreamSession {
    const socket: Socket
    const log: Log
    const after: nat
    const sameInstance: bool
    const pageSize: nat
    const limit: nat
    const frameSize: Frame -> nat
    const eventSize: Event -> nat
    var pending: seq<Event>
    var pendingBytes: nat
    var cursor: nat
    var replaying: bool
    var closed: bool
    /** How long the log was when the session subscribed: every later event is announced to it. */
    ghost const base: nat

    function Agreed(): Terms {
      Terms(limit, frameSize)
    }

    /** The session, its socket and the log, as far as live events can tell. */
    ghost function Now(): Live
      reads this, socket, log
    {
      Live(log.events, cursor, Received(socket.frames), socket.open, closed, socket.buffered)
    }

    /** The client has received exactly the log events after its cursor up to the session's, and the socket never holds more than the limit. */
    ghost predicate Faithful()
      reads this, socket, log
    {
      && base <= |log.events|
      && after <= cursor
      && Consistent(log.events, after, cursor, socket.frames, pending)
      && socket.buffered <= limit
      && (!closed && replaying ==> pendingBytes <= limit)
    }

    ghost predicate Valid()
      reads this, socket, log
    {
      && Faithful()
      && (!closed && replaying ==> Buffered(log.events, base, cursor, pending, 0, []))
      && (!replaying ==> CaughtUp(Now()) && Reached(Now(), after))
    }

    constructor (socket: Socket, log: Log, after: nat, sameInstance: bool, pageSize: nat, limit: nat, frameSize: Frame -> nat, eventSize: Event -> nat)
      requires Ascending(log.events) && socket.frames == [] && socket.buffered <= limit && 1 <= pageSize
      ensures Valid() && this.socket == socket && this.log == log && this.after == after && this.sameInstance == sameInstance
      ensures replaying && !closed && cursor == after && base == |log.events| && this.pageSize == pageSize && this.limit == limit
    {
      this.socket, this.log, this.after, this.sameInstance := socket, log, after, sameInstance;
      this.pageSize, this.limit, this.frameSize, this.eventSize := pageSize, limit, frameSize, eventSize;
      pending, pendingBytes, cursor, replaying, closed := [], 0, after, true, false;
      base := |log.events|;
      new;
      SliceEmpty(log.events, after);
    }

    // -------------------------------------------------------------- sending

    method Cleanup()
      modifies this`pending, this`pendingBytes
      ensures pending == [] && pendingBytes == 0
    {
      pending, pendingBytes := [], 0;
    }

    method SendBestEffort(frame: Frame)
      requires !frame.Domain?
      modifies socket
      ensures Now() == BestEffort(old(Now()), frame, Agreed())
      ensures socket.frames == if old(socket.open) && old(socket.buffered) + frameSize(frame) <= limit then old(socket.frames) + [frame] else old(socket.frames)
    {
      if !socket.open { return; }
      if socket.buffered + frameSize(frame) <= limit {
        ReceivedAppend(socket.frames, frame);
        socket.Send(frame, frameSize(frame));
      }
    }

    method CloseSlowConsumer()
      modifies this`pending, this`pendingBytes, this`closed, socket
      ensures closed && Now() == Slowed(old(Now()), Agreed()) && pending == if old(closed) then old(pending) else []
    {
      if closed { return; }
      SendBestEffort(SlowConsumer(cursor));
      closed := true;
      socket.Close();
      Cleanup();
    }

    /** A frame goes out only on an open socket and within the byte limit; otherwise the consumer is closed. */
    method Send(frame: Frame) returns (sent: bool)
      modifies this`pending, this`pendingBytes, this`closed, socket
      ensures sent <==> Fits(old(Now()), frame, Agreed())
      ensures Now() == Pushed(old(Now()), frame, Agreed())
      ensures sent ==> socket.frames == old(socket.frames) + [frame]
      ensures old(closed) ==> socket.frames == old(socket.frames)
      ensures if closed && !old(closed) then pending == [] else pending == old(pending) && pendingBytes == old(pendingBytes)
    {
      if closed || !socket.open { return false; }
      if socket.buffered + frameSize(frame) > limit {
        CloseSlowConsumer();
        return false;
      }
      ReceivedAppend(socket.frames, frame);
      socket.Send(frame, frameSize(frame));
      sent := true;
    }

    /** The cursor moves exactly when the frame went out; a session that is whole stays so exactly when nothing unsent lies before the event. */
    method SendEvent(event: Event)
      modifies this`pending, this`pendingBytes, this`closed, this`cursor, socket
      ensures Now() == Heard(old(Now()), event, Agreed())
      ensures if closed && !old(closed) then pending == [] else pending == old(pending) && pendingBytes == old(pendingBytes)
      ensures old(Faithful()) && event in log.events && !Skips(old(Now()), event, Agreed()) ==> Faithful()
    {
      if event.sequence <= cursor { return; }
      ghost var before, frames, held := Now(), socket.frames, pending;
      var sent := Send(Domain(event));
      if sent {
        cursor := event.sequence;
        if old(Faithful()) && event in log.events && !Skips(before, event, Agreed()) {
          SentConsistent(log.events, after, before.cursor, frames, pending, event);
        }
      } else if old(Faithful()) {
        StillConsistent(log.events, after, cursor, frames, held, socket.frames, pending);
      }
    }

    // -------------------------------------------------------------- live events

    /** Holds the event while the session replays, and closes a consumer that cannot take more. */
    method OnLiveEvent(event: Event)
      modifies this`pending, this`pendingBytes, this`closed, this`cursor, socket
      ensures old(closed) || event.sequence <= old(cursor) ==> Now() == old(Now()) && pending == old(pending) && pendingBytes == old(pendingBytes)
      ensures !replaying ==> Now() == Heard(old(Now()), event, Agreed())
      ensures replaying && !old(closed) && event.sequence > old(cursor) ==>
                if old(pendingBytes) + eventSize(event) > limit then Now() == Slowed(old(Now()), Agreed()) && pending == []
                else Now() == old(Now()) && pending == old(pending) + [event] && pendingBytes == old(pendingBytes) + eventSize(event)
    {
      if closed || event.sequence <= cursor { return; }
      if !replaying {
        SendEvent(event);
        return;
      }
      var bytes := eventSize(event);
      if pendingBytes + bytes > limit {
        CloseSlowConsumer();
        return;
      }
      pendingBytes := pendingBytes + bytes;
      pending := pending + [event];
    }

    /** Holding the next event of a batch that was appended at index `start`. */
    method Hold(ghost start: nat, batch: Batch, k: nat)
      requires k < |batch.order| && batch.Complete() && start + |batch.items| == |log.events| && replaying && Faithful()
      requires !closed ==> Buffered(log.events, base, cursor, pending, start, batch.order[k..])
      modifies this`pending, this`pendingBytes, this`closed, this`cursor, socket
      ensures Faithful() && cursor == old(cursor) && (old(closed) ==> closed) && (closed || socket.open == old(socket.open))
      ensures !closed ==> Buffered(log.events, base, cursor, pending, start, batch.order[k + 1..])
      ensures old(closed) ==> Now() == old(Now())
    {
      var event := log.events[|log.events| - |batch.items| + batch.order[k]];
      ghost var frames, held := socket.frames, pending;
      if !closed { BufferedNext(log.events, base, cursor, pending, start, batch.order[k..]); }
      assert batch.order[k..][1..] == batch.order[k + 1..];
      OnLiveEvent(event);
      if pending == held + [event] {
        HeldConsistent(log.events, after, cursor, frames, held, event);
        StillConsistent(log.events, after, cursor, frames, held + [event], socket.frames, pending);
      } else {
        StillConsistent(log.events, after, cursor, frames, held, socket.frames, pending);
      }
    }

    method PublishWhileReplaying(batch: Batch)
      requires Valid() && replaying && batch.Complete()
      modifies this`pending, this`pendingBytes, this`closed, this`cursor, socket, log
      ensures Valid() && log.events == Grown(old(log.events), batch)
      ensures cursor == old(cursor) && (old(closed) ==> closed) && (closed || socket.open == old(socket.open))
      ensures old(closed) ==> Now() == old(Now()).(log := log.events)
    {
      ghost var start, before := |log.events|, log.events;
      AppendedConsistent(log.events, after, cursor, socket.frames, pending, batch.items);
      log.events := Grown(log.events, batch);
      ghost var all := log.events;
      assert all[..start] == before;
      if !closed { BufferedAtFirst(all, base, cursor, pending, start, batch); }
      assert batch.order[0..] == batch.order;
      for k := 0 to |batch.order|
        invariant log.events == all && Faithful() && cursor == old(cursor)
        invariant (old(closed) ==> closed) && (closed || socket.open == old(socket.open))
        invariant !closed ==> Buffered(all, base, cursor, pending, start, batch.order[k..])
        invariant old(closed) ==> Now() == old(Now()).(log := all)
      {
        Hold(start, batch, k);
      }
      assert batch.order[|batch.order|..] == [];
      if !closed { BufferedLater(all, base, cursor, pending, start, cursor); }
    }

    /** A live session does with a batch, in whatever order it is announced, what `LiveEvents.Stepped` says. */
    method PublishLive(batch: Batch)
      requires batch.Complete() && (closed || !replaying)
      modifies this`pending, this`pendingBytes, this`closed, this`cursor, socket, log
      ensures Now() == Stepped(old(Now()), Appends(batch), Agreed())
    {
      log.events := Grown(log.events, batch);
      ghost var told, events := Now(), Announced(log.events, batch);
      for k := 0 to |batch.order|
        invariant log.events == told.log && (closed || !replaying)
        invariant Now() == HeardAll(told, events[..k], Agreed())
      {
        HearNext(batch, told, k);
      }
      assert events[..|events|] == events;
    }

    method HearNext(batch: Batch, ghost told: Live, k: nat)
      requires batch.Complete() && k < |batch.order| && (closed || !replaying)
      requires log.events == told.log && |batch.items| <= |told.log|
      requires Now() == HeardAll(told, Announced(told.log, batch)[..k], Agreed())
      modifies this`pending, this`pendingBytes, this`closed, this`cursor, socket
      ensures (closed || !replaying) && Now() == HeardAll(told, Announced(told.log, batch)[..k + 1], Agreed())
    {
      var event := log.events[|log.events| - |batch.items| + batch.order[k]];
      assert Announced(told.log, batch)[k] == event;
      HeardMore(told, Announced(told.log, batch), k, Agreed());
      OnLiveEvent(event);
    }

    /** The log grows and the session is told about each new event, in any order. */
    method Publish(batch: Batch)
      requires batch.Complete() && (replaying ==> Valid())
      modifies this`pending, this`pendingBytes, this`closed, this`cursor, socket, log
      ensures log.events == Grown(old(log.events), batch)
      ensures replaying ==> Valid() && cursor == old(cursor) && (old(closed) ==> closed) && (closed || socket.open == old(socket.open))
      ensures old(closed) || !replaying ==> Now() == Stepped(old(Now()), Appends(batch), Agreed())
    {
      if replaying {
        ghost var before := Now();
        PublishWhileReplaying(batch);
        if old(closed) {
          HeardAllReaches(before.(log := log.events), Announced(log.events, batch), Agreed());
        }
      } else {
        PublishLive(batch);
        HeardAllReaches(old(Now()).(log := Grown(old(log.events), batch)), Announced(Grown(old(log.events), batch), batch), Agreed());
      }
    }

    method SendOther(frame: Frame) returns (sent: bool)
      requires Faithful() && !frame.Domain?
      modifies this`pending, this`pendingBytes, this`closed, socket
      ensures Faithful() && Received(socket.frames) == Received(old(socket.frames))
      ensures sent ==> socket.frames == old(socket.frames) + [frame] && !closed
      ensures !sent ==> closed || !socket.open
      ensures !closed ==> pending == old(pending) && pendingBytes == old(pendingBytes) && socket.open == old(socket.open)
      ensures old(closed) ==> closed && socket.frames == old(socket.frames)
    {
      ghost var frames, held := socket.frames, pending;
      sent := Send(frame);
      StillConsistent(log.events, after, cursor, frames, held, socket.frames, pending);
    }

    // -------------------------------------------------------------- the subscription

    method Reset(reason: Reason, cursor: nat)
      requires Faithful()
      modifies this`pending, this`pendingBytes, this`closed, socket
      ensures Faithful() && closed && !socket.open && pending == [] && Received(socket.frames) == Received(old(socket.frames))
      ensures old(socket.buffered) <= limit ==> socket.buffered <= limit
      ensures socket.frames == old(socket.frames) || socket.frames == old(socket.frames) + [ResetRequired(reason, cursor)]
    {
      ghost var frames, held := socket.frames, pending;
      SendBestEffort(ResetRequired(reason, cursor));
      closed := true;
      socket.Close();
      Cleanup();
      StillConsistent(log.events, after, this.cursor, frames, held, socket.frames, pending);
    }

    /** Where sending a page stands before its element `k`; `since` is the state in which the page was read. */
    ghost predicate Paged(page: seq<Event>, k: nat, bound: nat, since: Live)
      reads this, socket, log
      requires k <= |page|
    {
      && Now() == HeardAll(since, page[..k], Agreed()) && log.events == since.log
      && (!closed && socket.open ==> page[k..] <= Slice(log.events, cursor, bound) && (0 < k ==> cursor == page[k - 1].sequence))
      && since.cursor <= cursor && (cursor <= bound || cursor == since.cursor)
    }

    method SendNext(page: seq<Event>, k: nat, ghost bound: nat, ghost since: Live)
      requires k < |page| && Faithful() && Paged(page, k, bound, since)
      requires forall e :: e in page ==> e in log.events && e.sequence <= bound
      modifies this`pending, this`pendingBytes, this`closed, this`cursor, socket
      ensures Faithful() && Paged(page, k + 1, bound, since) && (old(closed) ==> closed)
      ensures if closed && !old(closed) then pending == [] else pending == old(pending) && pendingBytes == old(pendingBytes)
    {
      Opened(log.events, after, cursor, socket.frames, pending);
      HeardMore(since, page, k, Agreed());
      assert page[k] in page;
      if !closed && socket.open { PageHead(log.events, cursor, bound, page, k); }
      SendEvent(page[k]);
    }

    /** One replay page.  On a socket that is no longer open it sends nothing and moves nothing (see `LiveEvents.ReplayEndsIff`). */
    method SendPage(page: seq<Event>, ghost bound: nat)
      requires Faithful() && !closed && page <= Slice(log.events, cursor, bound)
      modifies this`pending, this`pendingBytes, this`closed, this`cursor, socket
      ensures Faithful() && old(cursor) <= cursor && (old(cursor) <= bound ==> cursor <= bound)
      ensures !closed ==> pending == old(pending) && pendingBytes == old(pendingBytes) && socket.open == old(socket.open)
      ensures !closed && socket.open && page != [] ==> old(cursor) < cursor == page[|page| - 1].sequence
      ensures !old(socket.open) ==> cursor == old(cursor) && !closed
      ensures Now() == HeardAll(old(Now()), page, Agreed())
    {
      Opened(log.events, after, cursor, socket.frames, pending);
      PageAscends(log.events, cursor, bound, page);
      ghost var since := Now();
      assert page[0..] == page;
      for k := 0 to |page|
        invariant Faithful() && Paged(page, k, bound, since)
        invariant !closed ==> pending == old(pending) && pendingBytes == old(pendingBytes)
      {
        SendNext(page, k, bound, since);
      }
      assert page[..|page|] == page;
      HeardAllReaches(since, page, Agreed());
      if page != [] { assert page[|page| - 1] in page; }
    }

    /** Where sending `events` stands before its element `k`. */
    ghost predicate Flushed(events: seq<Event>, k: nat)
      reads this, socket, log
      requires k <= |events|
    {
      !closed && socket.open ==> Remaining(log.events, cursor, events[k..])
    }

    method FlushNext(events: seq<Event>, k: nat)
      requires k < |events| && Faithful() && Flushed(events, k) && Ordered(events) && events[k] in log.events
      modifies this`pending, this`pendingBytes, this`closed, this`cursor, socket
      ensures Faithful() && Flushed(events, k + 1)
      ensures old(cursor) <= cursor && (old(closed) ==> closed) && (!closed ==> socket.open == old(socket.open))
    {
      Opened(log.events, after, cursor, socket.frames, pending);
      if !closed && socket.open { RemainingNext(log.events, cursor, events, k); }
      if events[k].sequence > cursor { SendEvent(events[k]); }
    }

    /** What arrived during the replay, in log order. */
    method TakePending() returns (events: seq<Event>)
      requires Faithful() && (!closed ==> Remaining(log.events, cursor, pending))
      modifies this`pending
      ensures pending == [] && Faithful() && Ordered(events) && Flushed(events, 0)
      ensures forall k :: 0 <= k < |events| ==> events[k] in log.events
    {
      events := Sorted(pending);
      Opened(log.events, after, cursor, socket.frames, pending);
      StillConsistent(log.events, after, cursor, socket.frames, pending, socket.frames, []);
      if !closed { RemainingSame(log.events, cursor, pending, events); }
      assert events[0..] == events;
      pending := [];
    }

    method Flush()
      requires Faithful() && !replaying && (!closed ==> Remaining(log.events, cursor, pending) && after <= HighWater(log.events))
      modifies this`pending, this`pendingBytes, this`closed, this`cursor, socket
      ensures Valid() && old(cursor) <= cursor && (old(closed) ==> closed) && (!closed ==> socket.open == old(socket.open))
    {
      var events := TakePending();
      for k := 0 to |events|
        invariant Faithful() && Flushed(events, k) && old(cursor) <= cursor
        invariant (old(closed) ==> closed) && (!closed ==> socket.open == old(socket.open))
      {
        if closed { break; }
        FlushNext(events, k);
      }
      assert events[|events|..] == [];
      if !closed && socket.open { RemainingNone(log.events, cursor); }
      pendingBytes := 0;
    }

    /** Pages of the log up to `highWater`, while events are appended and the client reads. */
    method Replay(highWater: nat, schedule: seq<Tick>)
      requires Valid() && replaying && 1 <= pageSize && cursor == after <= highWater <= HighWater(log.events)
      requires forall tick :: tick in schedule ==> tick.batch.Complete()
      requires closed || socket.open || highWater <= cursor
      modifies this`pending, this`pendingBytes, this`closed, this`cursor, socket, log
      ensures Valid() && old(log.events) <= log.events && (old(closed) ==> closed) && (closed || highWater <= cursor)
    {
      var k := 0;
      while !closed && cursor < highWater
        invariant Valid() && (old(closed) ==> closed) && old(log.events) <= log.events
        invariant after <= cursor <= highWater && k <= |schedule|
        invariant closed || socket.open || highWater <= cursor
        decreases if closed then 0 else 1, highWater - cursor
      {
        if k < |schedule| {
          Interfere(schedule[k]);
          k := k + 1;
          if closed { break; }
        }
        var page := Page(log.events, cursor, highWater, pageSize);
        if page == [] {
          Reset(CursorExpired, highWater);
          return;
        }
        ghost var before := cursor;
        SendPage(page, highWater);
        if !closed { BufferedLater(log.events, base, before, pending, 0, cursor); }
      }
    }

    method Interfere(tick: Tick)
      requires Valid() && replaying && tick.batch.Complete()
      modifies this`pending, this`pendingBytes, this`closed, this`cursor, socket, log
      ensures Valid() && old(log.events) <= log.events && cursor == old(cursor)
      ensures (old(closed) ==> closed) && (closed || socket.open == old(socket.open))
    {
      Publish(tick.batch);
      socket.Drain(tick.drained);
    }

    /**
     Refuses a cursor it cannot continue from; otherwise replays the log up to where it stood on entry,
     one page at a time while more events are appended, and then sends what arrived meanwhile.
     A subscriber whose socket closed without the session noticing is excluded unless there is nothing to replay.
     */
    method Start(schedule: seq<Tick>)
      requires Valid() && replaying && cursor == after && 1 <= pageSize
      requires forall tick :: tick in schedule ==> tick.batch.Complete()
      requires closed || socket.open || Refusal(sameInstance, after, log.events).Some? || HighWater(log.events) <= after
      modifies this, socket, log
      ensures Valid() && old(log.events) <= log.events && (old(closed) ==> closed)
      ensures var refusal := Refusal(sameInstance, after, old(log.events));
              if refusal.Some? then
                && closed && !socket.open && cursor == after && log.events == old(log.events)
                && (socket.frames == old(socket.frames) || socket.frames == old(socket.frames) + [ResetRequired(refusal.value.0, refusal.value.1)])
              else
                && !replaying
                && (!closed ==> HighWater(old(log.events)) <= cursor)
    {
      if !sameInstance {
        Reset(InstanceChanged, after);
        return;
      }
      var earliestAvailable, highWater := Earliest(log.events), HighWater(log.events);
      if after > highWater {
        Reset(CursorAhead, highWater);
        return;
      }
      if earliestAvailable > 0 && after < earliestAvailable - 1 {
        Reset(CursorExpired, highWater);
        return;
      }
      var started := SendOther(Started(after, highWater, earliestAvailable));
      ghost var seen := |log.events|;
      Replay(highWater, schedule);
      Opened(log.events, after, cursor, socket.frames, pending);
      HighWaterGrows(old(log.events), log.events);
      if !closed { BufferedRemaining(log.events, base, cursor, pending, seen); }
      replaying := false;
      Flush();
    }

    method Beat()
      modifies this`pending, this`pendingBytes, this`closed, socket
      ensures Now() == Pushed(old(Now()), Heartbeat(cursor), Agreed())
    {
      var sent := Send(Heartbeat(cursor));
    }

    method AnnounceRestart()
      modifies this`pending, this`pendingBytes, this`closed, socket
      ensures closed && Now() == Stepped(old(Now()), Restarts, Agreed())
      ensures if old(closed) then pending == old(pending) else pending == []
    {
      if closed { return; }
      SendBestEffort(PlannedRestart);
      closed := true;
      socket.Close();
      Cleanup();
    }

    method Close()
      modifies this`pending, this`pendingBytes, this`closed
      ensures Now() == old(Now()).(closed := true) && pending == []
    {
      closed := true;
      Cleanup();
    }

    // -------------------------------------------------------------- whole conversations

    /** One thing that happens to the session; a live one does what `LiveEvents.Stepped` says. */
    method Act(action: Action)
      requires action.Appends? ==> action.batch.Complete()
      requires replaying ==> Valid()
      modifies this`pending, this`pendingBytes, this`closed, this`cursor, socket, log
      ensures old(closed) || !replaying ==> Now() == Stepped(old(Now()), action, Agreed())
      ensures replaying ==> Valid() && cursor == old(cursor) && old(log.events) <= log.events
      ensures replaying && old(closed || socket.open) && action != Disconnects(false) ==> closed || socket.open
    {
      ghost var frames, held := socket.frames, pending;
      match action {
        case Appends(batch) => Publish(batch);
        case Reads(bytes) => socket.Drain(bytes);
        case Beats => if !replaying { Beat(); }
        case Restarts => AnnounceRestart();
        case Disconnects(noticed) =>
          socket.Close();
          if noticed { Close(); }
      }
      if replaying && !action.Appends? { StillConsistent(log.events, after, cursor, frames, held, socket.frames, pending); }
    }

    /** The replay is over, or the session was closed before it began. */
    ghost predicate Settled()
      reads this, socket, log
    {
      if replaying then Valid() && closed else true
    }

    method ActSettled(action: Action)
      requires Settled() && (action.Appends? ==> action.batch.Complete())
      modifies this`pending, this`pendingBytes, this`closed, this`cursor, socket, log
      ensures Settled() && Now() == Stepped(old(Now()), action, Agreed())
    {
      Act(action);
      if old(closed) && action.Appends? {
        var grown := Grown(old(log.events), action.batch);
        HeardAllReaches(old(Now()).(log := grown), Announced(grown, action.batch), Agreed());
      }
    }

    /** What happens after the replay. */
    method Continue(actions: seq<Action>)
      requires AllComplete(actions) && Settled()
      modifies this`pending, this`pendingBytes, this`closed, this`cursor, socket, log
      ensures Now() == Ran(old(Now()), actions, Agreed())
    {
      for k := 0 to |actions|
        invariant Settled() && Now() == Ran(old(Now()), actions[..k], Agreed())
      {
        RanMore(old(Now()), actions, k, Agreed());
        ActSettled(actions[k]);
      }
      assert actions[..|actions|] == actions;
    }

    /**
     A whole subscription: what happens before the replay, between its pages and afterwards.  In any order of
     announcements the client receives events of the log each once and in order, and has all of them unless it
     was cut off, or one was skipped: it received exactly one contiguous slice of the log if and only if no
     announcement after the replay moved the cursor over an unsent event, and none does in log order.
     */
    method Converse(before: seq<Action>, schedule: seq<Tick>, afterwards: seq<Action>) returns (ghost live: Live)
      requires Valid() && replaying && cursor == after && 1 <= pageSize && (closed || socket.open)
      requires AllComplete(before) && AllComplete(afterwards) && forall k :: 0 <= k < |before| ==> before[k] != Disconnects(false)
      requires forall tick :: tick in schedule ==> tick.batch.Complete()
      modifies this, socket, log
      ensures Fair(live, after) && Whole(live, after) && old(log.events) <= live.log
      ensures Now() == Ran(live, afterwards, Agreed()) && Fair(Now(), after) && CaughtUp(Now()) && socket.buffered <= limit
      ensures Received(socket.frames) == Slice(log.events, after, cursor) <==> Seamless(live, afterwards, Agreed())
      ensures AllInOrder(afterwards) ==> Seamless(live, afterwards, Agreed())
    {
      for k := 0 to |before|
        invariant Valid() && replaying && cursor == after && (closed || socket.open) && old(log.events) <= log.events
      {
        Act(before[k]);
      }
      Start(schedule);
      live := Now();
      WholeIsFair();
      Continue(afterwards);
      WholeIffSeamless(live, after, afterwards, Agreed());
      RanCaughtUp(live, afterwards, Agreed());
      RanBounded(live, afterwards, Agreed());
      if AllInOrder(afterwards) { InOrderSeamless(live, after, afterwards, Agreed()); }
    }

    lemma WholeIsFair()
      requires Faithful()
      ensures Told(Now(), after, true)
    {
      Opened(log.events, after, cursor, socket.frames, pending);
      SliceAscending(log.events, after, cursor);
      forall e | e in Received(socket.frames) ensures e in log.events && after < e.sequence <= cursor {
        SliceMember(log.events, after, cursor, e);
      }
    }
  }

  lemma {:induction false} RemainingNone(log: seq<Event>, cursor: nat)
    requires Remaining(log, cursor, [])
    ensures forall e :: e in log ==> e.sequence <= cursor
  {
    forall e | e in log ensures e.sequence <= cursor { assert RemainingAt(log, cursor, [], e); }
  }

  // ---------------------------------------------------------------- resuming

  /**
   A client that resumes from its cursor and is not refused sees the rest of the slice, even when the
   front of the log was pruned meanwhile, with one exception: the log was emptied by pruning and the
   client had received nothing, so that its cursor 0 no longer tells the two apart.
   */
  lemma {:induction false} ResumeContinues(history: seq<Event>, pruned: nat, more: seq<Event>, after: nat, cursor: nat, later: nat)
    requires Ascending(history + more) && pruned <= |history| && after <= cursor <= later
    requires Refusal(true, cursor, history[pruned..]) == None
    ensures Slice(history + more, after, cursor) + Slice((history + more)[pruned..], cursor, later) == Slice(history + more, after, later)
            <==> pruned == 0 || pruned < |history| || later < history[0].sequence
  {
    var all := history + more;
    AscendingAll(all);
    SliceJoins(all, after, cursor, later);
    if pruned < |history| {
      assert history[pruned..][0] == all[pruned];
      forall i | 0 <= i < pruned ensures all[i].sequence <= cursor { AscendingPair(all, i, pruned); }
      SlicePruned(all, pruned, cursor, later);
    } else if pruned == 0 {
      assert all[0..] == all;
    } else if later < history[0].sequence {
      assert all[0] == history[0];
      SliceAllBeyond(all, cursor, later);
      SliceAllBeyond(all[pruned..], cursor, later);
    } else {
      assert cursor == 0;
      SliceMember(all, cursor, later, history[0]);
      SliceMember(all[pruned..], cursor, later, history[0]);
      assert all[0] == history[0];
      assert Slice(all, cursor, later) != Slice(all[pruned..], cursor, later);
      var front := Slice(all, after, cursor);
      assert forall s, t :: front + s == front + t ==> (front + s)[|front|..] == s && (front + t)[|front|..] == t;
    }
  }

  lemma {:induction false} SliceAllBeyond(log: seq<Event>, after: nat, through: nat)
    requires forall e :: e in log ==> through < e.sequence
    ensures Slice(log, after, through) == []
  {
    if log != [] { SliceAllBeyond(log[..|log| - 1], after, through); }
  }

  lemma {:induction false} HighWaterGrows(log: seq<Event>, later: seq<Event>)
    requires Ascending(later) && log <= later
    ensures HighWater(log) <= HighWater(later)
  {
    if log != [] { AscendingPair(later, |log| - 1, |log| - 1); }
  }
}
