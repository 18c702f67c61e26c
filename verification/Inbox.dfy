/**
 The Foreman's inbox (`apps/daemon/src/foreman-inbox-scheduler.ts`): one input at a time is pasted into
 the Foreman's terminal, and nothing is pasted twice, however often the daemon dies and restarts.
 */
module Inbox {
  import opened Wrappers

  datatype State = Queued | Writing | Submitted | Ambiguous | Answered | Cancelled

  datatype Target = Target(run: nat, generation: nat, epoch: nat, changedAt: nat, completions: nat, process: nat, authority: nat)

  /** `conversation` tells the results of team conversations from everything else. */
  datatype Item = Item(id: nat, created: nat, conversation: bool, state: State, target: Option<Target>)

  predicate Outstanding(item: Item) {
    item.state.Writing? || item.state.Submitted? || item.state.Ambiguous?
  }

  predicate Older(a: Item, b: Item) {
    a.created < b.created || (a.created == b.created && a.id <= b.id)
  }

  // ---------------------------------------------------------------- the rest of the daemon at one moment

  datatype Run = Run(id: nat, generation: nat, running: bool, settled: bool, wanted: bool)
  datatype Status = Status(
    idle: bool, changedAt: nat, interactive: bool, staleAuthority: bool, present: bool, reporterAuthority: bool,
    epoch: nat, process: nat, completions: nat, reporterLease: nat, transportLease: nat)
  datatype Reporter = Reporter(epoch: nat, process: nat, lease: nat)

  /** What other services do to a row: they settle it, or find an outstanding one ambiguous. */
  datatype Move = Settle(index: nat, answered: bool) | Doubt(index: nat)

  datatype Moment = Moment(
    now: nat, closing: bool, configured: bool, enabled: bool, authority: nat, current: Option<Run>,
    controlled: nat -> bool, status: nat -> Status, reporter: nat -> Option<Reporter>, authorized: nat -> bool,
    pasted: bool, arrivals: seq<(nat, nat, bool)>, moves: seq<Move>, over: set<nat>)

  /** A run that is over is never current again. */
  function Current(m: Moment, over: set<nat>): Option<Run> {
    if m.current.Some? && m.current.value.id !in over then m.current else None
  }

  /** `#ready`. */
  predicate Ready(run: Run, m: Moment, over: set<nat>) {
    var current, status, reporter := Current(m, over), m.status(run.id), m.reporter(run.id);
    && m.enabled && current.Some? && current.value.id == run.id && current.value.generation == run.generation
    && current.value.running && current.value.settled && current.value.wanted && !m.controlled(run.id)
    && status.idle && status.changedAt + 2000 <= m.now && status.interactive && !status.staleAuthority
    && status.present && status.reporterAuthority
    && reporter.Some? && reporter.value.epoch == status.epoch && reporter.value.process == status.process
    && m.now < reporter.value.lease && m.now < status.reporterLease && m.now < status.transportLease
  }

  // ---------------------------------------------------------------- the updates

  /** `UPDATE ... WHERE` over the whole table. */
  function Rewritten(items: seq<Item>, change: Item -> Item): (after: seq<Item>)
    ensures |after| == |items| && forall i :: 0 <= i < |items| ==> after[i] == change(items[i])
  {
    if items == [] then [] else Rewritten(items[..|items| - 1], change) + [change(items[|items| - 1])]
  }

  /** A restarting daemon cannot know whether an interrupted paste arrived. */
  function Interrupted(): Item -> Item {
    (item: Item) => if item.state.Writing? then item.(state := Ambiguous) else item
  }

  /** A conversation result sent to a run that is over goes back to the queue for the current one. */
  function Requeued(run: nat, over: set<nat>): Item -> Item {
    (item: Item) =>
      if item.conversation && Outstanding(item) && item.target.Some? && item.target.value.run != run && item.target.value.run in over
      then item.(state := Queued, target := None) else item
  }

  function Moved(items: seq<Item>, move: Move): seq<Item> {
    if move.index >= |items| then items
    else
      var item := items[move.index];
      match move
      case Settle(i, answered) =>
        if Outstanding(item) || item.state.Queued? then items[i := item.(state := if answered then Answered else Cancelled)] else items
      case Doubt(i) =>
        if item.state.Writing? || item.state.Submitted? then items[i := item.(state := Ambiguous)] else items
  }

  function AllMoved(items: seq<Item>, moves: seq<Move>): seq<Item>
    decreases |moves|
  {
    if moves == [] then items else AllMoved(Moved(items, moves[0]), moves[1..])
  }

  function Arrived(arrivals: seq<(nat, nat, bool)>): (items: seq<Item>)
    ensures |items| == |arrivals| && forall i :: 0 <= i < |items| ==> items[i].state == Queued && items[i].target == None
  {
    seq(|arrivals|, i requires 0 <= i < |arrivals| => Item(arrivals[i].0, arrivals[i].1, arrivals[i].2, Queued, None))
  }

  // ---------------------------------------------------------------- what holds at every moment

  /** A paste that was begun: which row, into which run. */
  datatype Paste = Paste(index: nat, run: nat)

  ghost predicate SingleHolds(items: seq<Item>, i: nat, j: nat) {
    i < j < |items| ==> !(Outstanding(items[i]) && Outstanding(items[j]))
  }

  /** What a begun paste leaves behind: its row is not queued again, unless for a run after the one it went to. */
  ghost predicate PasteHolds(items: seq<Item>, pastes: seq<Paste>, over: set<nat>, k: nat) {
    k < |pastes| ==>
      && pastes[k].index < |items|
      && var item := items[pastes[k].index];
         && (!item.conversation ==> !item.state.Queued?)
         && (item.conversation ==> pastes[k].run in over || (!item.state.Queued? && item.target.Some? && item.target.value.run == pastes[k].run))
  }

  ghost predicate OnceHolds(items: seq<Item>, pastes: seq<Paste>, k: nat, l: nat) {
    k < l < |pastes| && pastes[k].index < |items| && pastes[k].index == pastes[l].index ==>
      items[pastes[k].index].conversation && pastes[k].run != pastes[l].run
  }

  ghost predicate Sound(items: seq<Item>, pastes: seq<Paste>, over: set<nat>) {
    && (forall i: nat, j: nat :: SingleHolds(items, i, j))
    && (forall k: nat :: PasteHolds(items, pastes, over, k))
    && (forall k: nat, l: nat :: OnceHolds(items, pastes, k, l))
  }

  ghost predicate FreeHolds(items: seq<Item>, i: nat) {
    i < |items| ==> !Outstanding(items[i])
  }

  ghost predicate Free(items: seq<Item>) {
    forall i: nat :: FreeHolds(items, i)
  }

  /** What any update but a claim may do to a row. */
  predicate Calms(was: Item, now: Item, over: set<nat>) {
    && now.conversation == was.conversation && (Outstanding(now) ==> Outstanding(was))
    && (now.state.Queued? ==> was.state.Queued? || (was.conversation && was.target.Some? && was.target.value.run in over))
    && (now.target == was.target || (now.state.Queued? && !was.state.Queued?))
  }

  ghost predicate CalmsAt(items: seq<Item>, after: seq<Item>, over: set<nat>, i: nat) {
    i < |after| ==> if i < |items| then Calms(items[i], after[i], over) else after[i].state.Queued?
  }

  ghost predicate AllCalm(items: seq<Item>, after: seq<Item>, over: set<nat>) {
    |items| <= |after| && forall i: nat :: CalmsAt(items, after, over, i)
  }

  lemma {:induction false} CalmSound(items: seq<Item>, after: seq<Item>, pastes: seq<Paste>, over: set<nat>)
    requires Sound(items, pastes, over) && AllCalm(items, after, over)
    ensures Sound(after, pastes, over) && (Free(items) ==> Free(after))
  {
    forall i: nat, j: nat ensures SingleHolds(after, i, j) {
      assert CalmsAt(items, after, over, i) && CalmsAt(items, after, over, j) && SingleHolds(items, i, j);
    }
    forall k: nat ensures PasteHolds(after, pastes, over, k) {
      assert PasteHolds(items, pastes, over, k);
      if k < |pastes| { assert CalmsAt(items, after, over, pastes[k].index); }
    }
    forall k: nat, l: nat ensures OnceHolds(after, pastes, k, l) {
      assert OnceHolds(items, pastes, k, l) && PasteHolds(items, pastes, over, k);
      if k < |pastes| { assert CalmsAt(items, after, over, pastes[k].index); }
    }
    if Free(items) {
      forall i: nat ensures FreeHolds(after, i) {
        assert FreeHolds(items, i) && CalmsAt(items, after, over, i);
      }
    }
  }

  lemma {:induction false} OverSound(items: seq<Item>, pastes: seq<Paste>, over: set<nat>, more: set<nat>)
    requires Sound(items, pastes, over)
    ensures Sound(items, pastes, over + more)
  {
    forall k: nat ensures PasteHolds(items, pastes, over + more, k) {
      assert PasteHolds(items, pastes, over, k);
    }
  }

  lemma {:induction false} MovedSound(items: seq<Item>, moves: seq<Move>, pastes: seq<Paste>, over: set<nat>)
    requires Sound(items, pastes, over)
    ensures Sound(AllMoved(items, moves), pastes, over) && |AllMoved(items, moves)| == |items|
    ensures Free(items) ==> Free(AllMoved(items, moves))
    ensures forall i :: 0 <= i < |items| ==> AllMoved(items, moves)[i].conversation == items[i].conversation
    decreases |moves|
  {
    if moves != [] {
      var next := Moved(items, moves[0]);
      forall i: nat ensures CalmsAt(items, next, over, i) {}
      CalmSound(items, next, pastes, over);
      MovedSound(next, moves[1..], pastes, over);
    }
  }

  /** What other services may do to a row: only its state changes, never back to the queue nor towards delivery. */
  ghost predicate Drifts(was: Item, now: Item) {
    && now.(state := was.state) == was
    && (now.state == was.state || now.state.Answered? || now.state.Cancelled? || (now.state.Ambiguous? && Outstanding(was)))
    && (Outstanding(now) ==> Outstanding(was))
  }

  lemma {:induction false} MovedDrifts(items: seq<Item>, moves: seq<Move>, i: nat)
    requires i < |items|
    ensures |AllMoved(items, moves)| == |items| && Drifts(items[i], AllMoved(items, moves)[i])
    decreases |moves|
  {
    if moves != [] { MovedDrifts(Moved(items, moves[0]), moves[1..], i); }
  }

  lemma {:induction false} ArrivedSound(items: seq<Item>, arrivals: seq<(nat, nat, bool)>, pastes: seq<Paste>, over: set<nat>)
    requires Sound(items, pastes, over)
    ensures Sound(items + Arrived(arrivals), pastes, over) && (Free(items) ==> Free(items + Arrived(arrivals)))
  {
    forall i: nat ensures CalmsAt(items, items + Arrived(arrivals), over, i) {}
    CalmSound(items, items + Arrived(arrivals), pastes, over);
  }

  lemma {:induction false} RewrittenSound(items: seq<Item>, change: Item -> Item, pastes: seq<Paste>, over: set<nat>)
    requires Sound(items, pastes, over) && forall item :: Calms(item, change(item), over)
    ensures Sound(Rewritten(items, change), pastes, over)
  {
    forall i: nat ensures CalmsAt(items, Rewritten(items, change), over, i) {}
    CalmSound(items, Rewritten(items, change), pastes, over);
  }

  /** Claiming a queued row and beginning its paste, when nothing is outstanding and the run is not over. */
  lemma {:induction false} ClaimSound(items: seq<Item>, pastes: seq<Paste>, over: set<nat>, i: nat, target: Target)
    requires Sound(items, pastes, over) && Free(items) && i < |items| && items[i].state.Queued? && target.run !in over
    ensures Sound(items[i := items[i].(state := Writing, target := Some(target))], pastes + [Paste(i, target.run)], over)
  {
    var after, more := items[i := items[i].(state := Writing, target := Some(target))], pastes + [Paste(i, target.run)];
    forall a: nat, b: nat ensures SingleHolds(after, a, b) {
      assert FreeHolds(items, a) && FreeHolds(items, b);
    }
    forall k: nat ensures PasteHolds(after, more, over, k) {
      assert PasteHolds(items, pastes, over, k);
    }
    forall k: nat, l: nat ensures OnceHolds(after, more, k, l) {
      assert OnceHolds(items, pastes, k, l) && PasteHolds(items, pastes, over, k);
    }
  }

  // ---------------------------------------------------------------- what that comes to

  function IsOutstanding(): Item -> bool {
    (item: Item) => Outstanding(item)
  }

  function PasteOf(index: nat): Paste -> bool {
    (paste: Paste) => paste.index == index
  }

  function PasteInto(index: nat, run: nat): Paste -> bool {
    (paste: Paste) => paste.index == index && paste.run == run
  }

  /** At most one input is outstanding. */
  lemma {:induction false} OneOutstanding(items: seq<Item>, pastes: seq<Paste>, over: set<nat>)
    requires Sound(items, pastes, over)
    ensures Count(items, IsOutstanding()) <= 1
  {
    forall k, l | 0 <= k < l < |items| ensures !(IsOutstanding()(items[k]) && IsOutstanding()(items[l])) {
      assert SingleHolds(items, k, l);
    }
    CountAtMostOne(items, IsOutstanding());
  }

  /** An ordinary input is pasted at most once ever, a conversation result at most once into each run. */
  lemma {:induction false} PastedOnce(items: seq<Item>, pastes: seq<Paste>, over: set<nat>, index: nat, run: nat)
    requires Sound(items, pastes, over) && index < |items|
    ensures !items[index].conversation ==> Count(pastes, PasteOf(index)) <= 1
    ensures Count(pastes, PasteInto(index, run)) <= 1
  {
    forall k, l | 0 <= k < l < |pastes| ensures !(PasteInto(index, run)(pastes[k]) && PasteInto(index, run)(pastes[l])) {
      assert OnceHolds(items, pastes, k, l);
    }
    CountAtMostOne(pastes, PasteInto(index, run));
    if !items[index].conversation {
      forall k, l | 0 <= k < l < |pastes| ensures !(PasteOf(index)(pastes[k]) && PasteOf(index)(pastes[l])) {
        assert OnceHolds(items, pastes, k, l);
      }
      CountAtMostOne(pastes, PasteOf(index));
    }
  }
}
