/**
 Conversations between the Foreman and team members (`apps/daemon/src/foreman-conversation-service.ts`):
 the rows, and what they promise in every reachable state.
 */
module Conversation {
  import opened Wrappers

  datatype State = Queued | Submitted | Ambiguous | Answered | Failed | Expired | Cancelled

  predicate Pending(state: State) {
    state.Queued? || state.Submitted? || state.Ambiguous?
  }

  datatype Runtime = Runtime(run: nat, generation: nat)
  datatype Question = Question(key: nat, group: nat, member: nat, text: nat, replyTo: Option<nat>, source: Option<nat>, lasts: nat)
  datatype Response = Response(key: nat, text: nat)

  datatype Request = Request(
    id: nat, question: Question, conversation: nat, foreman: nat, authority: nat, profile: nat, state: State,
    runtime: Option<Runtime>, action: Option<nat>, response: Option<Response>, expires: nat)

  datatype ActionState =
    | Created | Deferred | Submitting | Delivered | Completed
    | ActionFailed | ActionCancelled | Rejected | ActionExpired | Superseded
    | Stalled | TimedOut | SettledUnverified

  predicate NotDelivered(state: ActionState) {
    state.ActionFailed? || state.ActionCancelled? || state.Rejected? || state.ActionExpired? || state.Superseded?
  }

  predicate Uncertain(state: ActionState) {
    state.Stalled? || state.TimedOut? || state.SettledUnverified?
  }

  /** An action is pinned to the runtime it was created for; `attempting` says that an attempt is being submitted. */
  datatype Action = Action(request: nat, runtime: Runtime, state: ActionState, attempting: bool)

  /** A reply that was accepted, and the runtime it came from. */
  datatype Reply = Reply(request: nat, response: Response, runtime: Runtime)

  const MAX_REQUESTS := 10000
  const MAX_PENDING := 100
  const MAX_PER_MEMBER := 4
  const MAX_THREAD := 16

  // ---------------------------------------------------------------- counting

  predicate Awaits(r: Request, clock: nat) {
    Pending(r.state) && clock < r.expires
  }

  function Waiting(clock: nat): Request -> bool {
    (r: Request) => Awaits(r, clock)
  }

  function WaitingFor(clock: nat, group: nat, member: nat): Request -> bool {
    (r: Request) => Awaits(r, clock) && r.question.group == group && r.question.member == member
  }

  function InThread(conversation: nat): Request -> bool {
    (r: Request) => r.conversation == conversation
  }

  lemma {:induction false} CountFewer<T>(s: seq<T>, t: seq<T>, many: T -> bool, few: T -> bool)
    requires |s| == |t| && forall i :: 0 <= i < |s| && few(t[i]) ==> many(s[i])
    ensures Count(t, few) <= Count(s, many)
  {
    if s != [] { CountFewer(s[..|s| - 1], t[..|t| - 1], many, few); }
  }

  // ---------------------------------------------------------------- what the tables promise

  ghost predicate RowFits(r: Request, actions: seq<Action>, inbox: seq<nat>) {
    && (r.action.Some? ==> r.action.value < |actions| && actions[r.action.value].request == r.id && r.runtime == Some(actions[r.action.value].runtime))
    && (r.state.Answered? <==> r.response.Some?) && (r.state.Answered? ==> r.action.Some?)
    && (!Pending(r.state) ==> r.id in inbox)
    && (r.state.Ambiguous? ==> r.id in inbox && r.action.Some?)
  }

  ghost predicate RowHolds(requests: seq<Request>, actions: seq<Action>, inbox: seq<nat>, i: nat) {
    i < |requests| ==> requests[i].id == i && RowFits(requests[i], actions, inbox)
  }

  ghost predicate ActionHolds(requests: seq<Request>, actions: seq<Action>, a: nat) {
    a < |actions| ==> actions[a].request < |requests| && requests[actions[a].request].action == Some(a)
  }

  /** An accepted reply is the answer on record, and came from the runtime the request's action is pinned to. */
  ghost predicate ReplyHolds(requests: seq<Request>, actions: seq<Action>, replies: seq<Reply>, k: nat) {
    k < |replies| ==>
      && replies[k].request < |requests|
      && var r := requests[replies[k].request];
         && r.response == Some(replies[k].response) && r.action.Some? && r.action.value < |actions|
         && replies[k].runtime == actions[r.action.value].runtime
  }

  ghost predicate ReplyOnce(replies: seq<Reply>, k: nat, l: nat) {
    k < l < |replies| ==> replies[k].request != replies[l].request
  }

  ghost predicate InboxOnce(inbox: seq<nat>, k: nat, l: nat) {
    k < l < |inbox| ==> inbox[k] != inbox[l]
  }

  ghost predicate KeyHolds(requests: seq<Request>, i: nat, j: nat) {
    i < j < |requests| ==> !(requests[i].foreman == requests[j].foreman && requests[i].question.key == requests[j].question.key)
  }

  ghost predicate ThreadHolds(requests: seq<Request>, i: nat) {
    i < |requests| ==> requests[i].conversation <= i && Count(requests, InThread(requests[i].conversation)) <= MAX_THREAD
  }

  ghost predicate MemberHolds(requests: seq<Request>, clock: nat, group: nat, member: nat) {
    Count(requests, WaitingFor(clock, group, member)) <= MAX_PER_MEMBER
  }

  ghost predicate Linked(requests: seq<Request>, actions: seq<Action>, inbox: seq<nat>, replies: seq<Reply>) {
    && (forall i: nat :: RowHolds(requests, actions, inbox, i))
    && (forall a: nat :: ActionHolds(requests, actions, a))
    && (forall k: nat :: ReplyHolds(requests, actions, replies, k))
    && (forall k: nat, l: nat :: ReplyOnce(replies, k, l))
    && (forall k: nat, l: nat :: InboxOnce(inbox, k, l))
    && (forall i: nat, j: nat :: KeyHolds(requests, i, j))
  }

  ghost predicate Bounded(requests: seq<Request>, clock: nat) {
    && |requests| <= MAX_REQUESTS && Count(requests, Waiting(clock)) <= MAX_PENDING
    && (forall group: nat, member: nat :: MemberHolds(requests, clock, group, member))
    && (forall i: nat :: ThreadHolds(requests, i))
  }

  // ---------------------------------------------------------------- each atomic step keeps them

  /** `INSERT OR IGNORE` by the request's key. */
  function Woken(inbox: seq<nat>, id: nat): seq<nat> {
    if id in inbox then inbox else inbox + [id]
  }

  /** What a step may change in an open row. */
  predicate Evolves(was: Request, now: Request) {
    && Pending(was.state) && now.id == was.id && now.question == was.question && now.conversation == was.conversation
    && now.foreman == was.foreman && now.expires == was.expires && (was.action.Some? ==> now.action == was.action)
  }

  lemma {:induction false} RowUpdated(requests: seq<Request>, actions: seq<Action>, inbox: seq<nat>, replies: seq<Reply>, i: nat, now: Request, wakes: bool)
    requires Linked(requests, actions, inbox, replies) && i < |requests| && Evolves(requests[i], now) && now.action == requests[i].action
    requires RowFits(now, actions, if wakes then Woken(inbox, i) else inbox) && now.response == None
    ensures Linked(requests[i := now], actions, if wakes then Woken(inbox, i) else inbox, replies)
  {
    var after, woken := requests[i := now], if wakes then Woken(inbox, i) else inbox;
    assert RowHolds(requests, actions, inbox, i);
    forall j: nat ensures RowHolds(after, actions, woken, j) { assert RowHolds(requests, actions, inbox, j); }
    forall a: nat ensures ActionHolds(after, actions, a) { assert ActionHolds(requests, actions, a); }
    forall k: nat ensures ReplyHolds(after, actions, replies, k) { assert ReplyHolds(requests, actions, replies, k); }
    forall k: nat, l: nat ensures InboxOnce(woken, k, l) { assert InboxOnce(inbox, k, l); }
    forall a: nat, b: nat ensures KeyHolds(after, a, b) { assert KeyHolds(requests, a, b); }
  }

  /** Pinning a request to the action just created for it. */
  lemma {:induction false} ActionCreated(requests: seq<Request>, actions: seq<Action>, inbox: seq<nat>, replies: seq<Reply>, i: nat, runtime: Runtime)
    requires Linked(requests, actions, inbox, replies) && i < |requests| && Pending(requests[i].state) && requests[i].action == None
    ensures Linked(requests[i := requests[i].(action := Some(|actions|), runtime := Some(runtime))], actions + [Action(i, runtime, Created, false)], inbox, replies)
  {
    var now := requests[i].(action := Some(|actions|), runtime := Some(runtime));
    var after, more := requests[i := now], actions + [Action(i, runtime, Created, false)];
    forall j: nat ensures RowHolds(after, more, inbox, j) { assert RowHolds(requests, actions, inbox, j); }
    forall a: nat ensures ActionHolds(after, more, a) { assert ActionHolds(requests, actions, a); }
    assert RowHolds(requests, actions, inbox, i);
    forall k: nat ensures ReplyHolds(after, more, replies, k) { assert ReplyHolds(requests, actions, replies, k); }
    forall a: nat, b: nat ensures KeyHolds(after, a, b) { assert KeyHolds(requests, a, b); }
  }

  /** Deliveries advance on their own. */
  lemma {:induction false} ActionMoved(requests: seq<Request>, actions: seq<Action>, inbox: seq<nat>, replies: seq<Reply>, a: nat, state: ActionState, attempting: bool)
    requires Linked(requests, actions, inbox, replies) && a < |actions|
    ensures Linked(requests, actions[a := actions[a].(state := state, attempting := attempting)], inbox, replies)
  {
    var after := actions[a := actions[a].(state := state, attempting := attempting)];
    forall j: nat ensures RowHolds(requests, after, inbox, j) { assert RowHolds(requests, actions, inbox, j); }
    forall b: nat ensures ActionHolds(requests, after, b) { assert ActionHolds(requests, actions, b); }
    forall k: nat ensures ReplyHolds(requests, after, replies, k) { assert ReplyHolds(requests, actions, replies, k); }
  }

  /** Accepting a reply from the pinned runtime. */
  lemma {:induction false} ReplyAccepted(requests: seq<Request>, actions: seq<Action>, inbox: seq<nat>, replies: seq<Reply>, i: nat, response: Response, runtime: Runtime)
    requires Linked(requests, actions, inbox, replies) && i < |requests| && Pending(requests[i].state)
    requires requests[i].action.Some? && requests[i].runtime == Some(runtime)
    ensures Linked(requests[i := requests[i].(state := Answered, response := Some(response))], actions, Woken(inbox, i), replies + [Reply(i, response, runtime)])
  {
    var now := requests[i].(state := Answered, response := Some(response));
    var after, woken, more := requests[i := now], Woken(inbox, i), replies + [Reply(i, response, runtime)];
    assert RowHolds(requests, actions, inbox, i);
    forall j: nat ensures RowHolds(after, actions, woken, j) { assert RowHolds(requests, actions, inbox, j); }
    forall a: nat ensures ActionHolds(after, actions, a) { assert ActionHolds(requests, actions, a); }
    forall k: nat ensures ReplyHolds(after, actions, more, k) { assert ReplyHolds(requests, actions, replies, k); }
    forall k: nat, l: nat ensures ReplyOnce(more, k, l) { assert ReplyOnce(replies, k, l) && ReplyHolds(requests, actions, replies, k); }
    forall k: nat, l: nat ensures InboxOnce(woken, k, l) { assert InboxOnce(inbox, k, l); }
    forall a: nat, b: nat ensures KeyHolds(after, a, b) { assert KeyHolds(requests, a, b); }
  }

  lemma {:induction false} RequestAsked(requests: seq<Request>, actions: seq<Action>, inbox: seq<nat>, replies: seq<Reply>, r: Request)
    requires Linked(requests, actions, inbox, replies)
    requires r.id == |requests| && r.state.Queued? && r.action == None && r.response == None
    requires forall i :: 0 <= i < |requests| ==> !(requests[i].foreman == r.foreman && requests[i].question.key == r.question.key)
    ensures Linked(requests + [r], actions, inbox, replies)
  {
    var after := requests + [r];
    forall j: nat ensures RowHolds(after, actions, inbox, j) { assert RowHolds(requests, actions, inbox, j); }
    forall a: nat ensures ActionHolds(after, actions, a) { assert ActionHolds(requests, actions, a); }
    forall k: nat ensures ReplyHolds(after, actions, replies, k) { assert ReplyHolds(requests, actions, replies, k); }
    forall a: nat, b: nat ensures KeyHolds(after, a, b) { assert KeyHolds(requests, a, b); }
  }

  // ---------------------------------------------------------------- and the capacities

  lemma {:induction false} StillBounded(requests: seq<Request>, after: seq<Request>, clock: nat, later: nat)
    requires Bounded(requests, clock) && |after| == |requests| && clock <= later
    requires forall i :: 0 <= i < |requests| ==> after[i] == requests[i] || Evolves(requests[i], after[i])
    ensures Bounded(after, later)
  {
    CountFewer(requests, after, Waiting(clock), Waiting(later));
    forall group: nat, member: nat ensures MemberHolds(after, later, group, member) {
      assert MemberHolds(requests, clock, group, member);
      CountFewer(requests, after, WaitingFor(clock, group, member), WaitingFor(later, group, member));
    }
    forall i: nat ensures ThreadHolds(after, i) {
      assert ThreadHolds(requests, i);
      if i < |after| { CountFewer(requests, after, InThread(after[i].conversation), InThread(after[i].conversation)); }
    }
  }

  lemma {:induction false} AskBounded(requests: seq<Request>, clock: nat, r: Request)
    requires Bounded(requests, clock) && |requests| < MAX_REQUESTS && Count(requests, Waiting(clock)) < MAX_PENDING
    requires Count(requests, WaitingFor(clock, r.question.group, r.question.member)) < MAX_PER_MEMBER
    requires r.conversation == |requests| || (r.conversation < |requests| && Count(requests, InThread(r.conversation)) < MAX_THREAD)
    ensures Bounded(requests + [r], clock)
  {
    var after := requests + [r];
    CountAppend(requests, r, Waiting(clock));
    forall group: nat, member: nat ensures MemberHolds(after, clock, group, member) {
      assert MemberHolds(requests, clock, group, member);
      CountAppend(requests, r, WaitingFor(clock, group, member));
    }
    forall i: nat ensures ThreadHolds(after, i) {
      assert ThreadHolds(requests, i);
      if i < |after| {
        CountAppend(requests, r, InThread(after[i].conversation));
        if i == |requests| && r.conversation == |requests| { NewThread(requests, r.conversation); }
      }
    }
  }

  /** No request belongs to a conversation that has not begun. */
  lemma {:induction false} NewThread(requests: seq<Request>, conversation: nat)
    requires conversation == |requests| && forall i: nat :: ThreadHolds(requests, i)
    ensures Count(requests, InThread(conversation)) == 0
  {
    forall k | 0 <= k < |requests| ensures !InThread(conversation)(requests[k]) { assert ThreadHolds(requests, k); }
    CountNone(requests, InThread(conversation));
  }

  // ---------------------------------------------------------------- what that comes to

  function ActionFor(request: nat): Action -> bool { (a: Action) => a.request == request }
  function ReplyTo(request: nat): Reply -> bool { (r: Reply) => r.request == request }
  function ResultOf(request: nat): nat -> bool { (id: nat) => id == request }

  /** A request gets at most one action and one reply, and the reply came from the runtime its action is pinned to. */
  lemma {:induction false} AskedOnceAnsweredOnce(requests: seq<Request>, actions: seq<Action>, inbox: seq<nat>, replies: seq<Reply>, i: nat)
    requires Linked(requests, actions, inbox, replies) && i < |requests|
    ensures Count(actions, ActionFor(i)) <= 1 && Count(replies, ReplyTo(i)) <= 1
    ensures forall k, a :: 0 <= k < |replies| && 0 <= a < |actions| && replies[k].request == i && actions[a].request == i ==>
              replies[k].runtime == actions[a].runtime && requests[i].response == Some(replies[k].response)
  {
    forall k, l | 0 <= k < l < |actions| ensures !(ActionFor(i)(actions[k]) && ActionFor(i)(actions[l])) {
      assert ActionHolds(requests, actions, k) && ActionHolds(requests, actions, l);
    }
    CountAtMostOne(actions, ActionFor(i));
    forall k, l | 0 <= k < l < |replies| ensures !(ReplyTo(i)(replies[k]) && ReplyTo(i)(replies[l])) {
      assert ReplyOnce(replies, k, l);
    }
    CountAtMostOne(replies, ReplyTo(i));
    forall k, a | 0 <= k < |replies| && 0 <= a < |actions| && replies[k].request == i && actions[a].request == i
      ensures replies[k].runtime == actions[a].runtime && requests[i].response == Some(replies[k].response)
    {
      assert ReplyHolds(requests, actions, replies, k) && ActionHolds(requests, actions, a);
    }
  }

  /** A finished request has exactly one result in the inbox. */
  lemma {:induction false} OneResult(requests: seq<Request>, actions: seq<Action>, inbox: seq<nat>, replies: seq<Reply>, i: nat)
    requires Linked(requests, actions, inbox, replies) && i < |requests| && !Pending(requests[i].state)
    ensures Count(inbox, ResultOf(i)) == 1
  {
    assert RowHolds(requests, actions, inbox, i);
    forall k, l | 0 <= k < l < |inbox| ensures !(ResultOf(i)(inbox[k]) && ResultOf(i)(inbox[l])) { assert InboxOnce(inbox, k, l); }
    CountAtMostOne(inbox, ResultOf(i));
    var k :| 0 <= k < |inbox| && inbox[k] == i;
    CountPositive(inbox, k, ResultOf(i));
  }

  lemma {:induction false} CountPositive<T>(s: seq<T>, k: nat, keep: T -> bool)
    requires k < |s| && keep(s[k])
    ensures Count(s, keep) >= 1
  {
    if k < |s| - 1 { CountPositive(s[..|s| - 1], k, keep); }
  }
}
