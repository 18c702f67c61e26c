/** The conversation service as it runs (`apps/daemon/src/foreman-conversation-service.ts`): atomic steps in any order. */
module ConversationService {
  import opened Wrappers
  import opened Conversation

  datatype Failure = Conflict | NotFound | Forbidden
  datatype Result = Found(index: nat) | Refused(failure: Failure)

  /** A member's active run; the runtime status that decides whether it can be asked now. */
  datatype Run = Run(runtime: Runtime, wanted: bool, profile: nat, controlled: bool, ready: bool)
  datatype Member = Member(group: nat, member: nat, runtime: Runtime)

  /** The rest of the daemon at the moment of a step. */
  datatype View = View(
    now: nat, admitted: bool, authority: nat -> Option<nat>, foremanRunning: nat -> bool,
    profile: (nat, nat) -> Option<nat>, latest: (nat, nat) -> Option<Runtime>, active: (nat, nat) -> Option<Run>,
    humanMessage: nat -> bool, creates: bool)

  datatype Availability = Unavailable | Controlled | Reachable(run: Option<Run>)

  datatype Step =
    | Ask(foreman: nat, question: Question)
    | Answer(member: Member, id: nat, response: Response)
    | Cancel(id: nat)
    | Reconcile
    | Deliver(action: nat, state: ActionState, attempting: bool)

  // ---------------------------------------------------------------- what each operation decides

  predicate Known(requests: seq<Request>, foreman: nat, key: nat) {
    exists i :: 0 <= i < |requests| && requests[i].foreman == foreman && requests[i].question.key == key
  }

  predicate Asked(requests: seq<Request>, foreman: nat, question: Question) {
    exists i :: 0 <= i < |requests| && requests[i].foreman == foreman && requests[i].question == question
  }

  /** The thread a question joins: its parent's if it follows up an answered request to the same member, else a new one. */
  ghost function Joins(requests: seq<Request>, foreman: nat, question: Question): Option<nat> {
    if question.replyTo.None? then Some(|requests|)
    else if question.replyTo.value >= |requests| then None
    else
      var parent := requests[question.replyTo.value];
      if parent.foreman == foreman && parent.question.group == question.group && parent.question.member == question.member
         && parent.state.Answered? && Count(requests, InThread(parent.conversation)) < MAX_THREAD
      then Some(parent.conversation) else None
  }

  ghost predicate Admissible(requests: seq<Request>, clock: nat, foreman: nat, question: Question, view: View) {
    && |requests| < MAX_REQUESTS && Count(requests, Waiting(clock)) < MAX_PENDING
    && Count(requests, WaitingFor(clock, question.group, question.member)) < MAX_PER_MEMBER
    && view.profile(question.group, question.member).Some? && view.authority(foreman).Some?
    && Joins(requests, foreman, question).Some? && (question.source.Some? ==> view.humanMessage(question.source.value))
  }

  /** `#member`: the principal is the exact runtime the request is addressed to. */
  predicate Addressed(member: Member, request: Request, view: View) {
    var run := view.active(member.group, member.member);
    && request.question.group == member.group && request.question.member == member.member
    && run.Some? && run.value.runtime == member.runtime && run.value.wanted && run.value.profile == request.profile
    && (request.runtime.Some? ==> request.runtime.value == member.runtime)
  }

  /** The request reached the runtime: its action left the queue, or an attempt is being submitted. */
  predicate Reached(action: Action) {
    action.attempting
    || !(action.state.Created? || action.state.Deferred? || action.state.ActionCancelled? || action.state.Rejected? || action.state.ActionExpired?)
  }

  predicate Answerable(request: Request, actions: seq<Action>, clock: nat) {
    Pending(request.state) && clock < request.expires
    && request.action.Some? && request.action.value < |actions| && Reached(actions[request.action.value])
  }

  /** An action that has not left the queue is withdrawn with its request. */
  function Withdrawn(actions: seq<Action>, action: Option<nat>): seq<Action> {
    if action.Some? && action.value < |actions| && !actions[action.value].attempting
       && (actions[action.value].state.Created? || actions[action.value].state.Deferred?)
    then actions[action.value := actions[action.value].(state := ActionCancelled)] else actions
  }

  /** What the state of a request's action makes of it. */
  function Observed(state: State, action: ActionState): State {
    if NotDelivered(action) then Failed
    else if Uncertain(action) then Ambiguous
    else if action.Created? || action.Deferred? then state
    else Submitted
  }

  /** `#available`. */
  function Available(request: Request, clock: nat, view: View): Availability {
    var group, member := request.question.group, request.question.member;
    var run := view.active(group, member);
    if !(request.state.Queued? || request.state.Submitted?) || request.expires <= clock then Unavailable
    else if view.authority(request.foreman) != Some(request.authority) then Unavailable
    else if view.profile(group, member) != Some(request.profile) then Unavailable
    else if request.runtime.Some? && view.latest(group, member) != request.runtime then Unavailable
    else if run.Some? && run.value.controlled then Controlled
    else Reachable(run)
  }

  /** The runtime a request may be put to right now. */
  function ReadyRuntime(request: Request, clock: nat, view: View): Option<Runtime> {
    var available := Available(request, clock, view);
    if available.Reachable? && view.foremanRunning(request.foreman) && available.run.Some? && available.run.value.wanted && available.run.value.ready
    then Some(available.run.value.runtime) else None
  }

  /** What a pass makes of an open request. */
  function NextState(request: Request, actions: seq<Action>, clock: nat, view: View): State {
    if request.expires <= clock then Expired
    else if request.action.Some? then
      if request.action.value < |actions| then Observed(request.state, actions[request.action.value].state) else request.state
    else if Available(request, clock, view).Unavailable? then Cancelled
    else if ReadyRuntime(request, clock, view).Some? && !view.creates then Failed
    else request.state
  }

  /** The runtime a pass creates the request's action for. */
  function Creates(request: Request, clock: nat, view: View): Option<Runtime> {
    if request.expires <= clock || request.action.Some? || !view.creates then None else ReadyRuntime(request, clock, view)
  }

  class ForemanConversationService {
    var clock: nat
    var requests: seq<Request>
    var actions: seq<Action>
    /** Requests with a `conversation-result` row in the inbox. */
    var inbox: seq<nat>
    ghost var replies: seq<Reply>

    ghost predicate Valid()
      reads this
    {
      Linked(requests, actions, inbox, replies) && Bounded(requests, clock)
    }

    /** Finished requests stay as they are; nothing is forgotten. */
    ghost predicate Keeps(before: seq<Request>)
      reads this
    {
      |before| <= |requests| && forall i :: 0 <= i < |before| && !Pending(before[i].state) ==> requests[i] == before[i]
    }

    constructor ()
      ensures Valid() && requests == [] && actions == [] && inbox == [] && replies == []
    {
      clock, requests, actions, inbox, replies := 0, [], [], [], [];
      new;
      forall i: nat ensures RowHolds(requests, actions, inbox, i) {}
      forall a: nat ensures ActionHolds(requests, actions, a) {}
      forall k: nat ensures ReplyHolds(requests, actions, replies, k) {}
      forall i: nat ensures ThreadHolds(requests, i) {}
      forall group: nat, member: nat ensures MemberHolds(requests, clock, group, member) {}
    }

    method Now(view: View)
      requires Valid()
      modifies this`clock
      ensures Valid() && clock >= old(clock) && clock >= view.now
    {
      StillBounded(requests, requests, clock, if clock < view.now then view.now else clock);
      if clock < view.now { clock := view.now; }
    }

    /** `filter(...).length`. */
    method Tally(keep: Request -> bool) returns (n: nat)
      ensures n == Count(requests, keep)
    {
      n := 0;
      for i := 0 to |requests|
        invariant n == Count(requests[..i], keep)
      {
        CountAppend(requests[..i], requests[i], keep);
        assert requests[..i + 1] == requests[..i] + [requests[i]];
        if keep(requests[i]) { n := n + 1; }
      }
      assert requests[..|requests|] == requests;
    }

    // -------------------------------------------------------------- asking

    method Existing(foreman: nat, key: nat) returns (found: nat)
      ensures found <= |requests|
      ensures found < |requests| ==> requests[found].foreman == foreman && requests[found].question.key == key
      ensures found == |requests| ==> forall i :: 0 <= i < |requests| ==> !(requests[i].foreman == foreman && requests[i].question.key == key)
    {
      found := 0;
      while found < |requests| && !(requests[found].foreman == foreman && requests[found].question.key == key)
        invariant found <= |requests|
        invariant forall i :: 0 <= i < found ==> !(requests[i].foreman == foreman && requests[i].question.key == key)
      {
        found := found + 1;
      }
    }

    method Thread(foreman: nat, question: Question) returns (thread: Option<nat>)
      requires Valid()
      ensures thread == Joins(requests, foreman, question)
      ensures thread.Some? ==> thread.value == |requests| || (thread.value < |requests| && Count(requests, InThread(thread.value)) < MAX_THREAD)
    {
      if question.replyTo.None? { return Some(|requests|); }
      var p := question.replyTo.value;
      if p >= |requests| { return None; }
      var parent := requests[p];
      if parent.foreman != foreman || parent.question.group != question.group || parent.question.member != question.member || !parent.state.Answered? {
        return None;
      }
      var followUps := Tally(InThread(parent.conversation));
      if followUps >= MAX_THREAD { return None; }
      assert ThreadHolds(requests, p);
      thread := Some(parent.conversation);
    }

    method Enter(request: Request)
      requires Valid() && request.id == |requests| && request.state.Queued? && request.action == None && request.response == None
      requires !Known(requests, request.foreman, request.question.key)
      requires |requests| < MAX_REQUESTS && Count(requests, Waiting(clock)) < MAX_PENDING
      requires Count(requests, WaitingFor(clock, request.question.group, request.question.member)) < MAX_PER_MEMBER
      requires request.conversation == |requests|
               || (request.conversation < |requests| && Count(requests, InThread(request.conversation)) < MAX_THREAD)
      modifies this`requests
      ensures Valid() && requests == old(requests) + [request]
    {
      RequestAsked(requests, actions, inbox, replies, request);
      AskBounded(requests, clock, request);
      requests := requests + [request];
    }

    method AskMember(foreman: nat, question: Question, view: View) returns (result: Result)
      requires Valid()
      modifies this`clock, this`requests
      ensures Valid() && Keeps(old(requests)) && clock >= old(clock)
      ensures requests != old(requests) <==>
                view.admitted && !Known(old(requests), foreman, question.key) && Admissible(old(requests), clock, foreman, question, view)
      ensures requests != old(requests) ==> result == Found(|old(requests)|) && requests == old(requests) + [
                Request(|old(requests)|, question, Joins(old(requests), foreman, question).value, foreman, view.authority(foreman).value,
                        view.profile(question.group, question.member).value, Queued,
                        if view.active(question.group, question.member).Some? then Some(view.active(question.group, question.member).value.runtime) else None,
                        None, None, clock + question.lasts * 1000)]
      ensures result.Found? <==> view.admitted && (requests != old(requests) || Asked(requests, foreman, question))
      ensures result.Found? ==> result.index < |requests| && requests[result.index].foreman == foreman && requests[result.index].question == question
    {
      Now(view);
      if !view.admitted { return Refused(Forbidden); }
      var existing := Existing(foreman, question.key);
      if existing < |requests| {
        if requests[existing].question != question {
          forall i: nat | i < |requests| && requests[i].foreman == foreman && requests[i].question.key == question.key ensures i == existing {
            assert KeyHolds(requests, i, existing) && KeyHolds(requests, existing, i);
          }
          return Refused(Conflict);
        }
        return Found(existing);
      }
      var pending := Tally(Waiting(clock));
      var theirs := Tally(WaitingFor(clock, question.group, question.member));
      if |requests| >= MAX_REQUESTS || pending >= MAX_PENDING || theirs >= MAX_PER_MEMBER { return Refused(Conflict); }
      var profile, authority := view.profile(question.group, question.member), view.authority(foreman);
      if profile.None? || authority.None? { return Refused(Conflict); }
      var thread := Thread(foreman, question);
      if thread.None? { return Refused(Conflict); }
      if question.source.Some? && !view.humanMessage(question.source.value) { return Refused(Conflict); }
      var run := view.active(question.group, question.member);
      var runtime := if run.Some? then Some(run.value.runtime) else None;
      var request := Request(|requests|, question, thread.value, foreman, authority.value, profile.value, Queued, runtime, None, None, clock + question.lasts * 1000);
      Enter(request);
      result := Found(request.id);
    }

    // -------------------------------------------------------------- answering

    method Accept(member: Member, id: nat, response: Response, view: View) returns (result: Result)
      requires Valid()
      modifies this`clock, this`requests, this`inbox, this`replies
      ensures Valid() && Keeps(old(requests)) && clock >= old(clock)
      ensures requests != old(requests) <==> id < |old(requests)| && Addressed(member, old(requests)[id], view) && Answerable(old(requests)[id], actions, clock)
      ensures requests != old(requests) ==>
                && result == Found(id) && requests == old(requests)[id := old(requests)[id].(state := Answered, response := Some(response))]
                && replies == old(replies) + [Reply(id, response, member.runtime)] && inbox == Woken(old(inbox), id)
                && old(requests)[id].runtime == Some(member.runtime) == Some(actions[old(requests)[id].action.value].runtime)
      ensures requests == old(requests) ==> replies == old(replies) && inbox == old(inbox)
      ensures requests == old(requests) ==>
                (result.Found? <==> id < |requests| && Addressed(member, requests[id], view) && requests[id].state.Answered? && requests[id].response == Some(response))
      ensures result.Found? ==> result.index == id
    {
      Now(view);
      if id >= |requests| { return Refused(NotFound); }
      var request := requests[id];
      assert RowHolds(requests, actions, inbox, id);
      if !Addressed(member, request, view) { return Refused(Forbidden); }
      if request.state.Answered? {
        return if request.response == Some(response) then Found(id) else Refused(Conflict);
      }
      if !Pending(request.state) || request.expires <= clock { return Refused(Conflict); }
      if request.action.None? || !Reached(actions[request.action.value]) { return Refused(Conflict); }
      ReplyAccepted(requests, actions, inbox, replies, id, response, member.runtime);
      StillBounded(requests, requests[id := request.(state := Answered, response := Some(response))], clock, clock);
      requests := requests[id := request.(state := Answered, response := Some(response))];
      inbox := Woken(inbox, id);
      replies := replies + [Reply(id, response, member.runtime)];
      result := Found(id);
    }

    // -------------------------------------------------------------- closing without an answer

    method Update(i: nat, state: State, wakes: bool)
      requires Valid() && i < |requests| && Pending(requests[i].state) && !state.Answered?
      requires !Pending(state) || (state.Ambiguous? && requests[i].action.Some?) ==> wakes
      requires state.Ambiguous? ==> requests[i].action.Some?
      modifies this`requests, this`inbox
      ensures Valid() && Keeps(old(requests)) && requests == old(requests)[i := old(requests)[i].(state := state)]
      ensures inbox == if wakes then Woken(old(inbox), i) else old(inbox)
    {
      assert RowHolds(requests, actions, inbox, i);
      RowUpdated(requests, actions, inbox, replies, i, requests[i].(state := state), wakes);
      StillBounded(requests, requests[i := requests[i].(state := state)], clock, clock);
      requests := requests[i := requests[i].(state := state)];
      if wakes { inbox := Woken(inbox, i); }
    }

    method CancelRequest(id: nat) returns (result: Result)
      requires Valid()
      modifies this`requests, this`inbox, this`actions
      ensures Valid() && Keeps(old(requests)) && result == if id < |old(requests)| then Found(id) else Refused(NotFound)
      ensures id < |old(requests)| && Pending(old(requests)[id].state) ==>
                && requests == old(requests)[id := old(requests)[id].(state := Cancelled)] && inbox == Woken(old(inbox), id)
                && actions == Withdrawn(old(actions), old(requests)[id].action)
      ensures !(id < |old(requests)| && Pending(old(requests)[id].state)) ==> requests == old(requests) && inbox == old(inbox) && actions == old(actions)
    {
      if id >= |requests| { return Refused(NotFound); }
      assert RowHolds(requests, actions, inbox, id);
      if !Pending(requests[id].state) { return Found(id); }
      Update(id, Cancelled, true);
      assert RowHolds(requests, actions, inbox, id);
      if requests[id].action.Some? {
        var a := requests[id].action.value;
        if (actions[a].state.Created? || actions[a].state.Deferred?) && !actions[a].attempting {
          ActionMoved(requests, actions, inbox, replies, a, ActionCancelled, false);
          actions := actions[a := actions[a].(state := ActionCancelled)];
        }
      }
      result := Found(id);
    }

    // -------------------------------------------------------------- the reconciler

    method Observe(i: nat)
      requires Valid() && i < |requests| && Pending(requests[i].state) && requests[i].action.Some?
      modifies this`requests, this`inbox
      ensures Valid() && Keeps(old(requests)) && old(requests)[i].action.value < |actions|
      ensures var state := Observed(old(requests)[i].state, actions[old(requests)[i].action.value].state);
              && requests == old(requests)[i := old(requests)[i].(state := state)]
              && inbox == if state.Failed? || state.Ambiguous? then Woken(old(inbox), i) else old(inbox)
    {
      assert RowHolds(requests, actions, inbox, i);
      var action := actions[requests[i].action.value];
      if NotDelivered(action.state) {
        Update(i, Failed, true);
      } else if Uncertain(action.state) {
        Update(i, Ambiguous, true);
      } else if !(action.state.Created? || action.state.Deferred?) {
        Update(i, Submitted, false);
      } else if requests[i].state.Ambiguous? {
        Update(i, Ambiguous, true);
      }
    }

    /** Creates the one action of a request, pinned to the runtime that is ready for it now. */
    method Create(i: nat, runtime: Runtime)
      requires Valid() && i < |requests| && Pending(requests[i].state) && requests[i].action == None
      modifies this`requests, this`actions
      ensures Valid() && Keeps(old(requests)) && actions == old(actions) + [Action(i, runtime, Created, false)]
      ensures requests == old(requests)[i := old(requests)[i].(action := Some(|old(actions)|), runtime := Some(runtime))]
    {
      var now := requests[i].(action := Some(|actions|), runtime := Some(runtime));
      ActionCreated(requests, actions, inbox, replies, i, runtime);
      StillBounded(requests, requests[i := now], clock, clock);
      requests := requests[i := now];
      actions := actions + [Action(i, runtime, Created, false)];
    }

    method ReconcileOne(i: nat, view: View)
      requires Valid() && i < |requests| && Pending(requests[i].state)
      modifies this`requests, this`actions, this`inbox
      ensures Valid() && Keeps(old(requests)) && |requests| == |old(requests)|
      ensures forall j :: 0 <= j < |requests| && j != i ==> requests[j] == old(requests)[j]
      ensures requests[i].state == NextState(old(requests)[i], old(actions), clock, view)
      ensures var runtime := Creates(old(requests)[i], clock, view);
              if runtime.Some? then
                && actions == old(actions) + [Action(i, runtime.value, Created, false)]
                && requests[i].action == Some(|old(actions)|) && requests[i].runtime == runtime
              else
                && actions == old(actions)
                && requests[i].action == old(requests)[i].action && requests[i].runtime == old(requests)[i].runtime
      ensures requests[i].state.Expired? || requests[i].state.Failed? || requests[i].state.Cancelled? ==> i in inbox
    {
      var request := requests[i];
      if request.expires <= clock {
        Update(i, Expired, true);
        return;
      }
      if request.action.Some? {
        Observe(i);
        return;
      }
      var available := Available(request, clock, view);
      if available.Controlled? { return; }
      if available.Unavailable? {
        Update(i, Cancelled, true);
        return;
      }
      if !view.foremanRunning(request.foreman) || available.run.None? || !available.run.value.wanted || !available.run.value.ready { return; }
      if view.creates {
        Create(i, available.run.value.runtime);
      } else {
        Update(i, Failed, true);
      }
    }

    method ReconcileAll(view: View)
      requires Valid()
      modifies this`clock, this`requests, this`actions, this`inbox
      ensures Valid() && Keeps(old(requests)) && |requests| == |old(requests)|
      ensures forall i :: 0 <= i < |requests| && Pending(old(requests)[i].state) ==>
                requests[i].state == NextState(old(requests)[i], old(actions), clock, view)
      ensures old(actions) <= actions
      ensures forall i :: 0 <= i < |requests| && Pending(old(requests)[i].state) && Creates(old(requests)[i], clock, view).Some? ==>
                requests[i].action.Some? && requests[i].runtime == Creates(old(requests)[i], clock, view)
    {
      Now(view);
      for i := 0 to |requests|
        invariant Valid() && Keeps(old(requests)) && |requests| == |old(requests)|
        invariant forall j :: i <= j < |requests| ==> requests[j] == old(requests)[j]
        invariant forall j :: 0 <= j < i && Pending(old(requests)[j].state) ==>
                    requests[j].state == NextState(old(requests)[j], old(actions), clock, view)
        invariant forall j :: 0 <= j < i && Pending(old(requests)[j].state) && Creates(old(requests)[j], clock, view).Some? ==>
                    requests[j].action.Some? && requests[j].runtime == Creates(old(requests)[j], clock, view)
        invariant old(actions) <= actions
      {
        assert RowHolds(old(requests), old(actions), old(inbox), i);
        if Pending(requests[i].state) { ReconcileOne(i, view); }
      }
    }

    // -------------------------------------------------------------- whole runs

    method Perform(step: Step, view: View)
      requires Valid()
      modifies this
      ensures Valid() && Keeps(old(requests))
    {
      match step {
        case Ask(foreman, question) => var result := AskMember(foreman, question, view);
        case Answer(member, id, response) => var result := Accept(member, id, response, view);
        case Cancel(id) => var result := CancelRequest(id);
        case Reconcile => ReconcileAll(view);
        case Deliver(a, state, attempting) =>
          if a < |actions| {
            ActionMoved(requests, actions, inbox, replies, a, state, attempting);
            actions := actions[a := actions[a].(state := state, attempting := attempting)];
          }
      }
    }

    /**
     Any sequence of steps: finished requests never change and have exactly one result; no request has two
     actions or two replies, and a reply came from the runtime the action is pinned to; and no more than 100
     requests wait, 4 of them for one member, and 16 share a thread.
     */
    method Serve(steps: seq<(Step, View)>)
      requires Valid()
      modifies this
      ensures Valid() && Keeps(old(requests))
      ensures forall i: nat :: i < |requests| ==> Count(actions, ActionFor(i)) <= 1 && Count(replies, ReplyTo(i)) <= 1
      ensures forall k, a :: 0 <= k < |replies| && 0 <= a < |actions| && replies[k].request == actions[a].request ==>
                replies[k].runtime == actions[a].runtime
      ensures forall i: nat :: i < |requests| && !Pending(requests[i].state) ==> Count(inbox, ResultOf(i)) == 1
      ensures Count(requests, Waiting(clock)) <= 100
      ensures forall group: nat, member: nat :: Count(requests, WaitingFor(clock, group, member)) <= 4
      ensures forall i :: 0 <= i < |requests| ==> Count(requests, InThread(requests[i].conversation)) <= 16
    {
      Repeat(steps);
      forall i: nat | i < |requests| ensures Count(actions, ActionFor(i)) <= 1 && Count(replies, ReplyTo(i)) <= 1 {
        AskedOnceAnsweredOnce(requests, actions, inbox, replies, i);
      }
      forall k, a | 0 <= k < |replies| && 0 <= a < |actions| && replies[k].request == actions[a].request
        ensures replies[k].runtime == actions[a].runtime
      {
        assert ReplyHolds(requests, actions, replies, k);
        AskedOnceAnsweredOnce(requests, actions, inbox, replies, replies[k].request);
      }
      forall i: nat | i < |requests| && !Pending(requests[i].state) ensures Count(inbox, ResultOf(i)) == 1 {
        OneResult(requests, actions, inbox, replies, i);
      }
      forall group: nat, member: nat ensures Count(requests, WaitingFor(clock, group, member)) <= 4 {
        assert MemberHolds(requests, clock, group, member);
      }
      forall i | 0 <= i < |requests| ensures Count(requests, InThread(requests[i].conversation)) <= 16 {
        assert ThreadHolds(requests, i);
      }
    }

    method Repeat(steps: seq<(Step, View)>)
      requires Valid()
      modifies this
      ensures Valid() && Keeps(old(requests))
    {
      for k := 0 to |steps|
        invariant Valid() && Keeps(old(requests))
      {
        Perform(steps[k].0, steps[k].1);
      }
    }
  }
}
