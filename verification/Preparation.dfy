/**
 Preparing a team for an outcome (`apps/daemon/src/foreman-orchestration-service.ts`): the rows, the
 guards, and what the rows promise about the effects that were started for them.
 */
module Preparation {
  import opened Wrappers

  datatype Phase =
    | Waiting | NeedsApproval | Preparing | Stopping | Assigning | Starting | Delegating
    | Ready | Delegated | Cancelled | Expired | Held

  predicate Finished(phase: Phase) {
    phase.Ready? || phase.Delegated? || phase.Cancelled? || phase.Expired? || phase.Held?
  }

  datatype Operation = Assign | Prepare
  datatype Workspace = Auto | Existing | New

  datatype Code =
    | ForemanUnavailable | TeamReserved | UnsettledWork | DecisionPending
    | DeadlineExceeded | PreparationConflict | TeamPreparationReserved | GoalTeamCapacity
    | SourceCommitMissing | RepositoryMismatch | ApprovalRequired | PlanApprovalRequired | PlanDenied
    | EffectUncertain | StopUncertain | StartUncertain | PreparationStale | RuntimeNotReady
    | WorkspaceIncomplete | SourceChanged | WorkspaceUnsuitable | BaseChanged | CheckoutReserved
    | RuntimeChanged | ProviderLaunch | ReporterReadiness | GoalStopped | GoalPaused | Other(code: nat)

  predicate Waits(code: Code) {
    code.ForemanUnavailable? || code.TeamReserved? || code.UnsettledWork? || code.DecisionPending?
  }

  /** One intended stop or start; `done` only once the runtime has confirmed it. */
  datatype Step = Step(member: nat, run: Option<nat>, done: bool)

  datatype Request = Request(
    goal: nat, key: nat, group: nat, member: nat, brief: nat, operation: Operation,
    workspace: Workspace, checkout: Option<nat>, source: Option<nat>, foreman: nat)

  datatype Record = Record(
    id: nat, input: Request, phase: Phase, reason: Option<Code>, source: nat, original: nat,
    membershipRevision: nat, checkoutRevision: nat, checkout: Option<nat>, head: Option<nat>,
    bound: bool, assignmentPending: bool, stops: seq<Step>, starts: seq<Step>,
    decision: Option<nat>, delegation: Option<nat>, retries: nat,
    nextAttempt: nat, deadline: nat, created: nat)

  /** A delegation of the goal service; `key` is the request that recorded it. */
  datatype Delegation = Delegation(goal: nat, key: Key, group: nat, member: nat, brief: nat, checkout: nat)
  datatype Key = OfPreparation(id: nat) | OfRequest(key: nat)

  // ---------------------------------------------------------------- the rest of the daemon at one moment

  datatype GoalState = Running | Paused | Completed | GoalCancelled
  datatype Answer = Pending | Approved(goalRevision: nat, byHuman: bool) | Denied
  datatype GoalView = GoalView(
    state: GoalState, revision: nat, expires: nat, refusal: Option<Code>, automatic: bool,
    teams: nat, maxTeams: nat, otherDecisionPending: Option<nat> -> bool)
  datatype GroupView = GroupView(
    effective: Option<nat>, membershipRevision: nat, checkoutRevision: nat, ownerActive: nat -> bool,
    objection: nat -> Option<Code>, runtimeNotReady: bool, notReady: Option<Code>, reporters: bool,
    requiringStop: seq<(nat, nat)>, members: seq<nat>, active: nat -> bool)
  datatype Kind = Bare | Main | Linked
  datatype CheckoutView = CheckoutView(
    repository: nat, kind: Kind, dirty: bool, head: Option<nat>, identity: nat, managed: bool, taken: nat -> bool)
  datatype Moment = Moment(
    now: nat, foremanRunning: nat -> bool, goal: nat -> GoalView, group: nat -> GroupView,
    checkout: nat -> CheckoutView, decision: nat -> Answer, asked: nat, fault: Option<Code>,
    receipt: Option<nat>, barred: Effect -> Option<Code>, consents: bool, launched: nat, delegationCancelled: Delegation -> bool,
    requests: seq<Request>, delegations: seq<Delegation>, ended: set<nat>)

  /** `listGroupRunsRequiringStop`: a run has one row, and a run that is over is never current again. */
  function Live(runs: seq<(nat, nat)>, ended: set<nat>): (r: seq<(nat, nat)>)
    ensures forall i :: 0 <= i < |r| ==> r[i].1 !in ended
    ensures forall i, j :: 0 <= i < j < |r| ==> r[i].1 != r[j].1
  {
    if runs == [] then []
    else
      var rest := Live(runs[..|runs| - 1], ended);
      var last := runs[|runs| - 1];
      if last.1 in ended || exists i :: 0 <= i < |rest| && rest[i].1 == last.1 then rest else rest + [last]
  }

  predicate Lists(runs: seq<(nat, nat)>, run: nat) { exists j :: 0 <= j < |runs| && runs[j].1 == run }

  /** No run that is not over is forgotten. */
  lemma {:induction false} LiveComplete(runs: seq<(nat, nat)>, ended: set<nat>, run: nat)
    requires Lists(runs, run)
    ensures run in ended || Lists(Live(runs, ended), run)
  {
    var front, last := runs[..|runs| - 1], runs[|runs| - 1];
    var rest := Live(front, ended);
    if last.1 != run {
      var j :| 0 <= j < |runs| && runs[j].1 == run;
      assert front[j].1 == run;
      LiveComplete(front, ended, run);
      if Lists(rest, run) {
        var k :| 0 <= k < |rest| && rest[k].1 == run;
        assert (rest + [last])[k].1 == run;
      }
    } else {
      assert (rest + [last])[|rest|].1 == run;
    }
  }

  /** What must still hold right before every effect. */
  function Fence(record: Record, clock: nat, m: Moment): Option<Code> {
    var goal, group := m.goal(record.input.goal), m.group(record.input.group);
    if record.deadline <= clock then Some(DeadlineExceeded)
    else if !m.foremanRunning(record.input.foreman) then Some(ForemanUnavailable)
    else if goal.refusal.Some? then goal.refusal
    else if group.membershipRevision != record.membershipRevision || group.checkoutRevision != record.checkoutRevision
            || group.effective != (if record.bound then record.checkout else Some(record.original)) then Some(PreparationStale)
    else if group.objection(record.id).Some? then group.objection(record.id)
    else if goal.otherDecisionPending(record.decision) then Some(DecisionPending)
    else if record.decision.Some? then
      if m.decision(record.decision.value) == Approved(goal.revision, true) then None else Some(ApprovalRequired)
    else if goal.automatic then None else Some(ApprovalRequired)
  }

  /** A checkout assignment that was marked pending has become the team's checkout, one revision later. */
  predicate TookEffect(record: Record, m: Moment) {
    var group := m.group(record.input.group);
    && record.assignmentPending && !record.bound && record.checkout.Some?
    && group.effective == record.checkout && group.checkoutRevision == record.checkoutRevision + 1
  }

  /** The target may be bound: a clean linked checkout of the repository, at the pinned commit and free of other teams. */
  predicate Suits(record: Record, source: CheckoutView, m: Moment)
    requires record.checkout.Some?
  {
    var target := m.checkout(record.checkout.value);
    && target.repository == source.repository && target.kind.Linked? && !target.dirty
    && (record.bound || target.head == record.head) && !target.taken(record.input.group)
  }

  /** The phase an error leaves a preparation in. */
  function AfterError(code: Code, goal: GoalState): Phase {
    if goal.Paused? then Waiting
    else if !goal.Running? then Cancelled
    else if code.DeadlineExceeded? then Expired
    else if Waits(code) then Waiting
    else Held
  }

  // ---------------------------------------------------------------- rows

  predicate SameRequest(record: Record, input: Request) {
    record.input.goal == input.goal && record.input.key == input.key
  }

  predicate Outstanding(record: Record, goal: nat) {
    record.input.goal == goal && !Finished(record.phase)
  }

  function CountOutstanding(records: seq<Record>, goal: nat): nat {
    if records == [] then 0
    else CountOutstanding(records[..|records| - 1], goal) + if Outstanding(records[|records| - 1], goal) then 1 else 0
  }

  function Created(id: nat, input: Request, clock: nat, m: Moment, source: nat): Record {
    var group, latest := m.group(input.group), clock + 600000;
    var expires := m.goal(input.goal).expires;
    Record(id, input, Waiting, None, if input.source.Some? then input.source.value else source, source,
           group.membershipRevision, group.checkoutRevision, input.checkout, None, false, false, [], [],
           None, None, 0, clock, if expires < latest then expires else latest, clock)
  }

  /** A request is recorded once; a repeat, a refusal and a full goal leave the table alone. */
  function Requested(records: seq<Record>, input: Request, clock: nat, m: Moment): seq<Record> {
    var goal, group := m.goal(input.goal), m.group(input.group);
    if exists i :: 0 <= i < |records| && SameRequest(records[i], input) then records
    else if goal.refusal.Some? || !group.ownerActive(input.member) || group.effective.None? then records
    else if !input.workspace.Existing? && input.checkout.Some? then records
    else if CountOutstanding(records, input.goal) >= goal.maxTeams then records
    else records + [Created(|records|, input, clock, m, group.effective.value)]
  }

  function AllRequested(records: seq<Record>, inputs: seq<Request>, clock: nat, m: Moment): seq<Record>
    decreases |inputs|
  {
    if inputs == [] then records else AllRequested(Requested(records, inputs[0], clock, m), inputs[1..], clock, m)
  }

  /** `#save`. */
  function Saved(record: Record, phase: Phase, reason: Option<Code>, clock: nat): Record {
    record.(phase := phase, reason := reason, nextAttempt := clock + 1000)
  }

  predicate Claims(record: Record) {
    !Finished(record.phase) && (record.bound || record.assignmentPending)
  }

  predicate HasIntent(record: Record) {
    (exists i :: 0 <= i < |record.stops| && !record.stops[i].done) || (exists i :: 0 <= i < |record.starts| && !record.starts[i].done)
  }

  predicate Names(delegation: Delegation, record: Record) {
    delegation.key == OfPreparation(record.id) && delegation.goal == record.input.goal
  }

  predicate Matches(delegation: Delegation, record: Record) {
    && delegation.group == record.input.group && delegation.member == record.input.member
    && delegation.brief == record.input.brief && record.checkout == Some(delegation.checkout)
  }

  /** The goal service records a request once. */
  function Delegate(delegations: seq<Delegation>, d: Delegation): seq<Delegation> {
    if exists i :: 0 <= i < |delegations| && delegations[i].goal == d.goal && delegations[i].key == d.key then delegations
    else delegations + [d]
  }

  function DelegateAll(delegations: seq<Delegation>, more: seq<Delegation>): seq<Delegation>
    decreases |more|
  {
    if more == [] then delegations else DelegateAll(Delegate(delegations, more[0]), more[1..])
  }

  // ---------------------------------------------------------------- effects

  datatype Effect = StopRun(run: nat) | StartMember(member: nat) | CreateWorktree | AssignCheckout(checkout: nat)

  /** An effect that was started, how many unfinished preparations of the same team were ahead of its own, and whether its fence was open. */
  datatype Entry = Entry(id: nat, effect: Effect, ahead: nat, fenced: bool)

  predicate Blocks(record: Record, group: nat) {
    record.input.group == group && !Finished(record.phase)
  }

  function Ahead(records: seq<Record>, i: nat, group: nat): (n: nat)
    requires i <= |records|
    decreases i
  {
    if i == 0 then 0 else Ahead(records, i - 1, group) + if Blocks(records[i - 1], group) then 1 else 0
  }

  /** The last effect switched the team to this checkout. */
  ghost predicate Switched(journal: seq<Entry>, id: nat, checkout: Option<nat>) {
    checkout.Some? && journal != [] && journal[|journal| - 1] == Entry(id, AssignCheckout(checkout.value), 0, true)
  }

  /** A preparation finished by the delegation recorded for it. */
  ghost predicate Reconciled(was: Record, now: Record, delegations: seq<Delegation>, m: Moment) {
    && now.delegation.Some? && now.delegation.value < |delegations|
    && var d := delegations[now.delegation.value];
       Names(d, was) && Matches(d, was) && now.phase == if m.delegationCancelled(d) then Cancelled else Delegated
  }

  // ---------------------------------------------------------------- what the tables promise

  /** The delegation is the one the preparation asked for. */
  predicate Fulfils(d: Delegation, input: Request, id: nat) {
    && d.key == OfPreparation(id) && d.goal == input.goal
    && d.group == input.group && d.member == input.member && d.brief == input.brief
  }

  ghost predicate RowFits(r: Record, delegations: seq<Delegation>, ended: set<nat>) {
    && (Claims(r) ==> r.checkout.Some?)
    && (forall s :: s in r.stops ==> s.run.Some? && (s.done ==> s.run.value in ended))
    && (forall a, b :: 0 <= a < b < |r.starts| ==> r.starts[a].member != r.starts[b].member)
    && (r.phase.Ready? ==> r.bound && r.input.operation.Prepare?)
    && (r.phase.Delegated? ==> r.delegation.Some? && r.delegation.value < |delegations| && Fulfils(delegations[r.delegation.value], r.input, r.id))
    && r.created <= r.nextAttempt && r.deadline <= r.created + 600000
  }

  ghost predicate RowHolds(records: seq<Record>, delegations: seq<Delegation>, ended: set<nat>, i: nat) {
    i < |records| ==> records[i].id == i && RowFits(records[i], delegations, ended)
  }

  /** No two unfinished preparations hold the same checkout. */
  ghost predicate ClaimHolds(records: seq<Record>, i: nat, j: nat) {
    i < j < |records| && Claims(records[i]) && Claims(records[j]) ==> records[i].checkout != records[j].checkout
  }

  /** Every effect started has its intent on record, and started while its preparation was first in line. */
  ghost predicate EntryHolds(records: seq<Record>, journal: seq<Entry>, k: nat) {
    k < |journal| ==>
      && journal[k].id < |records| && journal[k].ahead == 0 && journal[k].fenced
      && match journal[k].effect
         case StopRun(run) => Stopped(records[journal[k].id], run)
         case StartMember(member) => Started(records[journal[k].id], member)
         case CreateWorktree => true
         case AssignCheckout(checkout) => true
  }

  ghost predicate OnceHolds(journal: seq<Entry>, k: nat, l: nat) {
    k < l < |journal| && (journal[k].effect.StopRun? || journal[k].effect.StartMember?) ==>
      !(journal[k].id == journal[l].id && journal[k].effect == journal[l].effect)
  }

  ghost predicate KeyHolds(delegations: seq<Delegation>, a: nat, b: nat) {
    a < b < |delegations| ==> !(delegations[a].goal == delegations[b].goal && delegations[a].key == delegations[b].key)
  }

  ghost predicate RequestHolds(records: seq<Record>, a: nat, b: nat) {
    a < b < |records| ==> !SameRequest(records[a], records[b].input)
  }

  ghost predicate Sound(records: seq<Record>, delegations: seq<Delegation>, ended: set<nat>, journal: seq<Entry>) {
    && (forall i: nat :: RowHolds(records, delegations, ended, i))
    && (forall i: nat, j: nat :: ClaimHolds(records, i, j))
    && (forall k: nat :: EntryHolds(records, journal, k))
    && (forall k: nat, l: nat :: OnceHolds(journal, k, l))
    && (forall a: nat, b: nat :: KeyHolds(delegations, a, b))
    && (forall a: nat, b: nat :: RequestHolds(records, a, b))
  }

  // ---------------------------------------------------------------- each durable step keeps the promises

  predicate StopOf(s: Step, run: nat) { s.run == Some(run) }
  predicate StartOf(s: Step, member: nat) { s.member == member }

  /** What a save may change in a row: intents are only added, and nothing about the request moves. */
  ghost predicate Evolves(was: Record, now: Record) {
    && now.id == was.id && now.input == was.input && now.original == was.original && now.source == was.source
    && now.created == was.created && now.deadline == was.deadline && was.nextAttempt <= now.nextAttempt
    && (forall run: nat :: Stopped(was, run) ==> Stopped(now, run))
    && (forall member: nat :: Started(was, member) ==> Started(now, member))
  }

  ghost predicate Stopped(r: Record, run: nat) { exists s :: s in r.stops && StopOf(s, run) }
  ghost predicate Started(r: Record, member: nat) { exists s :: s in r.starts && StartOf(s, member) }

  /** No other unfinished preparation holds this checkout. */
  ghost predicate Unrivalled(records: seq<Record>, i: nat, checkout: Option<nat>) {
    forall j: nat :: RivalHolds(records, i, checkout, j)
  }

  ghost predicate RivalHolds(records: seq<Record>, i: nat, checkout: Option<nat>, j: nat) {
    j < |records| && j != i && Claims(records[j]) ==> records[j].checkout != checkout
  }

  lemma {:induction false} WriteSound(records: seq<Record>, delegations: seq<Delegation>, ended: set<nat>, journal: seq<Entry>, i: nat, now: Record)
    requires Sound(records, delegations, ended, journal) && i < |records|
    requires Evolves(records[i], now) && RowFits(now, delegations, ended)
    requires Claims(now) ==> (Claims(records[i]) && now.checkout == records[i].checkout) || Unrivalled(records, i, now.checkout)
    ensures Sound(records[i := now], delegations, ended, journal)
  {
    var after := records[i := now];
    forall j: nat ensures RowHolds(after, delegations, ended, j) {
      assert RowHolds(records, delegations, ended, j);
    }
    forall a: nat, b: nat ensures ClaimHolds(after, a, b) {
      assert ClaimHolds(records, a, b);
      if Unrivalled(records, i, now.checkout) {
        assert RivalHolds(records, i, now.checkout, a) && RivalHolds(records, i, now.checkout, b);
      }
    }
    forall k: nat ensures EntryHolds(after, journal, k) {
      assert EntryHolds(records, journal, k);
    }
    forall a: nat, b: nat ensures RequestHolds(after, a, b) {
      assert RequestHolds(records, a, b);
    }
  }

  /** A started effect keeps the promises if its intent is on record, it is first in line and it was not started before. */
  lemma {:induction false} EffectSound(records: seq<Record>, delegations: seq<Delegation>, ended: set<nat>, journal: seq<Entry>, entry: Entry)
    requires Sound(records, delegations, ended, journal) && entry.id < |records| && entry.ahead == 0 && entry.fenced
    requires match entry.effect
             case StopRun(run) => Stopped(records[entry.id], run)
             case StartMember(member) => Started(records[entry.id], member)
             case _ => true
    requires entry.effect.StopRun? || entry.effect.StartMember? ==> NotYet(journal, entry.id, entry.effect)
    ensures Sound(records, delegations, ended, journal + [entry])
  {
    var after := journal + [entry];
    forall k: nat ensures EntryHolds(records, after, k) {
      assert EntryHolds(records, journal, k);
    }
    forall k: nat, l: nat ensures OnceHolds(after, k, l) {
      assert OnceHolds(journal, k, l);
      assert NotYetHolds(journal, entry.id, entry.effect, k);
    }
  }

  ghost predicate NotYetHolds(journal: seq<Entry>, id: nat, effect: Effect, k: nat) {
    k < |journal| && (effect.StopRun? || effect.StartMember?) ==> !(journal[k].id == id && journal[k].effect == effect)
  }

  ghost predicate NotYet(journal: seq<Entry>, id: nat, effect: Effect) {
    forall k: nat :: NotYetHolds(journal, id, effect, k)
  }

  /** Without an intent on record, the effect was not started. */
  lemma {:induction false} NotStarted(records: seq<Record>, delegations: seq<Delegation>, ended: set<nat>, journal: seq<Entry>, i: nat, effect: Effect)
    requires Sound(records, delegations, ended, journal) && i < |records|
    requires match effect
             case StopRun(run) => !Stopped(records[i], run)
             case StartMember(member) => !Started(records[i], member)
             case _ => true
    ensures NotYet(journal, i, effect)
  {
    forall k: nat ensures NotYetHolds(journal, i, effect, k) {
      assert EntryHolds(records, journal, k);
    }
  }

  lemma {:induction false} EndedSound(records: seq<Record>, delegations: seq<Delegation>, ended: set<nat>, journal: seq<Entry>, more: set<nat>)
    requires Sound(records, delegations, ended, journal)
    ensures Sound(records, delegations, ended + more, journal)
  {
    forall i: nat ensures RowHolds(records, delegations, ended + more, i) {
      assert RowHolds(records, delegations, ended, i);
    }
  }

  lemma {:induction false} DelegateSound(records: seq<Record>, delegations: seq<Delegation>, ended: set<nat>, journal: seq<Entry>, d: Delegation)
    requires Sound(records, delegations, ended, journal)
    ensures Sound(records, Delegate(delegations, d), ended, journal) && delegations <= Delegate(delegations, d)
  {
    var after := Delegate(delegations, d);
    forall i: nat ensures RowHolds(records, after, ended, i) {
      assert RowHolds(records, delegations, ended, i);
    }
    forall a: nat, b: nat ensures KeyHolds(after, a, b) {
      assert KeyHolds(delegations, a, b);
    }
  }

  lemma {:induction false} DelegateAllSound(records: seq<Record>, delegations: seq<Delegation>, ended: set<nat>, journal: seq<Entry>, more: seq<Delegation>)
    requires Sound(records, delegations, ended, journal)
    ensures Sound(records, DelegateAll(delegations, more), ended, journal) && delegations <= DelegateAll(delegations, more)
    decreases |more|
  {
    if more != [] {
      DelegateSound(records, delegations, ended, journal, more[0]);
      DelegateAllSound(records, Delegate(delegations, more[0]), ended, journal, more[1..]);
    }
  }

  /** New rows come at the end and hold nothing. */
  ghost predicate Grown(before: seq<Record>, after: seq<Record>) {
    before <= after && forall j: nat :: ArrivedHolds(before, after, j)
  }

  ghost predicate ArrivedHolds(before: seq<Record>, after: seq<Record>, j: nat) {
    |before| <= j < |after| ==>
      && !after[j].bound && !after[j].assignmentPending && after[j].stops == [] && after[j].starts == []
      && after[j].created <= after[j].nextAttempt
  }

  lemma {:induction false} GrownOn(a: seq<Record>, b: seq<Record>, c: seq<Record>)
    requires Grown(a, b) && Grown(b, c)
    ensures Grown(a, c)
  {
    forall j: nat ensures ArrivedHolds(a, c, j) {
      assert ArrivedHolds(a, b, j) && ArrivedHolds(b, c, j);
    }
  }

  lemma {:induction false} GrownUnrivalled(before: seq<Record>, after: seq<Record>, i: nat, checkout: Option<nat>)
    requires Grown(before, after) && Unrivalled(before, i, checkout)
    ensures Unrivalled(after, i, checkout)
  {
    forall j: nat ensures RivalHolds(after, i, checkout, j) {
      assert RivalHolds(before, i, checkout, j) && ArrivedHolds(before, after, j);
    }
  }

  lemma {:induction false} GrownAhead(before: seq<Record>, after: seq<Record>, i: nat, group: nat)
    requires before <= after && i <= |before|
    ensures Ahead(after, i, group) == Ahead(before, i, group)
    decreases i
  {
    if i != 0 { GrownAhead(before, after, i - 1, group); }
  }

  lemma {:induction false} RequestedSound(records: seq<Record>, delegations: seq<Delegation>, ended: set<nat>, journal: seq<Entry>, input: Request, clock: nat, m: Moment)
    requires Sound(records, delegations, ended, journal)
    ensures Sound(Requested(records, input, clock, m), delegations, ended, journal) && Grown(records, Requested(records, input, clock, m))
  {
    var after := Requested(records, input, clock, m);
    forall j: nat ensures ArrivedHolds(records, after, j) {}
    forall i: nat ensures RowHolds(after, delegations, ended, i) {
      assert RowHolds(records, delegations, ended, i);
    }
    forall a: nat, b: nat ensures ClaimHolds(after, a, b) {
      assert ClaimHolds(records, a, b);
    }
    forall k: nat ensures EntryHolds(after, journal, k) {
      assert EntryHolds(records, journal, k);
    }
    forall a: nat, b: nat ensures RequestHolds(after, a, b) {
      assert RequestHolds(records, a, b);
    }
  }

  lemma {:induction false} AllRequestedSound(records: seq<Record>, delegations: seq<Delegation>, ended: set<nat>, journal: seq<Entry>, inputs: seq<Request>, clock: nat, m: Moment)
    requires Sound(records, delegations, ended, journal)
    ensures Sound(AllRequested(records, inputs, clock, m), delegations, ended, journal) && Grown(records, AllRequested(records, inputs, clock, m))
    decreases |inputs|
  {
    if inputs == [] {
      forall j: nat ensures ArrivedHolds(records, records, j) {}
    } else {
      var next := Requested(records, inputs[0], clock, m);
      RequestedSound(records, delegations, ended, journal, inputs[0], clock, m);
      AllRequestedSound(next, delegations, ended, journal, inputs[1..], clock, m);
      GrownOn(records, next, AllRequested(next, inputs[1..], clock, m));
    }
  }

  // ---------------------------------------------------------------- intents

  function WithStop(record: Record, member: nat, run: nat): Record {
    record.(stops := record.stops + [Step(member, Some(run), false)])
  }

  function WithStopDone(record: Record, member: nat, run: nat): Record
    requires record.stops != []
  {
    record.(stops := record.stops[|record.stops| - 1 := Step(member, Some(run), true)])
  }

  function WithStart(record: Record, member: nat): Record {
    record.(starts := record.starts + [Step(member, None, false)])
  }

  function WithStartDone(record: Record, member: nat, run: Option<nat>): Record
    requires record.starts != []
  {
    record.(starts := record.starts[|record.starts| - 1 := Step(member, run, true)])
  }

  lemma {:induction false} StopIntended(record: Record, member: nat, run: nat, delegations: seq<Delegation>, ended: set<nat>, phase: Phase, clock: nat)
    requires RowFits(record, delegations, ended) && !Finished(record.phase) && !Finished(phase) && record.nextAttempt <= clock + 1000
    ensures var now := WithStop(record, member, run);
            && Evolves(record, now) && Stopped(now, run) && RowFits(Saved(now, phase, None, clock), delegations, ended)
            && forall r: nat :: Stopped(now, r) ==> r == run || Stopped(record, r)
  {
    var now := WithStop(record, member, run);
    assert Step(member, Some(run), false) in now.stops && StopOf(Step(member, Some(run), false), run);
  }

  lemma {:induction false} StopConfirmed(record: Record, was: Record, member: nat, run: nat, delegations: seq<Delegation>, ended: set<nat>, clock: nat)
    requires record.stops == was.stops + [Step(member, Some(run), false)] && run in ended
    requires RowFits(record, delegations, ended) && !Finished(record.phase) && record.nextAttempt <= clock + 1000
    ensures var now := WithStopDone(record, member, run);
            && Evolves(record, now) && RowFits(Saved(now, record.phase, None, clock), delegations, ended)
            && forall r: nat :: Stopped(now, r) ==> r == run || Stopped(was, r)
  {
    var now := WithStopDone(record, member, run);
    assert now.stops == was.stops + [Step(member, Some(run), true)];
    forall r: nat | Stopped(record, r) ensures Stopped(now, r) {
      var s :| s in record.stops && StopOf(s, r);
      if s in was.stops { assert s in now.stops; } else { assert Step(member, Some(run), true) in now.stops && StopOf(Step(member, Some(run), true), r); }
    }
  }

  lemma {:induction false} StartIntended(record: Record, member: nat, delegations: seq<Delegation>, ended: set<nat>, clock: nat)
    requires RowFits(record, delegations, ended) && !Finished(record.phase) && record.nextAttempt <= clock + 1000 && !Started(record, member)
    ensures var now := WithStart(record, member);
            Evolves(record, now) && Started(now, member) && RowFits(Saved(now, Starting, None, clock), delegations, ended)
  {
    var now := WithStart(record, member);
    assert Step(member, None, false) in now.starts && StartOf(Step(member, None, false), member);
    forall a | 0 <= a < |record.starts| ensures record.starts[a].member != member {
      assert record.starts[a] in record.starts;
      assert !StartOf(record.starts[a], member);
    }
  }

  lemma {:induction false} StartConfirmed(record: Record, was: Record, member: nat, run: Option<nat>, delegations: seq<Delegation>, ended: set<nat>, clock: nat)
    requires record.starts == was.starts + [Step(member, None, false)]
    requires RowFits(record, delegations, ended) && !Finished(record.phase) && record.nextAttempt <= clock + 1000
    ensures var now := WithStartDone(record, member, run);
            Evolves(record, now) && RowFits(Saved(now, record.phase, None, clock), delegations, ended)
  {
    var now := WithStartDone(record, member, run);
    assert |now.starts| == |record.starts| && now.stops == record.stops;
    forall a | 0 <= a < |record.starts| ensures now.starts[a].member == record.starts[a].member {}
    forall m: nat | Started(record, m) ensures Started(now, m) {
      var a :| 0 <= a < |record.starts| && StartOf(record.starts[a], m);
      assert now.starts[a] in now.starts && StartOf(now.starts[a], m);
    }
    forall m: nat | Stopped(record, m) ensures Stopped(now, m) {
      var s :| s in record.stops && StopOf(s, m);
      assert s in now.stops;
    }
    forall a, b | 0 <= a < b < |now.starts| ensures now.starts[a].member != now.starts[b].member {
      assert record.starts[a].member != record.starts[b].member;
    }
  }

  /** A stop on record that is done was confirmed, so a run that still requires a stop has no stop on record. */
  lemma {:induction false} LiveUnstopped(record: Record, runs: seq<(nat, nat)>, delegations: seq<Delegation>, ended: set<nat>)
    requires RowFits(record, delegations, ended) && !HasIntent(record)
    ensures forall j :: 0 <= j < |Live(runs, ended)| ==> !Stopped(record, Live(runs, ended)[j].1)
  {
    forall j | 0 <= j < |Live(runs, ended)| ensures !Stopped(record, Live(runs, ended)[j].1) {
      var run := Live(runs, ended)[j].1;
      forall s | s in record.stops ensures !StopOf(s, run) {
        var a :| 0 <= a < |record.stops| && record.stops[a] == s;
      }
    }
  }

  // ---------------------------------------------------------------- one visit to a row

  /** Only row `i` moved since `before`, new rows came at the end, and a save pushed the next attempt a second ahead. */
  ghost predicate OtherHolds(i: nat, before: seq<Record>, after: seq<Record>, j: nat) {
    (j < |before| && j != i && j < |after| ==> after[j] == before[j]) && ArrivedHolds(before, after, j)
  }

  ghost predicate Progress(i: nat, before: seq<Record>, since: nat, after: seq<Record>) {
    && i < |before| <= |after|
    && (forall j: nat :: OtherHolds(i, before, after, j))
    && Evolves(before[i], after[i])
    && (after[i].nextAttempt == before[i].nextAttempt || since + 1000 <= after[i].nextAttempt)
  }

  lemma {:induction false} ProgressStart(i: nat, before: seq<Record>, since: nat)
    requires i < |before|
    ensures Progress(i, before, since, before)
  {
    forall j: nat ensures OtherHolds(i, before, before, j) {}
  }

  lemma {:induction false} ProgressSave(i: nat, before: seq<Record>, since: nat, after: seq<Record>, now: Record)
    requires Progress(i, before, since, after) && Evolves(after[i], now) && since + 1000 <= now.nextAttempt
    ensures Progress(i, before, since, after[i := now])
    ensures Ahead(after[i := now], i, now.input.group) == Ahead(after, i, now.input.group)
    ensures forall c :: Unrivalled(after, i, c) ==> Unrivalled(after[i := now], i, c)
  {
    var next := after[i := now];
    forall j: nat ensures OtherHolds(i, before, next, j) {
      assert OtherHolds(i, before, after, j) && ArrivedHolds(before, after, j);
    }
    AheadSame(after, next, i, now.input.group);
    forall c | Unrivalled(after, i, c) ensures Unrivalled(next, i, c) {
      forall j: nat ensures RivalHolds(next, i, c, j) { assert RivalHolds(after, i, c, j); }
    }
  }

  lemma {:induction false} ProgressArrivals(i: nat, before: seq<Record>, since: nat, after: seq<Record>, next: seq<Record>)
    requires Progress(i, before, since, after) && Grown(after, next)
    ensures Progress(i, before, since, next)
    ensures Ahead(next, i, next[i].input.group) == Ahead(after, i, after[i].input.group)
    ensures forall c :: Unrivalled(after, i, c) ==> Unrivalled(next, i, c)
  {
    forall j: nat ensures OtherHolds(i, before, next, j) {
      assert OtherHolds(i, before, after, j) && ArrivedHolds(after, next, j);
    }
    GrownAhead(after, next, i, next[i].input.group);
    forall c | Unrivalled(after, i, c) ensures Unrivalled(next, i, c) { GrownUnrivalled(after, next, i, c); }
  }

  lemma {:induction false} AheadSame(before: seq<Record>, after: seq<Record>, i: nat, group: nat)
    requires i <= |before| && i <= |after| && forall j :: 0 <= j < i ==> before[j] == after[j]
    ensures Ahead(before, i, group) == Ahead(after, i, group)
    decreases i
  {
    if i != 0 { AheadSame(before, after, i - 1, group); }
  }

  // ---------------------------------------------------------------- how often a row is advanced

  /** An attempt that was not cut short pushed the next one a second ahead, and there is none after the deadline. */
  ghost predicate TimeHolds(records: seq<Record>, attempts: multiset<nat>, cutShort: multiset<nat>, i: nat) {
    if i < |records| then
      && cutShort[i] <= attempts[i] <= 600 + cutShort[i]
      && (attempts[i] - cutShort[i]) * 1000 <= records[i].nextAttempt - records[i].created
    else attempts[i] == 0 && cutShort[i] == 0
  }

  ghost predicate Timed(records: seq<Record>, attempts: multiset<nat>, cutShort: multiset<nat>) {
    forall i: nat :: TimeHolds(records, attempts, cutShort, i)
  }

  lemma {:induction false} TimedArrivals(before: seq<Record>, after: seq<Record>, attempts: multiset<nat>, cutShort: multiset<nat>)
    requires Timed(before, attempts, cutShort) && Grown(before, after)
    ensures Timed(after, attempts, cutShort)
  {
    forall i: nat ensures TimeHolds(after, attempts, cutShort, i) {
      assert TimeHolds(before, attempts, cutShort, i) && ArrivedHolds(before, after, i);
    }
  }

  lemma {:induction false} TimedVisit(before: seq<Record>, after: seq<Record>, attempts: multiset<nat>, cutShort: multiset<nat>, since: nat, i: nat)
    requires Timed(before, attempts, cutShort) && Progress(i, before, since, after)
    ensures Timed(after, attempts, cutShort)
  {
    forall j: nat ensures TimeHolds(after, attempts, cutShort, j) {
      assert TimeHolds(before, attempts, cutShort, j) && OtherHolds(i, before, after, j) && ArrivedHolds(before, after, j);
    }
  }

  lemma {:induction false} TimedAttempt(before: seq<Record>, after: seq<Record>, attempts: multiset<nat>, cutShort: multiset<nat>, since: nat, i: nat, cut: bool)
    requires Timed(before, attempts, cutShort) && Progress(i, before, since, after)
    requires before[i].nextAttempt <= since < before[i].deadline <= before[i].created + 600000
    requires cut || since + 1000 <= after[i].nextAttempt
    ensures Timed(after, attempts + multiset{i}, if cut then cutShort + multiset{i} else cutShort)
  {
    var tries, cuts := attempts + multiset{i}, if cut then cutShort + multiset{i} else cutShort;
    forall j: nat ensures TimeHolds(after, tries, cuts, j) {
      assert TimeHolds(before, attempts, cutShort, j) && OtherHolds(i, before, after, j) && ArrivedHolds(before, after, j);
    }
  }

  // ---------------------------------------------------------------- what the promises come to

  function IsEntry(id: nat, effect: Effect): Entry -> bool {
    (e: Entry) => e.id == id && e.effect == effect
  }

  function IsFor(record: Record): Delegation -> bool {
    (d: Delegation) => Names(d, record)
  }

  /** A preparation stops a run at most once and starts a member at most once. */
  lemma {:induction false} EffectsHappenOnce(records: seq<Record>, delegations: seq<Delegation>, ended: set<nat>, journal: seq<Entry>, id: nat, effect: Effect)
    requires Sound(records, delegations, ended, journal) && (effect.StopRun? || effect.StartMember?)
    ensures Count(journal, IsEntry(id, effect)) <= 1
  {
    forall k, l | 0 <= k < l < |journal| ensures !(IsEntry(id, effect)(journal[k]) && IsEntry(id, effect)(journal[l])) {
      assert OnceHolds(journal, k, l);
    }
    CountAtMostOne(journal, IsEntry(id, effect));
  }

  /** A preparation yields at most one delegation. */
  lemma {:induction false} DelegatesOnce(records: seq<Record>, delegations: seq<Delegation>, ended: set<nat>, journal: seq<Entry>, record: Record)
    requires Sound(records, delegations, ended, journal)
    ensures Count(delegations, IsFor(record)) <= 1
  {
    forall k, l | 0 <= k < l < |delegations| ensures !(IsFor(record)(delegations[k]) && IsFor(record)(delegations[l])) {
      assert KeyHolds(delegations, k, l);
    }
    CountAtMostOne(delegations, IsFor(record));
  }

  /** Two unfinished preparations never hold the same checkout; every effect started behind an open fence, for the first in line of its team. */
  lemma {:induction false} NeverConflict(records: seq<Record>, delegations: seq<Delegation>, ended: set<nat>, journal: seq<Entry>)
    requires Sound(records, delegations, ended, journal)
    ensures forall i, j :: 0 <= i < j < |records| && Claims(records[i]) && Claims(records[j]) ==> records[i].checkout != records[j].checkout
    ensures forall k :: 0 <= k < |journal| ==> journal[k].ahead == 0 && journal[k].fenced
  {
    forall i, j | 0 <= i < j < |records| && Claims(records[i]) && Claims(records[j]) ensures records[i].checkout != records[j].checkout {
      assert ClaimHolds(records, i, j);
    }
    forall k | 0 <= k < |journal| ensures journal[k].ahead == 0 && journal[k].fenced {
      assert EntryHolds(records, journal, k);
    }
  }

  /** A preparation is advanced at most 600 times, not counting the times the daemon died or an error escaped meanwhile. */
  lemma {:induction false} AttemptsAreBounded(records: seq<Record>, attempts: multiset<nat>, cutShort: multiset<nat>, i: nat)
    requires Timed(records, attempts, cutShort)
    ensures attempts[i] <= 600 + cutShort[i]
  {
    assert TimeHolds(records, attempts, cutShort, i);
  }

  /** A finished preparation names its result: the delegation it asked for, or the checkout it bound the team to. */
  lemma {:induction false} FinishedRowsNameTheirResult(records: seq<Record>, delegations: seq<Delegation>, ended: set<nat>, journal: seq<Entry>, i: nat)
    requires Sound(records, delegations, ended, journal) && i < |records|
    ensures records[i].phase.Delegated? ==>
              records[i].delegation.Some? && records[i].delegation.value < |delegations| && Fulfils(delegations[records[i].delegation.value], records[i].input, i)
    ensures records[i].phase.Ready? ==> records[i].bound && records[i].input.operation.Prepare?
  {
    assert RowHolds(records, delegations, ended, i);
  }
}
