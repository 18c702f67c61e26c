/**
 The agent status reducer (`apps/daemon/src/agent-status-reducer.ts`): a fold over everything that is
 observed of one run.  Fields that are only stored for display are not part of the model.
 */
module StatusReducer {
  import opened Wrappers

  datatype State = Starting | Idle | Working | Waiting | Blocked | SuspectedStuck | Stopped | Failed | Unknown
  datatype Phase = Startup | Model | Tool | Retry | Compaction | Permission | Question | PlanApproval | Settled | Exited
  datatype Outcome = NoOutcome | Succeeded | OutcomeFailed | Cancelled
  datatype Confidence = High | Medium | Low
  datatype Attention = Nothing | InputRequired | DecisionRequired | ReporterStale | ProgressStale | ProcessFailed
  datatype Authority = NoAuthority | ProcessAuthority | ReporterAuthority | ScreenAuthority
  datatype Process = Present | Dead | Missing | Indeterminate
  datatype Coverage = Full | Partial | SessionOnly

  datatype WaitKind = AskPermission | AskQuestion | Elicitation | AskPlanApproval
  datatype Wait = Wait(request: nat, kind: WaitKind, since: nat)
  datatype Source = FromProcess | FromReporter | FromScreen | FromStatusApi | FromScheduler
  datatype Evidence = Evidence(source: Source, observed: nat, confidence: Confidence)
  datatype Change = Change(from: State, to: State, phase: Phase, attention: Attention, occurred: nat)

  datatype Event =
    | ReporterReady | SessionReady | TurnStarted | TurnWaiting | TurnSettled(active: Option<nat>)
    | ToolStarted(tool: nat) | ToolFinished(tool: nat) | ToolFailed(tool: nat)
    | WaitOpened(request: nat, kind: WaitKind) | WaitClosed(request: nat)
    | CompactionStarted | CompactionFinished | RetryObserved(retryAt: Option<nat>)
    | FailureObserved(fatal: bool) | SessionEnded | Heartbeat

  datatype Fact =
    | Alive(matches: bool, reporterInvalid: bool)
    | Vanished
    | Unclear
    | Exits(operatorStopped: bool)
    | LeaseProbed
    | Progress(blocked: bool, outcome: Option<Outcome>)
    | Screen(blocked: bool, visible: bool, confidence: Confidence)
    | Reported(event: Event, lease: nat, coverage: Coverage)

  datatype Observation = Observation(at: nat, fact: Fact)

  /** What the status shows. */
  datatype Face = Face(state: State, phase: Phase, outcome: Outcome, confidence: Confidence, attention: Attention)
  /** What the agent is doing. */
  datatype Work = Work(tools: seq<nat>, waits: seq<Wait>, staleProbes: nat, lease: Option<nat>, cleanEnd: bool)
  /** Who says so, and about which process. */
  datatype Trust = Trust(
    authority: Authority, stale: bool, ready: bool, process: Process, transportLease: Option<nat>, reporterLease: Option<nat>, coverage: Option<Coverage>)
  /** What was recorded. */
  datatype Log = Log(observed: nat, stateChanged: nat, evidence: seq<Evidence>, recent: seq<Change>, revision: nat, completions: nat)
  datatype Status = Status(face: Face, work: Work, trust: Trust, log: Log)

  const LEASE_MS := 45000
  const MAX_HISTORY := 20

  function AppendLimited<T>(items: seq<T>, item: T): (r: seq<T>)
    ensures |r| <= MAX_HISTORY || |r| <= |items|
    ensures |r| > 0 && r[|r| - 1] == item
  {
    var all := items + [item];
    if |all| > MAX_HISTORY then all[|all| - MAX_HISTORY..] else all
  }

  /** `[...new Set(items)]`. */
  function Unique(items: seq<nat>): (r: seq<nat>)
    ensures forall i, j :: 0 <= i < j < |r| ==> r[i] != r[j]
  {
    if items == [] then []
    else
      var rest := Unique(items[..|items| - 1]);
      if items[|items| - 1] in rest then rest else rest + [items[|items| - 1]]
  }

  function WithoutTool(tools: seq<nat>, tool: nat): seq<nat> {
    if tools == [] then []
    else WithoutTool(tools[..|tools| - 1], tool) + if tools[|tools| - 1] == tool then [] else [tools[|tools| - 1]]
  }

  function WithoutWait(waits: seq<Wait>, request: nat): seq<Wait> {
    if waits == [] then []
    else WithoutWait(waits[..|waits| - 1], request) + if waits[|waits| - 1].request == request then [] else [waits[|waits| - 1]]
  }

  predicate HasWait(waits: seq<Wait>, request: nat) {
    exists i :: 0 <= i < |waits| && waits[i].request == request
  }

  function WaitPhase(kind: WaitKind): Phase {
    match kind
    case AskPermission => Permission
    case AskQuestion => Question
    case Elicitation => Question
    case AskPlanApproval => PlanApproval
  }

  function WaitAttention(kind: WaitKind): Attention {
    if kind.AskPermission? || kind.AskPlanApproval? then DecisionRequired else InputRequired
  }

  function Created(at: nat): Status {
    Status(Face(Starting, Startup, NoOutcome, Low, Nothing), Work([], [], 0, None, false),
           Trust(NoAuthority, true, false, Indeterminate, None, None, None),
           Log(at, at, [Evidence(FromScheduler, at, High)], [], 0, 0))
  }

  predicate SameFace(a: Face, b: Face) {
    a.state == b.state && a.phase == b.phase && a.attention == b.attention && a.outcome == b.outcome
  }

  /** `transition`: every observation is a revision; a visible change is recorded. */
  function Transition(log: Log, was: Face, now: Face, at: nat, evidence: Option<Evidence>, completion: bool): Log {
    Log(at,
        if SameFace(was, now) then log.stateChanged else at,
        if evidence.None? then log.evidence else AppendLimited(log.evidence, evidence.value),
        if SameFace(was, now) then log.recent else AppendLimited(log.recent, Change(was.state, now.state, now.phase, now.attention, at)),
        log.revision + 1, log.completions + if completion then 1 else 0)
  }

  function BlockedBy(face: Face, kind: WaitKind): Face {
    Face(Blocked, WaitPhase(kind), face.outcome, High, WaitAttention(kind))
  }

  function ResumeAfterWait(face: Face, work: Work): Face {
    if work.waits != [] then BlockedBy(face, work.waits[0].kind)
    else Face(State.Working, if |work.tools| > 0 then Tool else Model, face.outcome, High, Nothing)
  }

  // ---------------------------------------------------------------- what each fact changes

  function OnAlive(s: Status, at: nat, matches: bool, reporterInvalid: bool): Status {
    var trust := s.trust.(process := Present, transportLease := Some(at + LEASE_MS));
    if reporterInvalid then
      Status(Face(Unknown, Startup, NoOutcome, Low, ReporterStale), Work([], [], 0, None, false),
             Trust(NoAuthority, true, false, Present, trust.transportLease, None, None), s.log)
    else if matches && s.work.waits == [] && (s.face.state.Starting? || s.face.state.Unknown?) then
      s.(face := Face(Idle, Settled, s.face.outcome, Low, Nothing), trust := trust.(authority := ProcessAuthority, stale := false, ready := true))
    else s.(trust := trust)
  }

  function OnUnclear(s: Status, at: nat): Status {
    var trust := s.trust.(process := Indeterminate, ready := false);
    if s.trust.reporterLease.None? || at > s.trust.reporterLease.value then
      s.(face := s.face.(state := Unknown, attention := ReporterStale), trust := trust.(authority := NoAuthority, stale := true))
    else s.(trust := trust)
  }

  function Over(s: Status, face: Face, process: Process): Status {
    Status(face, s.work.(tools := [], waits := [], staleProbes := 0),
           s.trust.(authority := ProcessAuthority, stale := false, ready := false, process := process), s.log)
  }

  function OnExit(s: Status, operatorStopped: bool): Status {
    var stopped := operatorStopped || s.work.cleanEnd;
    var outcome := if operatorStopped then Cancelled else if stopped then s.face.outcome else OutcomeFailed;
    Over(s, Face(if stopped then Stopped else Failed, Exited, outcome, High, if stopped then Nothing else ProcessFailed), Dead)
  }

  function OnVanished(s: Status): Status {
    Over(s, Face(Failed, Exited, OutcomeFailed, Medium, ProcessFailed), Missing)
  }

  predicate Expired(s: Status, at: nat) {
    s.work.lease.Some? && at > s.work.lease.value
  }

  /** A probe that finds a working status with an expired lease and nothing it waits for. */
  predicate Overdue(s: Status, at: nat) {
    s.work.waits == [] && s.face.state.Working? && Expired(s, at)
  }

  function OnProbe(s: Status, at: nat): Status {
    if !Overdue(s, at) then s
    else
      var probed := s.(work := s.work.(staleProbes := s.work.staleProbes + 1));
      if s.work.staleProbes + 1 >= 2 then probed.(face := s.face.(state := SuspectedStuck, attention := ProgressStale, confidence := Low)) else probed
  }

  function OnProgress(s: Status, at: nat, blocked: bool, outcome: Option<Outcome>): Status {
    var face := Face(
      if blocked then Blocked else if outcome.None? then State.Working else Idle, if outcome.None? then Model else Settled,
      if outcome.None? then s.face.outcome else outcome.value, High, if blocked then InputRequired else Nothing);
    var work := s.work.(lease := Some(at + LEASE_MS), cleanEnd := false, staleProbes := 0);
    Status(if work.waits != [] then ResumeAfterWait(face, work) else face, work, s.trust.(authority := ReporterAuthority, stale := false), s.log)
  }

  function OnScreen(s: Status, blocked: bool, visible: bool): Status {
    if blocked && visible && (s.trust.stale || s.trust.coverage != Some(Full)) then
      s.(face := s.face.(state := Blocked, confidence := Medium, attention := InputRequired), trust := s.trust.(authority := ScreenAuthority, stale := false))
    else s
  }

  // ---------------------------------------------------------------- reporter events

  function ToolWork(work: Work, at: nat, event: Event): Work {
    match event
    case ToolStarted(tool) => work.(tools := Unique(work.tools + [tool]), lease := Some(at + LEASE_MS), cleanEnd := false)
    case ToolFinished(tool) => work.(tools := WithoutTool(work.tools, tool), waits := WithoutWait(work.waits, tool), lease := Some(at + LEASE_MS))
    case ToolFailed(tool) => work.(tools := WithoutTool(work.tools, tool), waits := WithoutWait(work.waits, tool), lease := Some(at + LEASE_MS))
    case _ => work
  }

  function WaitWork(work: Work, at: nat, event: Event): Work {
    match event
    case WaitOpened(request, kind) => work.(waits := WithoutWait(work.waits, request) + [Wait(request, kind, at)], lease := None)
    case WaitClosed(request) =>
      if HasWait(work.waits, request) then work.(waits := WithoutWait(work.waits, request), lease := Some(at + LEASE_MS)) else work
    case _ => work
  }

  function SettledWork(work: Work, at: nat, active: Option<nat>): Work {
    var tools := if active == Some(0) then [] else work.tools;
    work.(tools := tools,
          lease := if work.waits != [] then work.lease
                   else if (active.Some? && active.value > 0) || |tools| > 0 then Some(at + LEASE_MS) else None)
  }

  function EventWork(work: Work, at: nat, event: Event): Work {
    var leased := work.(lease := Some(at + LEASE_MS));
    match event
    case ReporterReady => work
    case Heartbeat => work
    case SessionReady => work.(cleanEnd := false, lease := None)
    case TurnWaiting => leased
    case TurnStarted => leased.(cleanEnd := false)
    case ToolStarted(_) => ToolWork(work, at, event)
    case ToolFinished(_) => ToolWork(work, at, event)
    case ToolFailed(_) => ToolWork(work, at, event)
    case WaitOpened(_, _) => WaitWork(work, at, event)
    case WaitClosed(_) => WaitWork(work, at, event)
    case CompactionStarted => leased
    case CompactionFinished => leased
    case RetryObserved(retryAt) => if retryAt.Some? then work.(lease := retryAt) else leased
    case FailureObserved(_) => work
    case TurnSettled(active) => SettledWork(work, at, active)
    case SessionEnded => work.(cleanEnd := true, tools := [], waits := [], lease := None)
  }

  function SettledFace(face: Face, work: Work, active: Option<nat>): Face {
    if work.waits != [] then ResumeAfterWait(face, work)
    else if (active.Some? && active.value > 0) || |work.tools| > 0 then face.(state := State.Working, phase := if |work.tools| > 0 then Tool else Model)
    else Face(Idle, Settled, face.outcome, High, Nothing)
  }

  /** The face after an event, given the work before it and after it. */
  function EventFace(face: Face, work: Work, after: Work, event: Event): Face {
    match event
    case ReporterReady => face
    case Heartbeat => face
    case SessionReady => Face(Idle, Settled, face.outcome, High, Nothing)
    case TurnWaiting => Face(Waiting, Model, face.outcome, High, Nothing)
    case TurnStarted => Face(State.Working, Model, face.outcome, High, Nothing)
    case ToolStarted(_) => Face(State.Working, Tool, face.outcome, High, Nothing)
    case ToolFinished(_) => ResumeAfterWait(face, after)
    case ToolFailed(_) => ResumeAfterWait(face, after)
    case WaitOpened(_, kind) => BlockedBy(face, kind)
    case WaitClosed(request) => if HasWait(work.waits, request) then ResumeAfterWait(face, after) else face
    case CompactionStarted => face.(state := State.Working, phase := Compaction, attention := Nothing)
    case CompactionFinished => face.(state := State.Working, phase := Model)
    case RetryObserved(_) => face.(state := State.Working, phase := Retry, attention := Nothing)
    case FailureObserved(fatal) => if fatal then Face(Failed, Settled, OutcomeFailed, face.confidence, ProcessFailed) else face.(attention := Nothing)
    case TurnSettled(active) => SettledFace(face, after, active)
    case SessionEnded => Face(Idle, Settled, face.outcome, High, Nothing)
  }

  predicate LeavesWaits(event: Event) {
    event.WaitClosed? || event.SessionEnded? || event == FailureObserved(true)
  }

  function OnReported(s: Status, at: nat, event: Event, lease: nat, coverage: Coverage): Status {
    var heard := if event.Heartbeat? then s.work else s.work.(staleProbes := 0);
    var work := EventWork(heard, at, event);
    var face := EventFace(s.face, heard, work, event);
    Status(if work.waits != [] && !LeavesWaits(event) then ResumeAfterWait(face, work) else face, work,
           s.trust.(authority := ReporterAuthority, stale := false, reporterLease := Some(lease), coverage := Some(coverage),
                    ready := if event.SessionReady? then s.trust.process.Present? else s.trust.ready),
           s.log)
  }

  function Next(s: Status, o: Observation): Status {
    match o.fact
    case Alive(matches, invalid) => OnAlive(s, o.at, matches, invalid)
    case Unclear => OnUnclear(s, o.at)
    case Exits(stopped) => OnExit(s, stopped)
    case Vanished => OnVanished(s)
    case LeaseProbed => OnProbe(s, o.at)
    case Progress(blocked, outcome) => OnProgress(s, o.at, blocked, outcome)
    case Screen(blocked, visible, _) => OnScreen(s, blocked, visible)
    case Reported(event, lease, coverage) => OnReported(s, o.at, event, lease, coverage)
  }

  function EvidenceOf(o: Observation): Option<Evidence> {
    match o.fact
    case Alive(_, _) => Some(Evidence(FromProcess, o.at, High))
    case Unclear => Some(Evidence(FromProcess, o.at, Low))
    case Exits(_) => Some(Evidence(FromProcess, o.at, High))
    case Vanished => Some(Evidence(FromProcess, o.at, Medium))
    case LeaseProbed => None
    case Progress(_, _) => Some(Evidence(FromStatusApi, o.at, High))
    case Screen(_, _, confidence) => Some(Evidence(FromScreen, o.at, confidence))
    case Reported(_, _, _) => Some(Evidence(FromReporter, o.at, High))
  }

  predicate Active(state: State) {
    state.Working? || state.SuspectedStuck?
  }

  predicate Completes(was: Face, now: Face, o: Observation) {
    o.fact.Reported? && o.fact.event.TurnSettled? && Active(was.state) && now.state.Idle?
  }

  /** `reduceAgentStatus`. */
  function Reduce(s: Status, o: Observation): Status {
    var next := Next(s, o);
    next.(log := Transition(s.log, s.face, next.face, o.at, EvidenceOf(o), Completes(s.face, next.face, o)))
  }

  function Run(s: Status, observations: seq<Observation>): Status {
    if observations == [] then s else Reduce(Run(s, observations[..|observations| - 1]), observations[|observations| - 1])
  }

  // ---------------------------------------------------------------- what holds after any observations

  ghost predicate Chained(recent: seq<Change>) {
    forall i :: 0 <= i < |recent| - 1 ==> recent[i].to == recent[i + 1].from
  }

  ghost predicate WaitsUnique(waits: seq<Wait>) {
    forall i, j :: 0 <= i < j < |waits| ==> waits[i].request != waits[j].request
  }

  ghost predicate ToolsUnique(tools: seq<nat>) {
    forall i, j :: 0 <= i < j < |tools| ==> tools[i] != tools[j]
  }

  /** The recorded changes lead up to the current state. */
  ghost predicate Recorded(log: Log, state: State) {
    && |log.recent| <= MAX_HISTORY && |log.evidence| <= MAX_HISTORY && Chained(log.recent)
    && state == if log.recent == [] then Starting else log.recent[|log.recent| - 1].to
  }

  ghost predicate Authorized(trust: Trust) {
    (trust.ready ==> trust.process.Present?) && (trust.stale <==> trust.authority.NoAuthority?)
  }

  ghost predicate Waited(work: Work, state: State) {
    && WaitsUnique(work.waits) && ToolsUnique(work.tools)
    && (work.waits != [] ==> state.Blocked? || state.Unknown? || state.Failed?)
  }

  ghost predicate Probed(s: Status) {
    s.face.state.Working? ==> s.work.staleProbes <= 1
  }

  ghost predicate Sound(s: Status) {
    Recorded(s.log, s.face.state) && Authorized(s.trust) && Waited(s.work, s.face.state) && Probed(s)
  }

  lemma {:induction false} WithoutWaitUnique(waits: seq<Wait>, request: nat)
    ensures forall w :: w in WithoutWait(waits, request) <==> w in waits && w.request != request
    ensures WaitsUnique(waits) ==> WaitsUnique(WithoutWait(waits, request))
  {
    if waits != [] {
      var init, last := waits[..|waits| - 1], waits[|waits| - 1];
      WithoutWaitUnique(init, request);
      assert waits == init + [last];
      forall i | WaitsUnique(waits) && 0 <= i < |WithoutWait(init, request)| ensures WithoutWait(init, request)[i].request != last.request {
        assert WithoutWait(init, request)[i] in init;
      }
    }
  }

  lemma {:induction false} WithoutToolUnique(tools: seq<nat>, tool: nat)
    ensures forall t :: t in WithoutTool(tools, tool) <==> t in tools && t != tool
    ensures ToolsUnique(tools) ==> ToolsUnique(WithoutTool(tools, tool))
  {
    if tools != [] {
      var init, last := tools[..|tools| - 1], tools[|tools| - 1];
      WithoutToolUnique(init, tool);
      assert tools == init + [last];
      forall i | ToolsUnique(tools) && 0 <= i < |WithoutTool(init, tool)| ensures WithoutTool(init, tool)[i] != last {
        assert WithoutTool(init, tool)[i] in init;
      }
    }
  }

  lemma {:induction false} AppendChained(recent: seq<Change>, change: Change)
    requires Chained(recent) && (recent != [] ==> recent[|recent| - 1].to == change.from)
    ensures Chained(AppendLimited(recent, change))
  {
    var all := recent + [change];
    assert forall i :: 0 <= i < |recent| ==> all[i] == recent[i];
  }

  lemma {:induction false} TransitionRecorded(log: Log, was: Face, now: Face, at: nat, evidence: Option<Evidence>, completion: bool)
    requires Recorded(log, was.state)
    ensures Recorded(Transition(log, was, now, at, evidence, completion), now.state)
  {
    if !SameFace(was, now) && log.recent != [] { AppendChained(log.recent, Change(was.state, now.state, now.phase, now.attention, at)); }
  }

  lemma {:induction false} ReduceAuthorized(s: Status, o: Observation)
    requires Authorized(s.trust)
    ensures Authorized(Next(s, o).trust)
  {
  }

  lemma {:induction false} EventWaited(work: Work, at: nat, event: Event)
    requires WaitsUnique(work.waits) && ToolsUnique(work.tools)
    ensures WaitsUnique(EventWork(work, at, event).waits) && ToolsUnique(EventWork(work, at, event).tools)
  {
    match event {
      case ToolFinished(tool) => WithoutToolUnique(work.tools, tool); WithoutWaitUnique(work.waits, tool);
      case ToolFailed(tool) => WithoutToolUnique(work.tools, tool); WithoutWaitUnique(work.waits, tool);
      case WaitOpened(request, kind) => WithoutWaitUnique(work.waits, request);
      case WaitClosed(request) => WithoutWaitUnique(work.waits, request);
      case _ =>
    }
  }

  lemma {:induction false} ReduceWaited(s: Status, o: Observation)
    requires Waited(s.work, s.face.state)
    ensures Waited(Next(s, o).work, Next(s, o).face.state)
  {
    if o.fact.Reported? {
      EventWaited(if o.fact.event.Heartbeat? then s.work else s.work.(staleProbes := 0), o.at, o.fact.event);
    }
  }

  lemma {:induction false} ReduceProbed(s: Status, o: Observation)
    requires Probed(s)
    ensures Probed(Next(s, o))
  {
  }

  /** After any observations: the recorded changes form a chain up to the current state, every observation was a revision, and waits, tools, authority and readiness agree. */
  lemma {:induction false} AlwaysSound(at: nat, observations: seq<Observation>)
    ensures Sound(Run(Created(at), observations)) && Run(Created(at), observations).log.revision == |observations|
  {
    if observations != [] {
      var init, last := observations[..|observations| - 1], observations[|observations| - 1];
      AlwaysSound(at, init);
      var s := Run(Created(at), init);
      TransitionRecorded(s.log, s.face, Next(s, last).face, last.at, EvidenceOf(last), Completes(s.face, Next(s, last).face, last));
      ReduceAuthorized(s, last);
      ReduceWaited(s, last);
      ReduceProbed(s, last);
    }
  }

  // ---------------------------------------------------------------- turns

  /** How often observations took the status into `working`. */
  function Entries(s: Status, observations: seq<Observation>): nat {
    if observations == [] then 0
    else
      var before := Run(s, observations[..|observations| - 1]);
      Entries(s, observations[..|observations| - 1])
      + if !before.face.state.Working? && Run(s, observations).face.state.Working? then 1 else 0
  }

  function Open(state: State): nat {
    if Active(state) then 1 else 0
  }

  /** Over any stretch of observations from any state, no more turns complete than were begun or already open: no turn completes twice. */
  lemma {:induction false} NoTurnCompletesTwice(s: Status, observations: seq<Observation>)
    ensures Run(s, observations).log.completions + Open(Run(s, observations).face.state) <= s.log.completions + Open(s.face.state) + Entries(s, observations)
  {
    if observations != [] {
      var before := Run(s, observations[..|observations| - 1]);
      NoTurnCompletesTwice(s, observations[..|observations| - 1]);
      OneTurn(before, observations[|observations| - 1]);
    }
  }

  lemma {:induction false} OneTurn(s: Status, o: Observation)
    ensures Reduce(s, o).log.completions + Open(Reduce(s, o).face.state)
            <= s.log.completions + Open(s.face.state) + if !s.face.state.Working? && Reduce(s, o).face.state.Working? then 1 else 0
  {
  }

  // ---------------------------------------------------------------- getting stuck

  predicate Resets(o: Observation) {
    o.fact.Progress? || (o.fact.Reported? && !o.fact.event.Heartbeat?)
  }

  predicate CountsProbe(s: Status, o: Observation) {
    o.fact.LeaseProbed? && Overdue(s, o.at)
  }

  ghost predicate StepHolds(observations: seq<Observation>, trace: seq<Status>, i: nat) {
    i < |observations| && i + 1 < |trace| ==> trace[i + 1] == Reduce(trace[i], observations[i])
  }

  /** The statuses an agent goes through. */
  ghost predicate Trace(at: nat, observations: seq<Observation>, trace: seq<Status>) {
    && |trace| == |observations| + 1 && trace[0] == Created(at)
    && forall i: nat :: StepHolds(observations, trace, i)
  }

  lemma {:induction false} TraceExists(at: nat, observations: seq<Observation>) returns (trace: seq<Status>)
    ensures Trace(at, observations, trace) && trace[|observations|] == Run(Created(at), observations)
  {
    if observations == [] {
      trace := [Created(at)];
    } else {
      var init, last := observations[..|observations| - 1], observations[|observations| - 1];
      var rest := TraceExists(at, init);
      trace := rest + [Reduce(rest[|init|], last)];
      forall i: nat ensures StepHolds(observations, trace, i) { assert StepHolds(init, rest, i); }
    }
  }

  lemma {:induction false} TraceProbed(at: nat, observations: seq<Observation>, trace: seq<Status>, n: nat)
    requires Trace(at, observations, trace) && n < |trace|
    ensures Probed(trace[n])
  {
    if n != 0 {
      TraceProbed(at, observations, trace, n - 1);
      assert StepHolds(observations, trace, n - 1);
      ReduceProbed(trace[n - 1], observations[n - 1]);
    }
  }

  /** A reporter event other than a heartbeat clears the probes; a heartbeat changes nothing while the agent works. */
  lemma {:induction false} ReportedProbes(s: Status, at: nat, event: Event, lease: nat, coverage: Coverage)
    ensures !event.Heartbeat? ==> OnReported(s, at, event, lease, coverage).work.staleProbes == 0
    ensures event.Heartbeat? ==> OnReported(s, at, event, lease, coverage).work == s.work
    ensures event.Heartbeat? && OnReported(s, at, event, lease, coverage).face.state.Working? ==> s.face.state.Working?
    ensures !OnReported(s, at, event, lease, coverage).face.state.SuspectedStuck? || s.face.state.SuspectedStuck?
  {
  }

  lemma {:induction false} CountedProbe(s: Status, o: Observation)
    requires Probed(s) && Next(s, o).face.state.Working? && Next(s, o).work.staleProbes == 1
    ensures CountsProbe(s, o) || (s.face.state.Working? && s.work.staleProbes == 1 && !Resets(o))
  {
    if o.fact.Reported? { ReportedProbes(s, o.at, o.fact.event, o.fact.lease, o.fact.coverage); }
  }

  lemma {:induction false} EnteredStuck(s: Status, o: Observation)
    requires Probed(s) && !s.face.state.SuspectedStuck? && Next(s, o).face.state.SuspectedStuck?
    ensures CountsProbe(s, o) && s.face.state.Working? && s.work.staleProbes == 1
  {
    if o.fact.Reported? { ReportedProbes(s, o.at, o.fact.event, o.fact.lease, o.fact.coverage); }
  }

  lemma {:induction false} ProbeStep(at: nat, observations: seq<Observation>, trace: seq<Status>, n: nat)
    requires Trace(at, observations, trace) && n < |observations|
    ensures trace[n + 1].face.state.Working? && trace[n + 1].work.staleProbes == 1 ==>
              CountsProbe(trace[n], observations[n])
              || (trace[n].face.state.Working? && trace[n].work.staleProbes == 1 && !Resets(observations[n]))
    ensures !trace[n].face.state.SuspectedStuck? && trace[n + 1].face.state.SuspectedStuck? ==>
              CountsProbe(trace[n], observations[n]) && trace[n].face.state.Working? && trace[n].work.staleProbes == 1
  {
    assert StepHolds(observations, trace, n);
    TraceProbed(at, observations, trace, n);
    var next := Next(trace[n], observations[n]);
    if next.face.state.Working? && next.work.staleProbes == 1 { CountedProbe(trace[n], observations[n]); }
    if !trace[n].face.state.SuspectedStuck? && next.face.state.SuspectedStuck? { EnteredStuck(trace[n], observations[n]); }
  }

  /** From `k` to `n` the status is working, with no activity and no counted probe but the one at `k`. */
  ghost predicate QuietSince(observations: seq<Observation>, trace: seq<Status>, k: nat, n: nat)
    requires |trace| == |observations| + 1 && n < |trace|
  {
    && (forall i :: k < i <= n ==> trace[i].face.state.Working?)
    && (forall i :: k < i < n ==> !Resets(observations[i]) && !CountsProbe(trace[i], observations[i]))
  }

  /** A working status with one counted probe has been quiet since that probe. */
  lemma {:induction false} OneProbeSince(at: nat, observations: seq<Observation>, trace: seq<Status>, n: nat) returns (k: nat)
    requires Trace(at, observations, trace) && n < |trace|
    requires trace[n].face.state.Working? && trace[n].work.staleProbes == 1
    ensures k < n && CountsProbe(trace[k], observations[k]) && QuietSince(observations, trace, k, n)
  {
    if n == 0 {
      assert false;
    } else {
      ProbeStep(at, observations, trace, n - 1);
      if CountsProbe(trace[n - 1], observations[n - 1]) {
        k := n - 1;
      } else {
        k := OneProbeSince(at, observations, trace, n - 1);
      }
    }
  }

  /** `suspected_stuck` is entered only at the second of two counted probes, with the status working throughout and no activity between them. */
  lemma {:induction false} StuckOnlyAfterTwoProbes(at: nat, observations: seq<Observation>, trace: seq<Status>, n: nat) returns (k: nat)
    requires Trace(at, observations, trace) && n < |observations|
    requires !trace[n].face.state.SuspectedStuck? && trace[n + 1].face.state.SuspectedStuck?
    ensures k < n && CountsProbe(trace[k], observations[k]) && CountsProbe(trace[n], observations[n])
    ensures QuietSince(observations, trace, k, n)
  {
    ProbeStep(at, observations, trace, n);
    k := OneProbeSince(at, observations, trace, n);
  }
}
