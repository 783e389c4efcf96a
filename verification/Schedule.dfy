/**
 The coordinator's loop-owned state as one value, and every loop step as a
 function on it. The class in Coordinator.dfy is proved to compute these
 functions; ScheduleInvariant, ScheduleSteps, ScheduleRuns, SchedulePause and
 ScheduleOrder prove what they keep.
 Models core/internal/application/schedule.go and coordinator.go.
 */
module Schedule {
  import opened Wrappers
  import opened Actions
  import opened Ambient

  /** Options after defaulting. `digest` is SHA-256. */
  datatype Limits = Limits(
    parallel: nat,
    queueLimit: nat,
    history: nat,
    queueWait: int,
    actionBudget: int,
    digest: string -> Digest)

  predicate ValidLimits(lim: Limits) {
    lim.parallel > 0 && lim.queueLimit > 0 && lim.history > 0 && lim.queueWait > 0 && lim.actionBudget > 0
  }

  /** The coordinator's handle on one worker. */
  datatype Run = Run(line: string, overdue: bool, cancelled: bool)

  /** Serving; the context is done but the loop has not seen it; shutdown has begun. */
  datatype Stop = Serving | StopRequested | Stopping

  datatype Loop = Loop(
    queue: seq<ID>,
    index: map<ID, Action>,
    byKey: map<string, ID>,
    running: map<ID, Run>,
    busyLines: map<string, ID>,
    terminals: seq<ID>,
    nextID: nat,
    nextSeq: nat,
    stop: Stop,
    daemon: Daemon)

  function Initial(d: Daemon): Loop {
    Loop([], map[], map[], map[], map[], [], 0, 0, Serving, d)
  }

  // ---------------------------------------------------------------------
  // Filing a finished action
  // ---------------------------------------------------------------------

  function Remove(ids: seq<ID>, id: ID): seq<ID> {
    if ids == [] then [] else if ids[0] == id then ids[1..] else [ids[0]] + Remove(ids[1..], id)
  }

  /** The body of retire's eviction loop. */
  function DropOldest(s: Loop): Loop
    requires s.terminals != []
  {
    var oldest := s.terminals[0];
    var rest := s.(terminals := s.terminals[1..]);
    if oldest !in s.index then rest
    else
      var key := s.index[oldest].request.key;
      rest.(index := s.index - {oldest},
            byKey := if key in s.byKey && s.byKey[key] == oldest then s.byKey - {key} else s.byKey)
  }

  function Evict(s: Loop, history: nat): Loop
    decreases |s.terminals|
  {
    if |s.terminals| <= history then s else Evict(DropOldest(s), history)
  }

  function Filed(s: Loop, id: ID): Loop
    requires id in s.index
  {
    var a := s.index[id];
    s.(index := s.index[id := a.(retired := true, request := Redacted(a.request))],
       terminals := s.terminals + [id])
  }

  function Retire(s: Loop, lim: Limits, id: ID): Loop {
    if id !in s.index || s.index[id].retired || !s.index[id].state.Terminal() then s
    else Evict(Filed(s, id), lim.history)
  }

  // ---------------------------------------------------------------------
  // Ending queued work
  // ---------------------------------------------------------------------

  /** A queued action leaves the queue straight into a terminal state. */
  function Unqueue(s: Loop, id: ID, state: State, code: Code): Loop
    requires id in s.index
  {
    s.(queue := Remove(s.queue, id),
       index := s.index[id := s.index[id].Transition(state, 0).(code := code)])
  }

  function Drop(s: Loop, lim: Limits, id: ID, state: State, code: Code): Loop {
    if id !in s.index then s else Retire(Unqueue(s, id, state, code), lim, id)
  }

  function DropAll(s: Loop, lim: Limits, ids: seq<ID>, state: State, code: Code): Loop {
    if ids == [] then s
    else Drop(DropAll(s, lim, ids[..|ids| - 1], state, code), lim, ids[|ids| - 1], state, code)
  }

  // ---------------------------------------------------------------------
  // Cancel
  // ---------------------------------------------------------------------

  function CancelRunning(s: Loop, id: ID): Loop
    requires id in s.index && id in s.running
  {
    s.(index := s.index[id := s.index[id].Transition(Cancelled, 0).(code := CodeCancelled)],
       running := s.running[id := s.running[id].(cancelled := true)])
  }

  /** onCancel: a running worker keeps its slot and its line until it really stops. */
  function Cancel(s: Loop, lim: Limits, id: ID): Loop {
    if id !in s.index || s.index[id].state.Terminal() then s
    else if id in s.running then CancelRunning(s, id)
    else Drop(s, lim, id, Cancelled, CodeCancelled)
  }

  function CancelAll(s: Loop, lim: Limits, ids: seq<ID>): Loop {
    if ids == [] then s else Cancel(CancelAll(s, lim, ids[..|ids| - 1]), lim, ids[|ids| - 1])
  }

  // ---------------------------------------------------------------------
  // Submit
  // ---------------------------------------------------------------------

  datatype Reply = Accepted(id: ID, state: State, duplicate: bool) | Refused(code: Code)

  /**
   What the world answers while one submission is handled. `order` is the order
   in which the index map happens to be iterated.
   */
  datatype SubmitEnv = SubmitEnv(guard: Verdict, wizard: Verdict, clears: bool, writes: bool, now: Time, order: seq<ID>)

  predicate Supersedes(r: Request, previous: Action) {
    var quiet := (previous.request.kind.QuietHotspot? || previous.request.kind.QuietCampus?)
                 && (!r.kind.Logout? || previous.request.accountID == r.accountID);
    var maintenance := r.kind.Logout? && previous.request.accountID == r.accountID && !previous.request.kind.Manual();
    !previous.state.Terminal() && (quiet || maintenance)
  }

  predicate ClearsSchedule(k: Kind) {
    k.SwitchCampus? || k.SwitchHotspot? || k.Logout?
  }

  function Superseded(s: Loop, r: Request, order: seq<ID>): seq<ID> {
    if order == [] then []
    else
      var rest := Superseded(s, r, order[..|order| - 1]);
      var id := order[|order| - 1];
      if id in s.index && Supersedes(r, s.index[id]) then rest + [id] else rest
  }

  function NewAction(s: Loop, r: Request, now: Time): Action {
    Action(s.nextID + 1, r, LineOf(s.daemon.config, r), Queued, NoPhase, NoCode, "", false, now, 0, 0, false)
  }

  function Enqueue(s: Loop, r: Request, now: Time): Loop {
    var a := NewAction(s, r, now);
    s.(nextID := a.id, index := s.index[a.id := a], byKey := s.byKey[r.key := a.id], queue := s.queue + [a.id])
  }

  function Cleared(s: Loop, lim: Limits, r: Request, order: seq<ID>): Loop {
    if ClearsSchedule(r.kind) then CancelAll(s, lim, Superseded(s, r, order)) else s
  }

  function SubmitFresh(s: Loop, lim: Limits, r: Request, env: SubmitEnv): (Loop, Reply) {
    var verdict := Check(s.daemon, env.guard, env.wizard, r);
    if verdict.Refuse? then (s, Refused(verdict.code))
    else if |s.queue| >= lim.queueLimit then (s, Refused(CodeBusy))
    else
      var (d, admitted) := Admit(s.daemon, r, env.clears, env.writes);
      if admitted.Refuse? then (s, Refused(admitted.code))
      else
        var s1 := Cleared(s.(daemon := d), lim, r, env.order);
        (Enqueue(s1, r, env.now), Accepted(s1.nextID + 1, Queued, false))
  }

  function Sealed(lim: Limits, r: Request): Request {
    r.(privateDigest := lim.digest(r.privateJSON))
  }

  function Submit(s: Loop, lim: Limits, request: Request, env: SubmitEnv): (Loop, Reply) {
    var r := Sealed(lim, request);
    if r.key in s.byKey then
      var existing := s.byKey[r.key];
      if existing in s.index then
        if Fingerprint(s.index[existing].request) != Fingerprint(r) then (s, Refused(CodeConflict))
        else (s, Accepted(existing, s.index[existing].state, true))
      else SubmitFresh(s.(byKey := s.byKey - {r.key}), lim, r, env)
    else SubmitFresh(s, lim, r, env)
  }

  // ---------------------------------------------------------------------
  // Dispatch
  // ---------------------------------------------------------------------

  /** The queue order: priority, then arrival, then submission. */
  predicate RunsFirst(a: Action, b: Action) {
    if a.request.kind.Priority() != b.request.kind.Priority() then a.request.kind.Priority() > b.request.kind.Priority()
    else if a.queuedAt != b.queuedAt then a.queuedAt < b.queuedAt
    else a.id < b.id
  }

  /** Every id the loop dereferences is in the index. */
  ghost predicate Known(s: Loop) {
    && (forall id | id in s.queue :: id in s.index)
    && (forall id | id in s.running :: id in s.index)
  }

  ghost predicate SwitchRunning(s: Loop)
    requires Known(s)
  {
    exists id | id in s.running :: s.index[id].request.kind.Switches()
  }

  ghost predicate RefreshRunning(s: Loop)
    requires Known(s)
  {
    exists id | id in s.running :: s.index[id].request.kind.PresetsRefresh?
  }

  ghost predicate Eligible(s: Loop, id: ID)
    requires Known(s) && id in s.index
  {
    var a := s.index[id];
    && !(a.request.kind.PresetsRefresh? && RefreshRunning(s))
    && (a.line == "" || a.request.kind.Switches() || a.line !in s.busyLines)
  }

  /** The eligible action of the first n queued ones that runs before all others. */
  ghost function Best(s: Loop, n: nat): Option<ID>
    requires Known(s) && n <= |s.queue|
  {
    if n == 0 then None
    else
      var best := Best(s, n - 1);
      var id := s.queue[n - 1];
      if Eligible(s, id) && (best.None? || best.value !in s.index || RunsFirst(s.index[id], s.index[best.value])) then Some(id)
      else best
  }

  ghost function TakeRunnable(s: Loop): Option<ID>
    requires Known(s)
  {
    if SwitchRunning(s) then None
    else
      var best := Best(s, |s.queue|);
      if best.Some? && best.value in s.index && s.index[best.value].request.kind.Switches() && s.running != map[] then None
      else best
  }

  datatype DispatchEnv = DispatchEnv(guard: Verdict, wizard: Verdict, now: Time)

  /** startAction on an action just taken from the queue. */
  function Start(s: Loop, id: ID, now: Time): Loop
    requires id in s.index
  {
    var a := s.index[id].Transition(Running, now).(sequence := s.nextSeq + 1, phase := WaitingLink);
    s.(queue := Remove(s.queue, id),
       nextSeq := s.nextSeq + 1,
       index := s.index[id := a],
       running := s.running[id := Run(a.line, false, false)],
       busyLines := if a.line != "" then s.busyLines[a.line := id] else s.busyLines)
  }

  /** One iteration of the dispatch loop; the identity when it would return. */
  ghost function DispatchOne(s: Loop, lim: Limits, env: DispatchEnv): Loop
    requires Known(s)
  {
    if |s.running| >= lim.parallel || TakeRunnable(s).None? || TakeRunnable(s).value !in s.index then s
    else
      var id := TakeRunnable(s).value;
      var verdict := Check(s.daemon, env.guard, env.wizard, s.index[id].request);
      if verdict.Refuse? then Drop(s, lim, id, Failed, verdict.code) else Start(s, id, env.now)
  }

  // ---------------------------------------------------------------------
  // Completion, progress, deadlines
  // ---------------------------------------------------------------------

  function Release(s: Loop, id: ID): Loop
    requires id in s.running
  {
    var line := s.running[id].line;
    s.(running := s.running - {id},
       busyLines := if line != "" && line in s.busyLines && s.busyLines[line] == id then s.busyLines - {line} else s.busyLines)
  }

  const RESULT_LIMIT: nat := 32768

  function Judged(out: Outcome): Outcome {
    if out.state.Succeeded? || out.state.Failed? then out else Outcome(Failed, CodeInternal, "", false)
  }

  function Bounded(out: Outcome): Outcome {
    if |out.result| > RESULT_LIMIT then Outcome(Failed, CodeInternal, "", false) else out
  }

  /** How a worker's verdict settles the action, and what finalizing it did to the daemon. */
  function Settle(d: Daemon, a: Action, overdue: bool, out: Outcome, io: FinalizeAnswers): (Daemon, Action) {
    if a.state.Terminal() then (d, a)
    else if overdue then (d, a.Transition(Failed, 0).(code := CodeDeadlineExceeded))
    else
      var judged := Judged(out);
      var (d1, final) := if judged.state.Succeeded? then Finalize(d, a.request, judged, io) else (d, judged);
      var last := Bounded(final);
      (d1, a.Transition(last.state, 0).(code := last.code, deferred := last.deferred,
                                        result := if last.state.Succeeded? then last.result else a.result))
  }

  function Finish(s: Loop, lim: Limits, id: ID, out: Outcome, io: FinalizeAnswers): Loop {
    if id !in s.index || id !in s.running then s
    else
      var (d, a) := Settle(s.daemon, s.index[id], s.running[id].overdue, out, io);
      var s1 := Release(s, id);
      Retire(s1.(daemon := d, index := s1.index[id := a]), lim, id)
  }

  function Progress(s: Loop, id: ID, phase: Phase): Loop {
    if phase.NoPhase? || id !in s.index || s.index[id].state.Terminal() || id !in s.running then s
    else s.(index := s.index[id := s.index[id].(phase := phase)])
  }

  predicate WaitedTooLong(s: Loop, lim: Limits, id: ID, now: Time) {
    id in s.index && now - s.index[id].queuedAt >= lim.queueWait
  }

  predicate RanTooLong(s: Loop, lim: Limits, id: ID, now: Time) {
    id in s.running && !s.running[id].overdue && id in s.index && now - s.index[id].startedAt >= lim.actionBudget
  }

  /** The first n queued actions that have waited too long, in queue order. */
  function Stale(s: Loop, lim: Limits, now: Time, n: nat): seq<ID>
    requires n <= |s.queue|
  {
    if n == 0 then []
    else if WaitedTooLong(s, lim, s.queue[n - 1], now) then Stale(s, lim, now, n - 1) + [s.queue[n - 1]]
    else Stale(s, lim, now, n - 1)
  }

  function MarkOverdue(s: Loop, lim: Limits, now: Time): Loop {
    s.(running := map id | id in s.running ::
         if RanTooLong(s, lim, id, now) then s.running[id].(overdue := true, cancelled := true) else s.running[id])
  }

  function Expire(s: Loop, lim: Limits, now: Time): Loop {
    MarkOverdue(DropAll(s, lim, Stale(s, lim, now, |s.queue|), Failed, CodeDeadlineExceeded), lim, now)
  }

  // ---------------------------------------------------------------------
  // Configuration and shutdown
  // ---------------------------------------------------------------------

  /**
   ChangeConfiguration: `next` is what the callback's repository transaction made
   visible. A transaction either changes nothing or raises the revision by one.
   */
  function ChangeConfiguration(s: Loop, next: Config): (Loop, Verdict) {
    if s.queue != [] || s.running != map[] then (s, Refuse(CodeBusy))
    else if next.revision != s.daemon.config.revision + 1 then (s, Pass)
    else (s.(daemon := s.daemon.(config := next)), Pass)
  }

  function InterruptRunning(s: Loop): Loop {
    s.(running := map id | id in s.running :: s.running[id].(cancelled := true),
       index := map id | id in s.index :: if id in s.running then s.index[id].Transition(Interrupted, 0) else s.index[id],
       stop := Stopping)
  }

  function BeginShutdown(s: Loop, lim: Limits): Loop {
    InterruptRunning(DropAll(s, lim, s.queue, Interrupted, NoCode))
  }

  // ---------------------------------------------------------------------
  // Events
  // ---------------------------------------------------------------------

  datatype Event =
    | SubmitEvent(request: Request, env: SubmitEnv)
    | CancelEvent(id: ID)
    | DispatchEvent(denv: DispatchEnv)
    | FinishEvent(id: ID, out: Outcome, io: FinalizeAnswers)
    | ProgressEvent(id: ID, phase: Phase)
    | ExpireEvent(now: Time)
    | ConfigEvent(next: Config)
    | StopEvent
    | ShutdownEvent

  /** A map is iterated by visiting every key once. */
  ghost predicate Iterates(order: seq<ID>, index: map<ID, Action>) {
    && (forall i, j | 0 <= i < j < |order| :: order[i] != order[j])
    && (forall id :: id in order <==> id in index)
  }

  ghost predicate Enabled(s: Loop, e: Event) {
    match e
    case SubmitEvent(r, env) => Validates(r) && Iterates(env.order, s.index)
    case _ => true
  }

  /**
   One atomic step of the loop. Once shutdown has begun only completions are
   served; a completion taken after the stop was requested begins the shutdown.
   */
  ghost function Step(s: Loop, lim: Limits, e: Event): Loop
    requires Known(s)
  {
    if s.stop.Stopping? then
      match e
      case FinishEvent(id, out, io) => Finish(s, lim, id, out, io)
      case _ => s
    else
      match e
      case SubmitEvent(r, env) => Submit(s, lim, r, env).0
      case CancelEvent(id) => Cancel(s, lim, id)
      case DispatchEvent(env) => DispatchOne(s, lim, env)
      case FinishEvent(id, out, io) =>
        if s.stop.StopRequested? then Finish(BeginShutdown(s, lim), lim, id, out, io) else Finish(s, lim, id, out, io)
      case ProgressEvent(id, phase) => Progress(s, id, phase)
      case ExpireEvent(now) => Expire(s, lim, now)
      case ConfigEvent(next) => ChangeConfiguration(s, next).0
      case StopEvent => s.(stop := StopRequested)
      case ShutdownEvent => if s.stop.StopRequested? then BeginShutdown(s, lim) else s
  }
}
