/**
 The Wi-Fi setup wizard as an interleaved state machine. One step is one critical
 section of the status mutex, or one operation on the wireless transaction made
 while the device mutex is held; handlers, the coordinator loop, its exclusive
 worker, the expiry loop, shutdown and a process restart interleave freely.
 Models core/internal/daemon/wizard.go, wizard_handlers.go and the record kept by
 core/internal/wireless/group.go.
 */
module Wizard {
  import opened Wrappers

  type Job = string
  type Owner = string
  type EntryID = nat
  type GroupID = nat

  /** A visible configuration file: its revision and its whole document. */
  datatype Config = Config(revision: nat, body: string)

  datatype GroupPhase =
    | Planned | BackedUp | Applied | AwaitingConfirm
    | RollingBack | RolledBack | Committed | RecoveryRequired

  /** group.json: the transaction, the revision it began at and the document PrepareSave announced. */
  datatype Record = Record(group: GroupID, phase: GroupPhase, revision: nat, prepared: Option<Config>)

  datatype Mark = Starting | Connecting | Ready | Connected | Cancelling | Saving | Done | Failed | Cancelled

  /** What a finished save left with its job: the request it answered and the document that holds the account. */
  datatype SavedAccount = SavedAccount(digest: nat, document: Config)

  datatype Entry = Entry(
    job: Job,
    owner: Owner,
    digest: nat,
    revision: nat,
    mark: Mark,
    cancelRequested: bool,
    group: Option<GroupID>,
    expires: int,
    saved: Option<SavedAccount>)

  /** Who holds the device mutex through `publish`. */
  datatype Holder = Worker | Main | Loop

  /** Where the holder of the device mutex stands. */
  datatype Device =
    | Free
    | Refusing(job: Job)
    | Planning(e: EntryID, job: Job)
    | Settling(e: EntryID, job: Job, group: Option<GroupID>)
    | Failing(e: EntryID, job: Job, group: Option<GroupID>)
    | Undoing(e: EntryID, job: Job, group: Option<GroupID>, holder: Holder)
    | Checked(e: EntryID, job: Job, group: Option<GroupID>, digest: nat, agreed: bool, revision: nat)
    | Prepared(e: EntryID, job: Job, group: Option<GroupID>, digest: nat, document: Config)
    | Written(e: EntryID, job: Job, group: Option<GroupID>, digest: nat, document: Config)
    | Recording(e: EntryID, job: Job, group: Option<GroupID>, digest: nat, document: Config)
    | Blocking(e: EntryID, job: Job, group: Option<GroupID>, mark: Mark, holder: Holder)
    | Publishing(e: EntryID, job: Job, group: Option<GroupID>, mark: Mark, holder: Holder)

  /** The coordinator's one exclusive worker. `Exited` waits for its completion to be seen. */
  datatype Exclusive = Starter(job: Job) | Undoer(job: Job) | Switcher | Exited

  /** Continuations of handlers that are outside the status mutex. Each may still happen, at any time. */
  datatype Handler =
    | Submitting(e: EntryID, job: Job)
    | Withdrawing(e: EntryID, was: Mark)
    | Restoring(e: EntryID, was: Mark)
    | Asking(job: Job, owner: Owner, expected: nat, digest: nat)

  datatype State = State(
    entries: map<EntryID, Entry>,
    jobs: map<Job, EntryID>,
    order: seq<Job>,
    active: Option<Job>,
    blocked: bool,
    device: Device,
    worker: Option<Exclusive>,
    pending: set<Handler>,
    copies: map<GroupID, Record>,
    disk: Option<Record>,
    history: seq<Config>,
    nextEntry: nat,
    nextGroup: nat,
    saved: map<GroupID, Config>,
    committed: set<GroupID>,
    undone: set<GroupID>,
    ends: seq<End>)

  /** How a job ended: its transaction, the mark published, and how things stood then. */
  datatype End = End(job: Job, group: Option<GroupID>, mark: Mark, blocked: bool, onFile: bool)

  predicate OnFile(s: State, group: Option<GroupID>) {
    s.disk.Some? && group == Some(s.disk.value.group)
  }

  function Ended(s: State, end: End): State { s.(ends := s.ends + [end]) }

  const JOB_HISTORY := 64

  function Initial(c: Config): State {
    State(map[], map[], [], None, false, Free, None, {}, map[], None, [c], 0, 0, map[], {}, {}, [])
  }

  predicate HasConfig(s: State) { s.history != [] }

  function Current(s: State): Config
    requires HasConfig(s)
  {
    s.history[|s.history| - 1]
  }

  /** A configuration write that became visible. */
  function Commit(s: State, body: string): State
    requires HasConfig(s)
  {
    s.(history := s.history + [Config(Current(s).revision + 1, body)])
  }

  // ---------------------------------------------------------------------
  // Status changes under the short mutex
  // ---------------------------------------------------------------------

  predicate Present(s: State, job: Job) {
    job in s.jobs && s.jobs[job] in s.entries
  }

  function EntryOf(s: State, job: Job): Entry
    requires Present(s, job)
  {
    s.entries[s.jobs[job]]
  }

  function WithEntry(s: State, e: EntryID, entry: Entry): State {
    s.(entries := s.entries[e := entry])
  }

  /** publish with release: the job's mark, no group, and the lease back if this job has it. */
  function Publish(s: State, job: Job, mark: Mark): State
    requires Present(s, job)
  {
    var entry := EntryOf(s, job);
    WithEntry(s, s.jobs[job], entry.(mark := mark, group := None))
    .(active := if s.active == Some(job) then None else s.active)
  }

  /** The start handler's eviction loop: the oldest jobs go until fewer than 64 remain. */
  function EvictJobs(s: State): State
    decreases |s.order|
  {
    if |s.order| < JOB_HISTORY then s
    else EvictJobs(s.(jobs := s.jobs - {s.order[0]}, order := s.order[1..]))
  }

  function BeginJob(s: State, job: Job, owner: Owner, digest: nat): State
    requires HasConfig(s)
  {
    if job in s.jobs || s.blocked || s.active.Some? then s
    else
      var t := EvictJobs(s);
      var entry := Entry(job, owner, digest, Current(s).revision, Starting, false, None, 0, None);
      t.(entries := t.entries[t.nextEntry := entry],
      jobs := t.jobs[job := t.nextEntry],
      order := t.order + [job],
      active := Some(job),
      pending := t.pending + {Submitting(t.nextEntry, job)},
      nextEntry := t.nextEntry + 1)
  }

  function RequestCancel(s: State, job: Job, owner: Owner): State {
    if !Present(s, job) || EntryOf(s, job).owner != owner then s
    else
      var e, entry := s.jobs[job], EntryOf(s, job);
      if s.active != Some(job) || entry.mark == Cancelling || entry.mark == Saving then s
      else if entry.mark == Ready || entry.mark == Connected then
        WithEntry(s, e, entry.(cancelRequested := true, mark := Cancelling))
        .(pending := s.pending + {Withdrawing(e, entry.mark)})
      else if entry.mark == Starting || entry.mark == Connecting then
        WithEntry(s, e, entry.(cancelRequested := true))
      else
        WithEntry(s, e, entry.(cancelRequested := true))
        .(pending := s.pending + {Withdrawing(e, entry.mark)})
  }

  /** The cancel action could not be submitted: the handler puts the mark back. */
  function WithdrawCancel(s: State, e: EntryID, was: Mark): State {
    if e !in s.entries then s
    else WithEntry(s, e, s.entries[e].(mark := was, cancelRequested := false))
  }

  function PrepareAccount(s: State, job: Job, owner: Owner, expected: nat, digest: nat, now: int): State {
    if !Present(s, job) || EntryOf(s, job).owner != owner then s
    else
      var e, entry := s.jobs[job], EntryOf(s, job);
      var asked := s.pending + {Asking(job, owner, expected, digest)};
      if entry.mark == Done then s.(pending := asked)
      else if s.blocked || s.active != Some(job) || entry.cancelRequested
              || (entry.mark != Ready && entry.mark != Connected) || now >= entry.expires then s
      else
        WithEntry(s, e, entry.(mark := Saving)).(pending := asked + {Restoring(e, entry.mark)})
  }

  function RestoreMark(s: State, e: EntryID, was: Mark): State {
    if e !in s.entries || s.entries[e].mark != Saving then s
    else WithEntry(s, e, s.entries[e].(mark := was))
  }

  /** The coordinator published a terminal start action. */
  function ObserveStart(s: State, job: Job, stopped: bool): State {
    if !Present(s, job) || EntryOf(s, job).mark != Starting then s
    else
      WithEntry(s, s.jobs[job], EntryOf(s, job).(mark := if stopped then Cancelled else Failed))
      .(active := if s.active == Some(job) then None else s.active)
  }

  /** wifiWizard.check, for the three kinds of exclusive worker. */
  predicate Permits(s: State, w: Exclusive, owner: Owner) {
    && !s.blocked
    && (s.active.Some? ==>
          && (w.Starter? || w.Undoer?)
          && w.job == s.active.value
          && Present(s, w.job) && EntryOf(s, w.job).owner == owner)
  }

  // ---------------------------------------------------------------------
  // The transaction group: memory copy, file, and what each call may leave
  // ---------------------------------------------------------------------

  /** What one Rollback call did. */
  datatype Undo =
    | Unread                                  // refused, or a child record could not be read
    | Missing(visible: bool)                  // a child record is gone: a person has to look
    | Unrecorded                              // the rolling-back phase never reached the file
    | Stuck(phase: GroupPhase)                // packages restored in part, or the closing write failed
    | Cleared(clean: bool)                    // the file is gone

  predicate UndoSucceeded(out: Undo) { out == Cleared(true) }

  predicate UndoMay(r: Record, out: Undo) {
    if r.phase == Committed || r.phase == RecoveryRequired then out == Unread
    else
      match out
      case Missing(_) => r.phase == Applied || r.phase == AwaitingConfirm
      case Stuck(phase) => phase == RollingBack || phase == RolledBack || phase == RecoveryRequired
      case _ => true
  }

  function Rollback(s: State, r: Record, out: Undo): State {
    match out
    case Unread => s
    case Missing(visible) => if visible then s.(disk := Some(r.(phase := RecoveryRequired))) else s
    case Unrecorded => s
    case Stuck(phase) => s.(disk := Some(r.(phase := phase)), undone := s.undone + {r.group})
    case Cleared(_) => s.(disk := None, undone := s.undone + {r.group})
  }

  /** The in-memory object follows its own calls, whatever reached the file. */
  function Aged(r: Record, out: Undo): Record {
    match out
    case Unread => r
    case Missing(_) => r.(phase := RecoveryRequired)
    case Unrecorded => r.(phase := RollingBack)
    case Stuck(phase) => r.(phase := phase)
    case Cleared(_) => r.(phase := RolledBack)
  }

  function RollbackHeld(s: State, g: GroupID, out: Undo): State
    requires g in s.copies
  {
    Rollback(s, s.copies[g], out).(copies := s.copies[g := Aged(s.copies[g], out)])
  }

  datatype Keep =
    | NotKept                                 // refused, or the decision never reached the file
    | Decided                                 // committed on file, some backup still there
    | Forgotten(clean: bool)                  // committed and the file removed

  predicate Confirmable(r: Record) { r.phase == AwaitingConfirm || r.phase == Committed }

  function Confirm(s: State, r: Record, out: Keep): State {
    if !Confirmable(r) then s
    else
      match out
      case NotKept => s
      case Decided => s.(disk := Some(r.(phase := Committed)), committed := s.committed + {r.group})
      case Forgotten(_) => s.(disk := None, committed := s.committed + {r.group})
  }

  predicate KeepSucceeded(r: Record, out: Keep) { Confirmable(r) && out == Forgotten(true) }

  /** What BeginGroup and Apply left behind. */
  datatype Begun =
    | Declined                                // refused, unreadable, or nothing written
    | Abandoned(phase: GroupPhase)            // BeginGroup failed and its file is still there
    | Vanished                                // BeginGroup failed and rolled itself back
    | Halfway(phase: GroupPhase)              // Apply failed
    | Live                                    // applied and awaiting confirmation

  predicate BeginMay(s: State, out: Begun) {
    match out
    case Declined => true
    case Abandoned(phase) => s.disk.None? && phase in {Planned, BackedUp, RollingBack, RolledBack, RecoveryRequired}
    case Vanished => s.disk.None?
    case Halfway(phase) => s.disk.None? && phase in {BackedUp, Applied, AwaitingConfirm}
    case Live => s.disk.None?
  }

  function Begin(s: State, e: EntryID, job: Job, out: Begun): State
    requires e in s.entries
  {
    var g := s.nextGroup;
    var r := Record(g, AwaitingConfirm, s.entries[e].revision, None);
    match out
    case Declined => s.(device := Failing(e, job, None))
    case Abandoned(phase) =>
      s.(disk := Some(r.(phase := phase)), nextGroup := g + 1, device := Failing(e, job, None),
      undone := if phase == Planned || phase == BackedUp then s.undone else s.undone + {g})
    case Vanished => s.(nextGroup := g + 1, undone := s.undone + {g}, device := Failing(e, job, None))
    case Halfway(phase) =>
      var half := r.(phase := phase);
      s.(disk := Some(half), copies := s.copies[g := half], nextGroup := g + 1, device := Failing(e, job, Some(g)))
    case Live =>
      s.(disk := Some(r), copies := s.copies[g := r], nextGroup := g + 1, device := Settling(e, job, Some(g)))
  }

  // ---------------------------------------------------------------------
  // Holding the device
  // ---------------------------------------------------------------------

  predicate LoopBusy(d: Device) {
    d.Checked? || d.Prepared? || d.Written? || d.Recording?
    || ((d.Blocking? || d.Publishing?) && d.holder == Loop)
  }

  /** The device mutex is released; a worker that held it has nothing left to do. */
  function LetGo(s: State, holder: Holder): State {
    s.(device := Free, worker := if holder == Worker then Some(Exited) else s.worker)
  }

  function StartLocks(s: State, job: Job): State {
    if !Present(s, job) then LetGo(s, Worker)
    else
      var entry := EntryOf(s, job);
      if s.active != Some(job) || entry.cancelRequested then s.(device := Refusing(job))
      else WithEntry(s, s.jobs[job], entry.(mark := Connecting)).(device := Planning(s.jobs[job], job))
  }

  /** start's last critical section, then its own undo when a cancel arrived meanwhile. */
  function StartReady(s: State, e: EntryID, job: Job, group: Option<GroupID>, reused: bool, expires: int): State
    requires e in s.entries
  {
    var entry := s.entries[e];
    var t := WithEntry(s, e, entry.(group := group, expires := expires, mark := if reused then Connected else Ready));
    if entry.cancelRequested then UndoLocks(t, job, Worker) else LetGo(t, Worker)
  }

  /** The first critical section of undoLocked. */
  function UndoLocks(s: State, job: Job, holder: Holder): State {
    if !Present(s, job) || s.active != Some(job) then LetGo(s, holder)
    else s.(device := Undoing(s.jobs[job], job, EntryOf(s, job).group, holder))
  }

  function AfterUndo(s: State, e: EntryID, job: Job, group: Option<GroupID>, holder: Holder, ok: bool, mark: Mark): State {
    if ok then s.(device := Publishing(e, job, group, mark, holder)) else s.(device := Blocking(e, job, group, Failed, holder))
  }

  /** start's error path: its own group, or whatever LoadGroup still finds, is rolled back before the end is published. */
  function StartRolled(s: State, undo: Undo, readable: bool, mark: Mark): State
    requires s.device.Failing? && (s.device.group.Some? ==> s.device.group.value in s.copies)
  {
    var d := s.device;
    if d.group.Some? then
      AfterUndo(RollbackHeld(s, d.group.value, undo), d.e, d.job, d.group, Worker, UndoSucceeded(undo), mark)
    else if s.disk.None? || !readable then AfterUndo(s, d.e, d.job, None, Worker, true, mark)
    else AfterUndo(Rollback(s, s.disk.value, undo), d.e, d.job, None, Worker, UndoSucceeded(undo), mark)
  }

  /** The rest of undoLocked. */
  function UndoRolled(s: State, undo: Undo): State
    requires s.device.Undoing? && (s.device.group.Some? ==> s.device.group.value in s.copies)
  {
    var d := s.device;
    if d.group.None? then AfterUndo(s, d.e, d.job, None, d.holder, true, Cancelled)
    else AfterUndo(RollbackHeld(s, d.group.value, undo), d.e, d.job, d.group, d.holder, UndoSucceeded(undo), Cancelled)
  }

  /** The save callback's first critical section; a refusal changes nothing. */
  function SaveLocks(s: State, job: Job, owner: Owner, expected: nat, digest: nat, now: int): State {
    if !Present(s, job) || EntryOf(s, job).owner != owner then s
    else
      var entry := EntryOf(s, job);
      if entry.mark == Done && entry.saved.Some? then s
      else if s.blocked || s.active != Some(job) || entry.cancelRequested || entry.mark != Saving || now >= entry.expires
      then s
      else s.(device := Checked(s.jobs[job], job, entry.group, digest, expected == entry.revision, entry.revision))
  }

  /** PrepareSave: the announced document reaches memory always, the file when `visible`. */
  function Announce(s: State, g: GroupID, document: Config, visible: bool): State
    requires g in s.copies
  {
    var r := s.copies[g].(prepared := Some(document));
    s.(copies := s.copies[g := r], disk := if visible then Some(r) else s.disk)
  }

  predicate AnnounceMay(s: State, g: GroupID, document: Config) {
    g in s.copies && s.copies[g].phase == AwaitingConfirm && document.revision == s.copies[g].revision + 1
  }

  /** Confirm after the account is durably written. */
  function Decide(s: State, g: GroupID, keep: Keep, e: EntryID, job: Job, digest: nat, document: Config): State
    requires g in s.copies
  {
    Confirm(s, s.copies[g], keep)
    .(device := if KeepSucceeded(s.copies[g], keep) then Recording(e, job, Some(g), digest, document)
      else Blocking(e, job, Some(g), Failed, Loop))
  }

  // ---------------------------------------------------------------------
  // A process restart: memory is gone, files stay, recover runs first
  // ---------------------------------------------------------------------

  datatype Recovery = Recovery(readable: bool, undo: Undo, keep: Keep, visible: bool, clean: bool)

  function Forget(s: State): State {
    s.(entries := map[], jobs := map[], order := [], active := None, blocked := false, device := Free,
    worker := None, pending := {}, copies := map[])
  }

  /** Group.Recover, and the `blocked` flag recover sets from its answer. */
  function Recover(s: State, out: Recovery): State
    requires HasConfig(s)
  {
    if s.disk.None? then s.(blocked := false)
    else if !out.readable then s.(blocked := true)
    else
      var r := s.disk.value;
      if r.phase == Committed then Confirm(s, r, out.keep).(blocked := !KeepSucceeded(r, out.keep))
      else if r.phase == RolledBack then
        s.(disk := if out.visible then None else s.disk, blocked := !(out.visible && out.clean))
      else if r.phase == RecoveryRequired then s.(blocked := true)
      else if r.prepared == Some(Current(s)) then
        Confirm(s, r, out.keep).(blocked := !KeepSucceeded(r, out.keep),
        saved := if Confirmable(r) then s.saved[r.group := Current(s)] else s.saved)
      else if Current(s).revision != r.revision then
        s.(disk := if out.visible then Some(r.(phase := RecoveryRequired)) else s.disk, blocked := true)
      else Rollback(s, r, out.undo).(blocked := !UndoSucceeded(out.undo))
  }

  predicate RecoverMay(s: State, out: Recovery) {
    s.disk.Some? ==> UndoMay(s.disk.value, out.undo)
  }

  // ---------------------------------------------------------------------
  // Events
  // ---------------------------------------------------------------------

  datatype Event =
    | BeginJobEvent(job: Job, owner: Owner, digest: nat)
    | SubmitFailed(e: EntryID, job: Job)
    | CancelEvent(job: Job, owner: Owner)
    | CancelRefused(e: EntryID, was: Mark)
    | PrepareEvent(job: Job, owner: Owner, expected: nat, digest: nat, now: int)
    | RestoreEvent(e: EntryID, was: Mark)
    | ObserveEvent(job: Job, stopped: bool)
    | Dispatch(w: Exclusive, owner: Owner)
    | WorkerSeen
    | SwitchSeen(selection: Option<string>)
    | ConfigEvent(body: string)
    | StartUnreadable
    | StartEvent
    | RefuseEvent
    | PlanFailed
    | PlanReuses
    | BeginEvent(begun: Begun)
    | SettleFailed
    | SettleEvent(reused: bool, expires: int)
    | StartRolls(undo: Undo, readable: bool, mark: Mark)
    | UndoEvent
    | ShutdownUndo(job: Job)
    | UndoRolls(undo: Undo)
    | SaveEvent(job: Job, owner: Owner, expected: nat, digest: nat, now: int)
    | SaveDeclined
    | AnnounceFailed(body: string, visible: bool)
    | AnnounceEvent(body: string)
    | UpdateInvisible
    | UpdateEvent(durable: bool)
    | ConfirmEvent(keep: Keep)
    | RecordEvent
    | BlockEvent
    | PublishEvent
    | Restart(recovery: Recovery)

  predicate Enabled(s: State, ev: Event) {
    && HasConfig(s)
    && var d := s.device;
       match ev
       case BeginJobEvent(_, _, _) => true
       case SubmitFailed(e, job) => Submitting(e, job) in s.pending && Present(s, job)
       case CancelEvent(_, _) => true
       case CancelRefused(e, was) => Withdrawing(e, was) in s.pending
       case PrepareEvent(_, _, _, _, _) => true
       case RestoreEvent(e, was) => Restoring(e, was) in s.pending
       case ObserveEvent(_, _) => !LoopBusy(d)
       case Dispatch(w, owner) => !LoopBusy(d) && s.worker.None? && !w.Exited? && Permits(s, w, owner)
       case WorkerSeen => !LoopBusy(d) && s.worker == Some(Exited)
       case SwitchSeen(_) => !LoopBusy(d) && s.worker == Some(Switcher)
       case ConfigEvent(_) => !LoopBusy(d) && s.worker.None? && !s.blocked && s.active.None?
       case StartUnreadable => s.worker.Some? && s.worker.value.Starter? && !Working(d)
       case StartEvent => d.Free? && s.worker.Some? && s.worker.value.Starter?
       case RefuseEvent => d.Refusing? && Present(s, d.job)
       case PlanFailed => d.Planning?
       case PlanReuses => d.Planning?
       case BeginEvent(begun) => d.Planning? && d.e in s.entries && BeginMay(s, begun)
       case SettleFailed => d.Settling?
       case SettleEvent(_, _) => d.Settling? && d.e in s.entries
       case StartRolls(undo, readable, mark) =>
         && d.Failing?
         && (mark == Failed || mark == Cancelled)
         && (d.group.Some? ==> d.group.value in s.copies && UndoMay(s.copies[d.group.value], undo))
         && (d.group.None? && s.disk.Some? ==> UndoMay(s.disk.value, undo))
       case UndoEvent => d.Free? && s.worker.Some? && s.worker.value.Undoer?
       case ShutdownUndo(_) => d.Free?
       case UndoRolls(undo) => d.Undoing? && (d.group.Some? ==> d.group.value in s.copies && UndoMay(s.copies[d.group.value], undo))
       case SaveEvent(job, owner, expected, digest, _) =>
         d.Free? && s.worker.None? && Asking(job, owner, expected, digest) in s.pending
       case SaveDeclined => d.Checked?
       case AnnounceFailed(body, _) =>
         && d.Checked? && d.agreed && Current(s).revision == d.revision
         && d.group.Some? && AnnounceMay(s, d.group.value, Config(Current(s).revision + 1, body))
       case AnnounceEvent(body) =>
         && d.Checked? && d.agreed && Current(s).revision == d.revision
         && (d.group.Some? ==> AnnounceMay(s, d.group.value, Config(Current(s).revision + 1, body)))
       case UpdateInvisible => d.Prepared?
       case UpdateEvent(_) => d.Prepared?
       case ConfirmEvent(_) => d.Written? && (d.group.Some? ==> d.group.value in s.copies)
       case RecordEvent => d.Recording? && d.e in s.entries
       case BlockEvent => d.Blocking?
       case PublishEvent => d.Publishing? && Present(s, d.job)
       case Restart(recovery) => RecoverMay(s, recovery)
  }

  /** The device is held by the coordinator's worker. */
  predicate Working(d: Device) {
    d.Refusing? || d.Planning? || d.Settling? || d.Failing?
    || ((d.Undoing? || d.Blocking? || d.Publishing?) && d.holder == Worker)
  }

  function Step(s: State, ev: Event): State
    requires Enabled(s, ev)
  {
    var d := s.device;
    match ev
    case BeginJobEvent(job, owner, digest) => BeginJob(s, job, owner, digest)
    case SubmitFailed(e, job) => Publish(s, job, Failed)
    case CancelEvent(job, owner) => RequestCancel(s, job, owner)
    case CancelRefused(e, was) => WithdrawCancel(s, e, was)
    case PrepareEvent(job, owner, expected, digest, now) => PrepareAccount(s, job, owner, expected, digest, now)
    case RestoreEvent(e, was) => RestoreMark(s, e, was)
    case ObserveEvent(job, stopped) => ObserveStart(s, job, stopped)
    case Dispatch(w, owner) => s.(worker := Some(w))
    case WorkerSeen => s.(worker := None)
    case SwitchSeen(selection) => (if selection.None? then s else Commit(s, selection.value)).(worker := None)
    case ConfigEvent(body) => Commit(s, body)
    case StartUnreadable => s.(worker := Some(Exited))
    case StartEvent => StartLocks(s, s.worker.value.job)
    case RefuseEvent => LetGo(Publish(s, d.job, Cancelled), Worker)
    case PlanFailed => s.(device := Publishing(d.e, d.job, None, Failed, Worker))
    case PlanReuses => s.(device := Settling(d.e, d.job, None))
    case BeginEvent(begun) => Begin(s, d.e, d.job, begun)
    case SettleFailed => s.(device := Failing(d.e, d.job, d.group))
    case SettleEvent(reused, expires) => StartReady(s, d.e, d.job, d.group, reused, expires)
    case StartRolls(undo, readable, mark) => StartRolled(s, undo, readable, mark)
    case UndoEvent => UndoLocks(s, s.worker.value.job, Worker)
    case ShutdownUndo(job) => UndoLocks(s, job, Main)
    case UndoRolls(undo) => UndoRolled(s, undo)
    case SaveEvent(job, owner, expected, digest, now) => SaveLocks(s, job, owner, expected, digest, now)
    case SaveDeclined => LetGo(s, Loop)
    case AnnounceFailed(body, visible) =>
      LetGo(Announce(s, d.group.value, Config(Current(s).revision + 1, body), visible), Loop)
    case AnnounceEvent(body) =>
      var document := Config(Current(s).revision + 1, body);
      (if d.group.None? then s else Announce(s, d.group.value, document, true))
      .(device := Prepared(d.e, d.job, d.group, d.digest, document))
    case UpdateInvisible => LetGo(s, Loop)
    case UpdateEvent(durable) =>
      Commit(s, d.document.body)
      .(saved := if d.group.None? then s.saved else s.saved[d.group.value := d.document],
      device := if durable then Written(d.e, d.job, d.group, d.digest, d.document) else Blocking(d.e, d.job, d.group, Failed, Loop))
    case ConfirmEvent(keep) =>
      if d.group.None? then s.(device := Recording(d.e, d.job, None, d.digest, d.document))
      else Decide(s, d.group.value, keep, d.e, d.job, d.digest, d.document)
    case RecordEvent =>
      WithEntry(s, d.e, s.entries[d.e].(saved := Some(SavedAccount(d.digest, d.document))))
      .(device := Publishing(d.e, d.job, d.group, Done, Loop))
    case BlockEvent => s.(blocked := true, device := Publishing(d.e, d.job, d.group, d.mark, d.holder))
    case PublishEvent => Ended(LetGo(Publish(s, d.job, d.mark), d.holder), End(d.job, d.group, d.mark, s.blocked, OnFile(s, d.group)))
    case Restart(recovery) => Recover(Forget(s), recovery)
  }
}
