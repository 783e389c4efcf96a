/**
 What every interleaving of the wizard keeps. The wireless change and the account
 that needs it stand or fall together: a transaction is confirmed only when the
 document announced for it is a configuration that really became visible, and one
 whose account is visible is never rolled back, across any number of restarts.
 */
module WizardSafety {
  import opened Wrappers
  import opened Wizard

  // ---------------------------------------------------------------------
  // The invariant
  // ---------------------------------------------------------------------

  /** The job table: one entry per job, at most 64, and the lease holder is in it. */
  predicate Table(s: State) {
    && (forall e <- s.entries :: e < s.nextEntry)
    && (forall j <- s.jobs :: s.jobs[j] in s.entries && s.entries[s.jobs[j]].job == j && j in s.order)
    && (forall i | 0 <= i < |s.order| :: s.order[i] in s.jobs)
    && (forall i, k | 0 <= i < k < |s.order| :: s.order[i] != s.order[k])
    && |s.order| <= JOB_HISTORY
    && (s.active.Some? ==> s.active.value in s.jobs)
  }

  /** The group is exactly what its file says, waiting, with nothing decided about it. */
  predicate Untouched(s: State, g: GroupID) {
    && g in s.copies && s.copies[g].group == g && s.copies[g].phase == AwaitingConfirm
    && s.disk.Some? && s.disk.value.group == g && s.disk.value.phase == AwaitingConfirm
    && g !in s.saved && g !in s.undone
  }

  predicate UntouchedIf(s: State, group: Option<GroupID>) {
    group.Some? ==> Untouched(s, group.value)
  }

  /** The group behind the lease, if any, is untouched. */
  predicate LeaseLive(s: State)
    requires Table(s)
  {
    s.active.Some? ==> UntouchedIf(s, EntryOf(s, s.active.value).group)
  }

  /** Whoever has the lease now is this entry, or a job that has no group yet. */
  predicate Alone(s: State, e: EntryID, job: Job)
    requires Table(s)
  {
    && e in s.entries && s.entries[e].job == job
    && (s.active.Some? && s.jobs[s.active.value] != e ==> EntryOf(s, s.active.value).group.None?)
  }

  predicate Holds(s: State, e: EntryID, group: Option<GroupID>)
    requires Table(s)
  {
    s.active.Some? && s.jobs[s.active.value] == e ==> EntryOf(s, s.active.value).group == group
  }

  predicate Announced(s: State, g: GroupID, document: Config) {
    s.disk.Some? && s.disk.value.prepared == Some(document)
  }

  /** The account is visible and its transaction is the one on file, still to be confirmed. */
  predicate SavedNow(s: State, g: GroupID)
    requires HasConfig(s)
  {
    && g in s.copies && s.copies[g].group == g && s.copies[g].phase == AwaitingConfirm
    && s.copies[g].prepared == Some(Current(s))
    && s.disk == Some(s.copies[g])
    && g in s.saved
  }

  predicate Position(s: State)
    requires Table(s) && HasConfig(s)
  {
    match s.device
    case Free => LeaseLive(s)
    case Refusing(_) => LeaseLive(s)
    case Planning(e, job) => Alone(s, e, job)
    case Settling(e, job, group) => Alone(s, e, job) && UntouchedIf(s, group)
    case Failing(e, job, group) =>
      Alone(s, e, job)
      && (group.Some? ==>
            && group.value in s.copies && s.copies[group.value].group == group.value && group.value !in s.saved
            && s.disk.Some? && s.disk.value.group == group.value && !s.disk.value.phase.Committed?)
    case Undoing(e, job, group, _) => Alone(s, e, job) && UntouchedIf(s, group)
    case Checked(e, job, group, _, _, _) => !s.blocked && Alone(s, e, job) && Holds(s, e, group) && UntouchedIf(s, group)
    case Prepared(e, job, group, _, document) =>
      && !s.blocked && Alone(s, e, job) && Holds(s, e, group) && UntouchedIf(s, group)
      && document.revision == Current(s).revision + 1
      && (group.Some? ==> group.value in s.copies && s.disk == Some(s.copies[group.value]) && Announced(s, group.value, document))
    case Written(e, job, group, _, _) => Alone(s, e, job) && (group.Some? ==> SavedNow(s, group.value))
    case Recording(e, job, _, _, _) => Alone(s, e, job)
    case Blocking(e, job, _, _, _) => Alone(s, e, job)
    case Publishing(e, job, _, _, _) => Alone(s, e, job)
  }

  /** Which phases a file can show before any package was restored. */
  predicate NotRolled(phase: GroupPhase) {
    phase in {Planned, BackedUp, Applied, AwaitingConfirm, Committed}
  }

  /** The account is visible, the file still there: nobody may act until it is settled. */
  predicate Guarded(s: State, r: Record)
    requires HasConfig(s)
  {
    && Confirmable(r) && r.prepared == Some(Current(s))
    && s.worker.None?
    && (s.blocked || (s.device.Written? && s.device.group == Some(r.group)) || (s.device.Blocking? && s.device.holder == Loop))
  }

  predicate File(s: State)
    requires HasConfig(s)
  {
    s.disk.Some? ==>
      var r := s.disk.value;
      && r.group < s.nextGroup
      && (r.phase == Committed ==> r.group in s.saved)
      && (r.group in s.saved ==> Guarded(s, r))
      && (NotRolled(r.phase) ==> r.group !in s.undone)
  }

  /** The verdicts: kept only with its account, never undone once the account is saved. */
  predicate Verdicts(s: State) {
    && (forall g <- s.committed :: g in s.saved)
    && (forall g <- s.saved :: g !in s.undone && s.saved[g] in s.history && g < s.nextGroup)
    && (forall g <- s.undone :: g < s.nextGroup)
    && (forall g <- s.copies :: g < s.nextGroup)
  }

  predicate Revisions(s: State) {
    && HasConfig(s)
    && (forall i | 0 < i < |s.history| :: s.history[i].revision == s.history[i - 1].revision + 1)
  }

  predicate Workers(s: State) {
    && (Working(s.device) ==> s.worker.Some? && (s.worker.value.Starter? || s.worker.value.Undoer?))
    && (LoopBusy(s.device) ==> s.worker.None?)
    && (s.device.Undoing? ==> s.device.holder != Loop)
  }

  predicate Inv(s: State) {
    && Revisions(s) && Table(s) && Workers(s) && Verdicts(s) && File(s) && Position(s)
  }

  lemma InitialInv(c: Config)
    ensures Inv(Initial(c))
  {
  }

  // ---------------------------------------------------------------------
  // Steps of the short mutex never disturb whoever holds the device
  // ---------------------------------------------------------------------

  /** Only the table, the lease and the handlers moved, and no running lease got another group. */
  predicate Beside(s: State, t: State)
    requires Table(s)
  {
    && t == s.(entries := t.entries, jobs := t.jobs, order := t.order, active := t.active, pending := t.pending, nextEntry := t.nextEntry)
    && Table(t)
    && (forall e <- s.entries :: e in t.entries && t.entries[e].job == s.entries[e].job)
    && (t.active.Some? ==>
          || (s.active == t.active && s.jobs[s.active.value] == t.jobs[t.active.value]
              && EntryOf(s, s.active.value).group == EntryOf(t, t.active.value).group)
          || (t.jobs[t.active.value] !in s.entries && EntryOf(t, t.active.value).group.None?))
  }

  lemma BesidePosition(s: State, t: State)
    requires Revisions(s) && Table(s) && Beside(s, t) && Position(s)
    ensures Revisions(t) && Position(t)
  {
  }

  lemma BesideRest(s: State, t: State)
    requires Table(s) && Revisions(s) && Workers(s) && Verdicts(s) && File(s) && Beside(s, t)
    ensures HasConfig(t) && Table(t) && Workers(t) && Verdicts(t) && File(t)
  {
  }

  lemma BesideKeeps(s: State, t: State)
    requires Inv(s) && Beside(s, t)
    ensures Inv(t)
  {
    hide Table, Beside, Position, Workers, Verdicts, File, Revisions;
    BesidePosition(s, t);
    BesideRest(s, t);
  }

  lemma PublishBeside(s: State, job: Job, mark: Mark)
    requires Table(s) && Present(s, job)
    ensures Beside(s, Publish(s, job, mark))
    ensures Publish(s, job, mark).active != Some(job)
  {
  }

  lemma {:induction false} EvictKeeps(s: State)
    requires Table(s) && s.active.None?
    ensures var t := EvictJobs(s);
            && Table(t) && |t.order| < JOB_HISTORY
            && t == s.(jobs := t.jobs, order := t.order)
            && (forall j <- t.jobs :: j in s.jobs)
    decreases |s.order|
  {
    if |s.order| >= JOB_HISTORY {
      var t := s.(jobs := s.jobs - {s.order[0]}, order := s.order[1..]);
      forall j | j in t.jobs
        ensures j in t.order
      {
        var i :| 0 <= i < |s.order| && s.order[i] == j;
        assert i > 0 && t.order[i - 1] == j;
      }
      EvictKeeps(t);
    }
  }

  lemma BeginJobBeside(s: State, job: Job, owner: Owner, digest: nat)
    requires Table(s) && HasConfig(s)
    requires job !in s.jobs && !s.blocked && s.active.None?
    ensures Beside(s, BeginJob(s, job, owner, digest))
  {
    EvictKeeps(s);
    var t, u := EvictJobs(s), BeginJob(s, job, owner, digest);
    TableGrows(t, u, job);
    assert u.jobs[job] == s.nextEntry;
    assert EntryOf(u, job).group.None?;
  }

  lemma TableGrows(t: State, u: State, job: Job)
    requires Table(t) && job !in t.jobs && |t.order| < JOB_HISTORY
    requires u.nextEntry == t.nextEntry + 1 && u.order == t.order + [job] && u.jobs == t.jobs[job := t.nextEntry]
    requires t.nextEntry in u.entries && u.entries == t.entries[t.nextEntry := u.entries[t.nextEntry]]
    requires u.entries[t.nextEntry].job == job && u.active == Some(job)
    ensures Table(u)
  {
    forall j | j in u.jobs
      ensures j in u.order
    {
      if j != job {
        var i :| 0 <= i < |t.order| && t.order[i] == j;
        assert u.order[i] == j;
      } else {
        assert u.order[|t.order|] == job;
      }
    }
  }

  /** Changing marks and flags of one entry, never its job or group, keeps the table. */
  lemma MarkBeside(s: State, e: EntryID, entry: Entry, pending: set<Handler>)
    requires Table(s) && e in s.entries && entry.job == s.entries[e].job && entry.group == s.entries[e].group
    ensures Beside(s, WithEntry(s, e, entry).(pending := pending))
  {
  }

  lemma SameBeside(s: State, pending: set<Handler>)
    requires Table(s)
    ensures Beside(s, s.(pending := pending))
  {
  }

  lemma CancelBeside(s: State, job: Job, owner: Owner)
    requires Table(s)
    ensures Beside(s, RequestCancel(s, job, owner))
  {
    hide Table, Beside;
    SameBeside(s, s.pending);
    var t := RequestCancel(s, job, owner);
    if t != s {
      var e := s.jobs[job];
      assert t == WithEntry(s, e, t.entries[e]).(pending := t.pending);
      MarkBeside(s, e, t.entries[e], t.pending);
    }
  }

  lemma PrepareBeside(s: State, job: Job, owner: Owner, expected: nat, digest: nat, now: int)
    requires Table(s)
    ensures Beside(s, PrepareAccount(s, job, owner, expected, digest, now))
  {
    hide Table, Beside;
    var t := PrepareAccount(s, job, owner, expected, digest, now);
    SameBeside(s, t.pending);
    if t != s.(pending := t.pending) {
      var e := s.jobs[job];
      assert t == WithEntry(s, e, t.entries[e]).(pending := t.pending);
      MarkBeside(s, e, t.entries[e], t.pending);
    }
  }

  lemma RestoreBeside(s: State, e: EntryID, was: Mark)
    requires Table(s)
    ensures Beside(s, RestoreMark(s, e, was)) && Beside(s, WithdrawCancel(s, e, was))
  {
    hide Table, Beside;
    SameBeside(s, s.pending);
    if e in s.entries {
      MarkBeside(s, e, s.entries[e].(mark := was), s.pending);
      MarkBeside(s, e, s.entries[e].(mark := was, cancelRequested := false), s.pending);
    }
  }

  lemma ObserveBeside(s: State, job: Job, stopped: bool)
    requires Table(s)
    ensures Beside(s, ObserveStart(s, job, stopped))
  {
    var t := ObserveStart(s, job, stopped);
    if t == s {
      SameBeside(s, s.pending);
    } else {
      MarkBeside(s, s.jobs[job], t.entries[s.jobs[job]], s.pending);
      ReleaseBeside(s, t, job);
    }
  }

  lemma ReleaseBeside(s: State, t: State, job: Job)
    requires Table(s) && Beside(s, t.(active := s.active))
    requires t.active.None? || t.active == s.active
    ensures Beside(s, t)
  {
  }

  // ---------------------------------------------------------------------
  // The coordinator loop
  // ---------------------------------------------------------------------

  lemma CommitKeeps(s: State, body: string)
    requires Revisions(s) && Verdicts(s)
    ensures Revisions(Commit(s, body)) && Verdicts(Commit(s, body))
    ensures Current(Commit(s, body)) == Config(Current(s).revision + 1, body)
  {
    var t := Commit(s, body);
    assert forall i | 0 <= i < |s.history| :: t.history[i] == s.history[i];
  }

  lemma WorkerKeeps(s: State, w: Option<Exclusive>)
    requires Inv(s) && !Working(s.device) && !LoopBusy(s.device)
    requires w.None? || (s.worker.None? && !s.blocked) || s.worker.Some?
    ensures Inv(s.(worker := w))
  {
  }

  lemma OtherWriteKeeps(s: State, body: string)
    requires Inv(s) && !LoopBusy(s.device) && (s.worker.Some? || !s.blocked)
    ensures Inv(Commit(s, body))
  {
    CommitKeeps(s, body);
  }

  // ---------------------------------------------------------------------
  // The start and undo workers
  // ---------------------------------------------------------------------

  lemma PlanningKeeps(s: State, job: Job)
    requires Inv(s) && s.device.Free? && s.worker.Some? && s.worker.value.Starter?
    requires Present(s, job)
    ensures s.active == Some(job) ==> Inv(s.(device := Planning(s.jobs[job], job)))
    ensures Inv(s.(device := Refusing(job)))
  {
  }

  lemma StartLocksKeeps(s: State)
    requires Inv(s) && s.device.Free? && s.worker.Some? && s.worker.value.Starter?
    ensures Inv(StartLocks(s, s.worker.value.job))
  {
    var job := s.worker.value.job;
    FreeNow(s);
    hide Inv, Table, LeaseLive, Beside;
    if !Present(s, job) {
      FreeKeeps(s, Worker);
    } else {
      PlanningKeeps(s, job);
      var e, entry := s.jobs[job], EntryOf(s, job).(mark := Connecting);
      MarkBeside(s, e, entry, s.pending);
      var t := WithEntry(s, e, entry).(pending := s.pending);
      BesideKeeps(s, t);
      PlanningKeeps(t, job);
    }
  }

  lemma FreeNow(s: State)
    requires Inv(s) && s.device.Free?
    ensures Table(s) && LeaseLive(s)
  {
  }

  lemma RefuseKeeps(s: State)
    requires Inv(s) && s.device.Refusing? && Present(s, s.device.job)
    ensures Inv(LetGo(Publish(s, s.device.job, Cancelled), Worker))
  {
    PublishBeside(s, s.device.job, Cancelled);
    BesideKeeps(s, Publish(s, s.device.job, Cancelled));
    FreeKeeps(Publish(s, s.device.job, Cancelled), Worker);
  }

  /** Releasing the device is safe once the lease is live again. */
  lemma FreeKeeps(s: State, holder: Holder)
    requires Inv(s) && LeaseLive(s)
    requires s.device.Written? ==> s.disk.None?
    requires s.device.Blocking? ==> s.blocked
    requires holder == Worker ==> s.worker.Some?
    ensures Inv(LetGo(s, holder))
  {
  }

  lemma PlannedKeeps(s: State)
    requires Inv(s) && s.device.Planning?
    ensures Inv(s.(device := Publishing(s.device.e, s.device.job, None, Failed, Worker)))
    ensures Inv(s.(device := Settling(s.device.e, s.device.job, None)))
  {
  }

  /** Between planning and settling the file holds no saved account. */
  lemma PlanningFacts(s: State)
    requires Inv(s) && s.device.Planning?
    ensures Table(s) && Revisions(s) && Workers(s) && Verdicts(s) && Alone(s, s.device.e, s.device.job)
    ensures s.disk.Some? ==> s.disk.value.group !in s.saved && s.disk.value.group < s.nextGroup
  {
  }

  lemma BeginVerdicts(s: State, e: EntryID, job: Job, begun: Begun)
    requires e in s.entries && BeginMay(s, begun) && Verdicts(s)
    ensures Verdicts(Begin(s, e, job, begun))
  {
  }

  lemma BeginFile(s: State, e: EntryID, job: Job, begun: Begun)
    requires e in s.entries && BeginMay(s, begun) && Verdicts(s) && Revisions(s) && File(s)
    requires s.disk.Some? ==> s.disk.value.group !in s.saved
    ensures Revisions(Begin(s, e, job, begun)) && File(Begin(s, e, job, begun))
  {
  }

  lemma BeginPosition(s: State, begun: Begun)
    requires s.device.Planning? && s.device.e in s.entries && BeginMay(s, begun) && Verdicts(s)
    requires Workers(s)
    requires var t := Begin(s, s.device.e, s.device.job, begun); Revisions(t) && Table(t) && Alone(t, s.device.e, s.device.job)
    ensures var t := Begin(s, s.device.e, s.device.job, begun); Position(t) && Workers(t)
  {
    hide Alone, Table;
  }

  lemma BeginKeeps(s: State, begun: Begun)
    requires Inv(s) && s.device.Planning? && BeginMay(s, begun)
    ensures s.device.e in s.entries
    ensures Inv(Begin(s, s.device.e, s.device.job, begun))
  {
    PlanningFacts(s);
    InvParts(s);
    BeginTable(s, begun);
    hide Inv, Table, Verdicts, File, Revisions, Position, Workers, BeginMay, Begin;
    BeginVerdicts(s, s.device.e, s.device.job, begun);
    BeginFile(s, s.device.e, s.device.job, begun);
    BeginPosition(s, begun);
    PutTogether(Begin(s, s.device.e, s.device.job, begun));
  }

  lemma PutTogether(s: State)
    requires Revisions(s) && Table(s) && Workers(s) && Verdicts(s) && File(s) && Position(s)
    ensures Inv(s)
  {
  }

  lemma BeginTable(s: State, begun: Begun)
    requires Table(s) && s.device.Planning? && Alone(s, s.device.e, s.device.job)
    ensures var t := Begin(s, s.device.e, s.device.job, begun); Table(t) && Alone(t, s.device.e, s.device.job)
  {
  }

  lemma SettleFailedKeeps(s: State)
    requires Inv(s) && s.device.Settling?
    ensures Inv(s.(device := Failing(s.device.e, s.device.job, s.device.group)))
  {
  }

  lemma ReadyEntryKeeps(s: State, entry: Entry)
    requires Inv(s) && s.device.Settling?
    requires entry.job == s.device.job && entry.group == s.device.group
    ensures Inv(WithEntry(s, s.device.e, entry)) && LeaseLive(WithEntry(s, s.device.e, entry))
  {
  }

  lemma UndoLocksKeeps(s: State, job: Job, holder: Holder)
    requires Inv(s) && LeaseLive(s) && holder != Loop
    requires s.device.Free? || s.device.Settling?
    requires holder == Worker ==> s.worker.Some? && (s.worker.value.Starter? || s.worker.value.Undoer?)
    requires s.device.Settling? ==> holder == Worker
    ensures Inv(UndoLocks(s, job, holder))
  {
    if !Present(s, job) || s.active != Some(job) {
      FreeKeeps(s, holder);
    }
  }

  lemma ReadyKeeps(s: State, reused: bool, expires: int)
    requires Inv(s) && s.device.Settling?
    ensures s.device.e in s.entries
    ensures Inv(StartReady(s, s.device.e, s.device.job, s.device.group, reused, expires))
  {
    SettlingHas(s);
    hide Inv, LeaseLive;
    var entry := s.entries[s.device.e].(group := s.device.group, expires := expires, mark := if reused then Connected else Ready);
    ReadyEntryKeeps(s, entry);
    var t := WithEntry(s, s.device.e, entry);
    if entry.cancelRequested {
      UndoLocksKeeps(t, s.device.job, Worker);
    } else {
      FreeKeeps(t, Worker);
    }
  }

  lemma SettlingHas(s: State)
    requires Inv(s) && s.device.Settling?
    ensures Table(s) && s.device.e in s.entries && s.entries[s.device.e].job == s.device.job
    ensures s.worker.Some? && (s.worker.value.Starter? || s.worker.value.Undoer?)
  {
  }

  // ---------------------------------------------------------------------
  // Rolling back
  // ---------------------------------------------------------------------

  lemma RollbackFileAt(s: State, r: Record, out: Undo, d: Device)
    requires Revisions(s) && File(s)
    requires r.group < s.nextGroup && r.group !in s.saved && UndoMay(r, out)
    requires s.disk.Some? && s.disk.value.group == r.group
    ensures File(Rollback(s, r, out).(device := d))
  {
    var u := Rollback(s, r, out).(device := d);
    SameRevisions(s, u);
    assert s.disk.value.phase != Committed && (NotRolled(s.disk.value.phase) ==> r.group !in s.undone);
    hide Revisions, Guarded, File;
    if u.disk.Some? {
      UnsavedFile(u);
    } else {
      NoFile(u);
    }
  }

  lemma NoFile(u: State)
    requires Revisions(u) && u.disk.None?
    ensures File(u)
  {
  }

  lemma RollbackHistory(s: State, r: Record, out: Undo)
    requires Verdicts(s) && r.group < s.nextGroup && r.group !in s.saved
    ensures Verdicts(Rollback(s, r, out))
    ensures s.disk.Some? && s.disk.value.group == r.group ==>
              Rollback(s, r, out).disk.Some? ==> Rollback(s, r, out).disk.value.group == r.group
  {
  }

  /** Rolling back a group whose account is not saved cannot upset a verdict or the file. */
  lemma RollbackSound(s: State, r: Record, out: Undo)
    requires Revisions(s) && Verdicts(s) && File(s)
    requires r.group < s.nextGroup && r.group !in s.saved && UndoMay(r, out)
    requires s.disk.Some? && s.disk.value.group == r.group
    ensures var t := Rollback(s, r, out); Verdicts(t) && (t.disk.Some? ==> t.disk.value.group == r.group)
    ensures forall d: Device :: File(Rollback(s, r, out).(device := d))
  {
    hide Verdicts, File, UndoMay;
    RollbackHistory(s, r, out);
    forall d: Device
      ensures File(Rollback(s, r, out).(device := d))
    {
      RollbackFileAt(s, r, out, d);
    }
  }

  lemma AfterUndoKeeps(s: State, t: State, e: EntryID, job: Job, group: Option<GroupID>, holder: Holder, ok: bool, mark: Mark)
    requires Inv(s) && Alone(s, e, job) && holder != Loop
    requires holder == Worker <==> Working(s.device)
    requires !LoopBusy(s.device)
    requires t == s.(disk := t.disk, undone := t.undone, copies := t.copies)
    requires Verdicts(t) && (forall d: Device :: File(t.(device := d)))
    ensures Inv(AfterUndo(t, e, job, group, holder, ok, mark))
  {
  }

  lemma FileAnywhere(s: State)
    requires Revisions(s) && File(s) && (s.disk.Some? ==> s.disk.value.group !in s.saved)
    ensures forall d: Device :: File(s.(device := d))
  {
    forall d: Device
      ensures File(s.(device := d))
    {
    }
  }

  lemma FailingFacts(s: State)
    requires Inv(s) && s.device.Failing?
    ensures Table(s) && Revisions(s) && Verdicts(s) && File(s) && Alone(s, s.device.e, s.device.job)
    ensures s.disk.Some? ==> s.disk.value.group !in s.saved && s.disk.value.group < s.nextGroup
    ensures s.device.group.Some? ==>
              var g := s.device.group.value;
              && g in s.copies && s.copies[g].group == g && g !in s.saved && g < s.nextGroup
              && s.disk.Some? && s.disk.value.group == g
  {
  }

  lemma FileIgnoresCopies(s: State, copies: map<GroupID, Record>)
    requires Revisions(s) && Verdicts(s) && (forall g <- copies :: g < s.nextGroup)
    requires forall d: Device :: File(s.(device := d))
    ensures Verdicts(s.(copies := copies)) && (forall d: Device :: File(s.(copies := copies, device := d)))
  {
    forall d: Device
      ensures File(s.(copies := copies, device := d))
    {
      assert File(s.(device := d));
    }
  }

  lemma StartRollsKeeps(s: State, undo: Undo, readable: bool, mark: Mark)
    requires Enabled(s, StartRolls(undo, readable, mark)) && Inv(s)
    ensures Inv(Step(s, StartRolls(undo, readable, mark)))
  {
    var d := s.device;
    FailingFacts(s);
    hide Inv, Table, Alone, Verdicts, File, Revisions, UndoMay;
    if d.group.Some? {
      HeldRollbackKeeps(s, d.group.value, undo, d.e, d.job, Worker, mark);
    } else if s.disk.None? || !readable {
      FileAnywhere(s);
      AfterUndoKeeps(s, s, d.e, d.job, None, Worker, true, mark);
    } else {
      RollbackSound(s, s.disk.value, undo);
      AfterUndoKeeps(s, Rollback(s, s.disk.value, undo), d.e, d.job, None, Worker, UndoSucceeded(undo), mark);
    }
  }

  lemma HeldRollbackKeeps(s: State, g: GroupID, undo: Undo, e: EntryID, job: Job, holder: Holder, mark: Mark)
    requires Inv(s) && Alone(s, e, job) && holder != Loop && !LoopBusy(s.device)
    requires holder == Worker <==> Working(s.device)
    requires g in s.copies && s.copies[g].group == g && g !in s.saved && UndoMay(s.copies[g], undo)
    requires s.disk.Some? && s.disk.value.group == g
    ensures Inv(AfterUndo(RollbackHeld(s, g, undo), e, job, Some(g), holder, UndoSucceeded(undo), mark))
  {
    InvParts(s);
    assert g < s.nextGroup;
    hide Inv, Alone, File, Revisions, UndoMay;
    RollbackSound(s, s.copies[g], undo);
    var t := RollbackHeld(s, g, undo);
    CopiesBounded(s, g, Aged(s.copies[g], undo), t.copies);
    SameRevisions(s, Rollback(s, s.copies[g], undo));
    FileIgnoresCopies(Rollback(s, s.copies[g], undo), t.copies);
    AfterUndoKeeps(s, t, e, job, Some(g), holder, UndoSucceeded(undo), mark);
  }

  lemma SameRevisions(s: State, t: State)
    requires Revisions(s) && s.history == t.history
    ensures Revisions(t)
  {
  }

  lemma CopiesBounded(s: State, g: GroupID, r: Record, copies: map<GroupID, Record>)
    requires Verdicts(s) && g in s.copies && copies == s.copies[g := r]
    ensures forall h <- copies :: h < s.nextGroup
  {
  }

  lemma InvParts(s: State)
    requires Inv(s)
    ensures Revisions(s) && Table(s) && Workers(s) && Verdicts(s) && File(s) && Position(s)
  {
  }

  lemma UndoRollsKeeps(s: State, undo: Undo)
    requires Inv(s) && Enabled(s, UndoRolls(undo))
    ensures Inv(Step(s, UndoRolls(undo)))
  {
    var d := s.device;
    UndoingFacts(s);
    hide Inv, Table, Alone, Verdicts, File, Revisions, UndoMay;
    if d.group.Some? {
      HeldRollbackKeeps(s, d.group.value, undo, d.e, d.job, d.holder, Cancelled);
    } else {
      UndoneNothing(s);
    }
  }

  lemma UndoingFacts(s: State)
    requires Inv(s) && s.device.Undoing?
    ensures Table(s) && Alone(s, s.device.e, s.device.job) && UntouchedIf(s, s.device.group)
    ensures s.device.holder != Loop
  {
  }

  lemma UndoneNothing(s: State)
    requires Inv(s) && s.device.Undoing? && s.device.group.None?
    ensures Inv(AfterUndo(s, s.device.e, s.device.job, None, s.device.holder, true, Cancelled))
  {
  }

  // ---------------------------------------------------------------------
  // The save callback
  // ---------------------------------------------------------------------

  lemma SaveLocksKeeps(s: State, job: Job, owner: Owner, expected: nat, digest: nat, now: int)
    requires Inv(s) && s.device.Free? && s.worker.None?
    ensures Inv(SaveLocks(s, job, owner, expected, digest, now))
  {
  }

  lemma DeclinedKeeps(s: State)
    requires Inv(s) && (s.device.Checked? || s.device.Prepared?)
    ensures Inv(LetGo(s, Loop))
  {
  }

  /** Announcing a document touches neither the table nor any verdict. */
  lemma AnnounceSound(s: State, g: GroupID, document: Config, visible: bool)
    requires Revisions(s) && Verdicts(s) && File(s) && Untouched(s, g)
    ensures var t := Announce(s, g, document, visible);
            && Verdicts(t) && Untouched(t, g) && (visible ==> t.disk == Some(t.copies[g]) && Announced(t, g, document))
            && (forall d: Device :: File(t.(device := d)))
  {
    var t := Announce(s, g, document, visible);
    forall d: Device
      ensures File(t.(device := d))
    {
    }
  }

  lemma AnnounceKeeps(s: State, document: Config, visible: bool)
    requires Inv(s) && s.device.Checked? && s.device.group.Some?
    requires s.device.group.value in s.copies && document.revision == Current(s).revision + 1
    ensures var d, t := s.device, Announce(s, s.device.group.value, document, visible);
            && Inv(LetGo(t, Loop))
            && (visible ==> Inv(t.(device := Prepared(d.e, d.job, d.group, d.digest, document))))
  {
    AnnounceSound(s, s.device.group.value, document, visible);
    InvParts(s);
    hide Inv, File, Verdicts, Revisions;
    var d, t := s.device, Announce(s, s.device.group.value, document, visible);
    SameRevisions(s, t);
    AnnouncePlaces(s, t, d, document, visible);
    SameRevisions(t, t.(device := Free));
  }

  lemma AnnouncePlaces(s: State, t: State, d: Device, document: Config, visible: bool)
    requires Inv(s) && d == s.device && d.Checked? && d.group.Some? && HasConfig(s)
    requires t == s.(disk := t.disk, copies := t.copies) && Untouched(t, d.group.value)
    requires visible ==> t.disk == Some(t.copies[d.group.value]) && Announced(t, d.group.value, document)
    requires document.revision == Current(s).revision + 1
    requires Verdicts(t) && forall d: Device :: File(t.(device := d))
    ensures Inv(LetGo(t, Loop))
    ensures visible ==> Inv(t.(device := Prepared(d.e, d.job, d.group, d.digest, document)))
  {
    hide File;
    assert File(t.(device := Free));
    assert LetGo(t, Loop) == t.(device := Free);
    var p := Prepared(d.e, d.job, d.group, d.digest, document);
    assert File(t.(device := p));
  }

  lemma UnannouncedKeeps(s: State, document: Config)
    requires Inv(s) && s.device.Checked? && s.device.group.None? && document.revision == Current(s).revision + 1
    ensures Inv(s.(device := Prepared(s.device.e, s.device.job, None, s.device.digest, document)))
  {
  }

  lemma UpdateKeeps(s: State, durable: bool)
    requires Inv(s) && Enabled(s, UpdateEvent(durable))
    ensures Inv(Step(s, UpdateEvent(durable)))
  {
    var d, t := s.device, Step(s, UpdateEvent(durable));
    CommitKeeps(s, d.document.body);
    assert Current(t) == d.document;
    UpdateVerdicts(s, t);
    UpdateTable(s, t);
  }

  lemma UpdateVerdicts(s: State, t: State)
    requires Inv(s) && s.device.Prepared?
    requires t.history == s.history + [s.device.document]
    requires t == s.(history := t.history, device := t.device, saved := t.saved)
    requires t.saved == if s.device.group.None? then s.saved else s.saved[s.device.group.value := s.device.document]
    requires (t.device.Written? && t.device.group == s.device.group) || (t.device.Blocking? && t.device.holder == Loop)
    ensures Verdicts(t) && HasConfig(t) && File(t)
    ensures s.device.group.Some? ==> SavedNow(t, s.device.group.value)
  {
    assert t.history[|s.history|] == s.device.document;
    assert forall i | 0 <= i < |s.history| :: t.history[i] == s.history[i];
    assert forall c | c in s.history :: c in t.history;
    assert forall g | g in t.saved :: g in s.saved || Some(g) == s.device.group;
    assert Current(t) == s.device.document;
  }

  lemma UpdateTable(s: State, t: State)
    requires Table(s)
    requires t == s.(history := t.history, device := t.device, saved := t.saved)
    ensures Table(t)
    ensures forall e, job :: Alone(s, e, job) ==> Alone(t, e, job)
  {
  }

  lemma WrittenFacts(s: State)
    requires Inv(s) && s.device.Written?
    ensures Table(s) && Revisions(s) && Verdicts(s) && File(s) && s.worker.None? && Alone(s, s.device.e, s.device.job)
    ensures s.device.group.Some? ==> SavedNow(s, s.device.group.value)
    ensures s.device.group.None? && s.disk.Some? && s.disk.value.group in s.saved ==> s.blocked
  {
  }

  lemma RecordingKeeps(s: State)
    requires Inv(s) && s.device.Written? && s.device.group.None?
    ensures Inv(s.(device := Recording(s.device.e, s.device.job, None, s.device.digest, s.device.document)))
  {
  }

  lemma ConfirmFile(s: State, g: GroupID, keep: Keep, device: Device)
    requires Revisions(s) && Verdicts(s) && File(s) && SavedNow(s, g) && s.worker.None?
    requires KeepSucceeded(s.copies[g], keep) || (device.Blocking? && device.holder == Loop)
    ensures var t := Confirm(s, s.copies[g], keep).(device := device); Revisions(t) && Verdicts(t) && File(t)
  {
  }

  lemma ConfirmTable(s: State, r: Record, keep: Keep, device: Device, e: EntryID, job: Job)
    requires Table(s) && Alone(s, e, job)
    ensures var t := Confirm(s, r, keep).(device := device); Table(t) && Alone(t, e, job)
  {
    hide Confirmable;
    SameTable(s, Confirm(s, r, keep).(device := device));
  }

  lemma ConfirmKeeps(s: State, keep: Keep)
    requires Inv(s) && s.device.Written? && s.device.group.Some?
    ensures s.device.group.value in s.copies
    ensures Inv(Decide(s, s.device.group.value, keep, s.device.e, s.device.job, s.device.digest, s.device.document))
  {
    var d := s.device;
    WrittenFacts(s);
    var r, t := s.copies[d.group.value], Decide(s, d.group.value, keep, d.e, d.job, d.digest, d.document);
    hide Table, Alone, Revisions, Verdicts, File, Confirm, SavedNow;
    ConfirmFile(s, d.group.value, keep, t.device);
    ConfirmTable(s, r, keep, t.device, d.e, d.job);
    ConfirmWorker(s, r, keep);
  }

  lemma ConfirmWorker(s: State, r: Record, keep: Keep)
    ensures Confirm(s, r, keep).worker == s.worker && Confirm(s, r, keep).saved == s.saved
  {
  }

  lemma RecordKeeps(s: State)
    requires Inv(s) && s.device.Recording? && s.device.e in s.entries
    ensures Inv(Step(s, RecordEvent))
  {
    var d := s.device;
    var entry := s.entries[d.e].(saved := Some(SavedAccount(d.digest, d.document)));
    InvParts(s);
    hide Inv, Table, Beside, Verdicts, File, Revisions, Position, Workers;
    MarkBeside(s, d.e, entry, s.pending);
    var t := WithEntry(s, d.e, entry).(pending := s.pending);
    BesideKeeps(s, t);
    RecordedKeeps(t, d);
  }

  lemma RecordedKeeps(t: State, d: Device)
    requires Inv(t) && t.device == d && d.Recording?
    ensures Inv(t.(device := Publishing(d.e, d.job, d.group, Done, Loop)))
  {
  }

  lemma BlockKeeps(s: State)
    requires Inv(s) && s.device.Blocking?
    ensures Inv(s.(blocked := true, device := Publishing(s.device.e, s.device.job, s.device.group, s.device.mark, s.device.holder)))
  {
  }

  lemma PublishKeeps(s: State)
    requires Inv(s) && s.device.Publishing? && Present(s, s.device.job)
    ensures Inv(LetGo(Publish(s, s.device.job, s.device.mark), s.device.holder))
  {
    var t := Publish(s, s.device.job, s.device.mark);
    PublishBeside(s, s.device.job, s.device.mark);
    BesideKeeps(s, t);
    ReleasedIsLive(t);
    FreeKeeps(t, s.device.holder);
  }

  lemma EndedKeeps(s: State, end: End)
    requires Inv(s)
    ensures Inv(Ended(s, end))
  {
    SameTable(s, Ended(s, end));
    EndedPosition(s, end);
    hide Position, Table;
  }

  lemma EndedPosition(s: State, end: End)
    requires Table(s) && HasConfig(s) && Position(s) && Table(Ended(s, end))
    ensures Position(Ended(s, end))
  {
  }

  lemma ReleasedIsLive(t: State)
    requires Inv(t) && t.device.Publishing? && t.active != Some(t.device.job)
    ensures LeaseLive(t)
    ensures t.device.holder == Worker ==> t.worker.Some?
  {
  }

  // ---------------------------------------------------------------------
  // Restarting
  // ---------------------------------------------------------------------

  lemma ForgetKeeps(s: State)
    requires Inv(s)
    ensures var t := Forget(s);
            && Fresh(t)
            && (t.disk.Some? ==> File(t.(blocked := true)))
  {
  }

  /** What recover starts from, apart from the file. */
  predicate Fresh(t: State) {
    && Revisions(t) && Table(t) && Workers(t) && Verdicts(t)
    && t.active.None? && t.device.Free? && t.worker.None?
  }

  lemma FreshInv(t: State)
    requires Fresh(t) && File(t)
    ensures Inv(t)
  {
  }

  lemma RecoverConfirmsVerdicts(t: State, keep: Keep, saved: map<GroupID, Config>)
    requires Revisions(t) && Verdicts(t) && t.disk.Some? && t.disk.value.group < t.nextGroup && t.disk.value.group !in t.undone
    requires saved == t.saved || saved == t.saved[t.disk.value.group := Current(t)]
    requires t.disk.value.group in saved
    ensures Verdicts(Confirm(t, t.disk.value, keep).(saved := saved))
  {
    var r := t.disk.value;
    assert forall g | g in saved :: g in t.saved || g == r.group;
    assert Current(t) in t.history;
  }

  lemma RecoverConfirmsFile(t: State, keep: Keep, saved: map<GroupID, Config>)
    requires Revisions(t) && t.worker.None?
    requires t.disk.Some? && File(t.(blocked := true)) && t.disk.value.prepared == Some(Current(t))
    requires t.disk.value.group in saved && Confirmable(t.disk.value)
    ensures t.disk.value.group < t.nextGroup && t.disk.value.group !in t.undone
    ensures var r := t.disk.value;
            var u := Confirm(t, r, keep).(blocked := !KeepSucceeded(r, keep), saved := saved);
            Revisions(u) && File(u)
  {
  }

  lemma VerdictsIgnoreBlocked(u: State, v: State)
    requires Verdicts(v) && u == v.(blocked := u.blocked)
    ensures Verdicts(u)
  {
  }

  lemma NotConfirmable(t: State, r: Record, keep: Keep)
    requires !Confirmable(r)
    ensures Confirm(t, r, keep) == t && !KeepSucceeded(r, keep)
  {
  }

  lemma RecoverConfirms(t: State, keep: Keep, saved: map<GroupID, Config>)
    requires Fresh(t) && t.disk.Some? && File(t.(blocked := true)) && t.disk.value.prepared == Some(Current(t))
    requires saved == t.saved || saved == t.saved[t.disk.value.group := Current(t)]
    requires t.disk.value.group in saved && Confirmable(t.disk.value)
    ensures var r := t.disk.value;
            Inv(Confirm(t, r, keep).(blocked := !KeepSucceeded(r, keep), saved := saved))
  {
    var r := t.disk.value;
    var u := Confirm(t, r, keep).(blocked := !KeepSucceeded(r, keep), saved := saved);
    RecoverConfirmsFile(t, keep, saved);
    RecoverConfirmsVerdicts(t, keep, saved);
    VerdictsIgnoreBlocked(u, Confirm(t, r, keep).(saved := saved));
    hide File, Verdicts, Revisions, Table, Inv;
    SameTable(t, u);
    FreshInv(u);
  }

  lemma SameTable(t: State, u: State)
    requires Table(t) && u.entries == t.entries && u.jobs == t.jobs && u.order == t.order && u.active == t.active && u.nextEntry == t.nextEntry
    ensures Table(u)
  {
  }

  lemma RecoverRolls(t: State, undo: Undo)
    requires Fresh(t) && t.disk.Some? && File(t.(blocked := true))
    requires t.disk.value.group !in t.saved && UndoMay(t.disk.value, undo)
    ensures Inv(Rollback(t, t.disk.value, undo).(blocked := !UndoSucceeded(undo)))
  {
    var u := Rollback(t, t.disk.value, undo).(blocked := !UndoSucceeded(undo));
    RecoverRollsFile(t, u, undo);
    hide File, Verdicts, Revisions, Table, Inv, UndoMay;
    SameTable(t, u);
    SameRevisions(t, u);
    FreshInv(u);
  }

  lemma RecoverRollsFile(t: State, u: State, undo: Undo)
    requires Revisions(t) && Verdicts(t) && t.disk.Some? && File(t.(blocked := true))
    requires t.disk.value.group !in t.saved && UndoMay(t.disk.value, undo)
    requires u == Rollback(t, t.disk.value, undo).(blocked := u.blocked)
    ensures Revisions(u) && Verdicts(u) && File(u)
  {
    var r := t.disk.value;
    assert r.group < t.nextGroup && r.phase != Committed && (NotRolled(r.phase) ==> r.group !in t.undone);
    RollbackVerdicts(t, u, undo);
    hide Verdicts, Guarded, File, Revisions;
    SameRevisions(t, u);
    RollbackFile(t, u, undo);
  }

  lemma UnsavedFile(u: State)
    requires Revisions(u) && u.disk.Some?
    requires var r := u.disk.value; r.group < u.nextGroup && r.phase != Committed && r.group !in u.saved && (NotRolled(r.phase) ==> r.group !in u.undone)
    ensures File(u)
  {
  }

  lemma RollbackFile(t: State, u: State, undo: Undo)
    requires Revisions(u) && t.disk.Some?
    requires var r := t.disk.value; r.group < t.nextGroup && r.phase != Committed && r.group !in t.saved && (NotRolled(r.phase) ==> r.group !in t.undone)
    requires UndoMay(t.disk.value, undo) && u == Rollback(t, t.disk.value, undo).(blocked := u.blocked)
    ensures File(u)
  {
    hide Revisions, Guarded;
    if u.disk.Some? {
      UnsavedFile(u);
    }
  }

  lemma RollbackVerdicts(t: State, u: State, undo: Undo)
    requires Verdicts(t) && t.disk.Some? && t.disk.value.group < t.nextGroup && t.disk.value.group !in t.saved
    requires u == Rollback(t, t.disk.value, undo).(blocked := u.blocked)
    ensures Verdicts(u)
  {
  }

  lemma RecoverLeaves(t: State, disk: Option<Record>, blocked: bool)
    requires Fresh(t) && t.disk.Some? && File(t.(blocked := true))
    requires disk.None? || (disk == t.disk && blocked)
             || (disk == Some(t.disk.value.(phase := RecoveryRequired)) && blocked && t.disk.value.group !in t.saved)
    ensures Inv(t.(disk := disk, blocked := blocked))
  {
    var u := t.(disk := disk, blocked := blocked);
    SameTable(t, u);
    assert Verdicts(u) && File(u);
    FreshInv(u);
  }

  lemma RecoverNothing(t: State)
    requires Fresh(t) && t.disk.None?
    ensures Inv(t.(blocked := false))
  {
    SameTable(t, t.(blocked := false));
    FreshInv(t.(blocked := false));
  }

  lemma RecoverFacts(t: State)
    requires Fresh(t)
    requires t.disk.Some? ==> File(t.(blocked := true))
    ensures HasConfig(t)
    ensures t.disk.Some? ==>
              var r := t.disk.value;
              && (r.group in t.saved ==> Confirmable(r) && r.prepared == Some(Current(t)))
              && (r.phase == Committed ==> r.group in t.saved)
  {
  }

  lemma RecoverKeeps(t: State, out: Recovery)
    requires Fresh(t) && RecoverMay(t, out)
    requires t.disk.Some? ==> File(t.(blocked := true))
    ensures Inv(Recover(t, out))
  {
    hide Fresh, File, Inv, Table, Rollback, UndoMay, Confirm, Revisions, KeepSucceeded;
    RecoverFacts(t);
    var u := Recover(t, out);
    if t.disk.None? {
      RecoverNothing(t);
      return;
    }
    var r := t.disk.value;
    if r.phase == Committed && out.readable {
      ConfirmWorker(t, r, out.keep);
      RecoverConfirms(t, out.keep, t.saved);
    } else if out.readable && r.phase != RolledBack && r.phase != RecoveryRequired && r.prepared == Some(Current(t)) {
      if Confirmable(r) {
        RecoverConfirms(t, out.keep, t.saved[r.group := Current(t)]);
      } else {
        NotConfirmable(t, r, out.keep);
        RecoverLeaves(t, t.disk, true);
      }
    } else if out.readable && r.phase != RolledBack && r.phase != RecoveryRequired && Current(t).revision == r.revision {
      RecoverRolls(t, out.undo);
    } else {
      RecoverLeaves(t, u.disk, u.blocked);
    }
  }

  lemma RestartKeeps(s: State, recovery: Recovery)
    requires Inv(s) && RecoverMay(s, recovery)
    ensures HasConfig(s) && Inv(Recover(Forget(s), recovery))
  {
    ForgetKeeps(s);
    RecoverKeeps(Forget(s), recovery);
  }

  // ---------------------------------------------------------------------
  // The inductive theorem
  // ---------------------------------------------------------------------

  predicate HandlerEvent(ev: Event) {
    ev.BeginJobEvent? || ev.SubmitFailed? || ev.CancelEvent? || ev.CancelRefused? || ev.PrepareEvent?
    || ev.RestoreEvent? || ev.ObserveEvent?
  }

  lemma HandlersBeside(s: State, ev: Event)
    requires Table(s) && Enabled(s, ev) && HandlerEvent(ev)
    ensures Beside(s, Step(s, ev))
  {
    hide Table, Beside;
    match ev {
      case BeginJobEvent(job, owner, digest) =>
        if job in s.jobs || s.blocked || s.active.Some? {
          SameBeside(s, s.pending);
        } else {
          BeginJobBeside(s, job, owner, digest);
        }
      case SubmitFailed(e, job) => PublishBeside(s, job, Failed);
      case CancelEvent(job, owner) => CancelBeside(s, job, owner);
      case CancelRefused(e, was) => RestoreBeside(s, e, was);
      case PrepareEvent(job, owner, expected, digest, now) => PrepareBeside(s, job, owner, expected, digest, now);
      case RestoreEvent(e, was) => RestoreBeside(s, e, was);
      case ObserveEvent(job, stopped) => ObserveBeside(s, job, stopped);
    }
  }

  predicate LoopEvent(ev: Event) {
    ev.Dispatch? || ev.WorkerSeen? || ev.SwitchSeen? || ev.ConfigEvent? || ev.StartUnreadable?
  }

  lemma LoopKeeps(s: State, ev: Event)
    requires Inv(s) && Enabled(s, ev) && LoopEvent(ev)
    ensures Inv(Step(s, ev))
  {
    WorkerPlaces(s);
    hide Inv;
    match ev {
      case Dispatch(w, owner) => WorkerKeeps(s, Some(w));
      case WorkerSeen => WorkerKeeps(s, None);
      case SwitchSeen(selection) =>
        if selection.Some? {
          OtherWriteKeeps(s, selection.value);
          WorkerKeeps(Commit(s, selection.value), None);
        } else {
          WorkerKeeps(s, None);
        }
      case ConfigEvent(body) => OtherWriteKeeps(s, body);
      case StartUnreadable => WorkerKeeps(s, Some(Exited));
    }
  }

  lemma WorkerPlaces(s: State)
    requires Inv(s)
    ensures Working(s.device) ==> s.worker.Some? && (s.worker.value.Starter? || s.worker.value.Undoer?)
    ensures LoopBusy(s.device) ==> s.worker.None?
    ensures s.device.Free? ==> Table(s) && LeaseLive(s)
  {
  }

  predicate StartEvents(ev: Event) {
    ev.StartEvent? || ev.RefuseEvent? || ev.PlanFailed? || ev.PlanReuses? || ev.BeginEvent? || ev.SettleFailed?
    || ev.SettleEvent? || ev.StartRolls?
  }

  lemma StartKeeps(s: State, ev: Event)
    requires Inv(s) && Enabled(s, ev) && StartEvents(ev)
    ensures Inv(Step(s, ev))
  {
    hide Inv, UndoMay, BeginMay, RollbackHeld, Rollback, Begin, StartReady, StartLocks;
    match ev {
      case StartEvent => StartLocksKeeps(s);
      case RefuseEvent => RefuseKeeps(s);
      case PlanFailed => PlannedKeeps(s);
      case PlanReuses => PlannedKeeps(s);
      case BeginEvent(begun) => BeginKeeps(s, begun);
      case SettleFailed => SettleFailedKeeps(s);
      case SettleEvent(reused, expires) => ReadyKeeps(s, reused, expires);
      case StartRolls(undo, readable, mark) => StartRollsKeeps(s, undo, readable, mark);
    }
  }

  predicate UndoEvents(ev: Event) {
    ev.UndoEvent? || ev.ShutdownUndo? || ev.UndoRolls? || ev.BlockEvent? || ev.PublishEvent?
  }

  lemma UndoKeeps(s: State, ev: Event)
    requires Inv(s) && Enabled(s, ev) && UndoEvents(ev)
    ensures Inv(Step(s, ev))
  {
    WorkerPlaces(s);
    hide Inv, UndoMay, RollbackHeld, Rollback, LeaseLive, Table, UndoLocks;
    match ev {
      case UndoEvent => UndoLocksKeeps(s, s.worker.value.job, Worker);
      case ShutdownUndo(job) => UndoLocksKeeps(s, job, Main);
      case UndoRolls(undo) => UndoRollsKeeps(s, undo);
      case BlockEvent => BlockKeeps(s);
      case PublishEvent =>
        PublishKeeps(s);
        var d := s.device;
        EndedKeeps(LetGo(Publish(s, d.job, d.mark), d.holder), End(d.job, d.group, d.mark, s.blocked, OnFile(s, d.group)));
    }
  }

  predicate SaveEvents(ev: Event) {
    ev.SaveEvent? || ev.SaveDeclined? || ev.AnnounceFailed? || ev.AnnounceEvent? || ev.UpdateInvisible?
    || ev.UpdateEvent? || ev.ConfirmEvent? || ev.RecordEvent?
  }

  lemma AnnounceStepKeeps(s: State, ev: Event)
    requires Inv(s) && Enabled(s, ev) && (ev.AnnounceFailed? || ev.AnnounceEvent?)
    ensures Inv(Step(s, ev))
  {
    hide Inv, Confirm, SaveLocks, Announce;
    var document := Config(Current(s).revision + 1, ev.body);
    if ev.AnnounceFailed? {
      AnnounceKeeps(s, document, ev.visible);
    } else if s.device.group.Some? {
      AnnounceKeeps(s, document, true);
    } else {
      UnannouncedKeeps(s, document);
    }
  }

  lemma SaveKeeps(s: State, ev: Event)
    requires Inv(s) && Enabled(s, ev) && SaveEvents(ev)
    ensures Inv(Step(s, ev))
  {
    hide Inv, Confirm, SaveLocks, Announce, Decide;
    match ev {
      case SaveEvent(job, owner, expected, digest, now) => SaveLocksKeeps(s, job, owner, expected, digest, now);
      case SaveDeclined => DeclinedKeeps(s);
      case AnnounceFailed(_, _) => AnnounceStepKeeps(s, ev);
      case AnnounceEvent(_) => AnnounceStepKeeps(s, ev);
      case UpdateInvisible => DeclinedKeeps(s);
      case UpdateEvent(durable) => UpdateKeeps(s, durable);
      case ConfirmEvent(keep) =>
        if s.device.group.Some? {
          ConfirmKeeps(s, keep);
        } else {
          RecordingKeeps(s);
        }
      case RecordEvent => RecordKeeps(s);
    }
  }

  /** Every step of every party keeps the invariant. */
  lemma StepKeeps(s: State, ev: Event)
    requires Inv(s) && Enabled(s, ev)
    ensures Inv(Step(s, ev))
  {
    InvParts(s);
    hide Inv, Table, Beside, Step, Revisions, Verdicts, File, Position, Workers;
    if HandlerEvent(ev) {
      HandlersBeside(s, ev);
      BesideKeeps(s, Step(s, ev));
    } else if LoopEvent(ev) {
      LoopKeeps(s, ev);
    } else if StartEvents(ev) {
      StartKeeps(s, ev);
    } else if UndoEvents(ev) {
      UndoKeeps(s, ev);
    } else if SaveEvents(ev) {
      SaveKeeps(s, ev);
    } else {
      RestartStep(s, ev);
    }
  }

  lemma RestartStep(s: State, ev: Event)
    requires Inv(s) && Enabled(s, ev) && ev.Restart?
    ensures Inv(Step(s, ev))
  {
    hide Inv, Recover, Forget, RecoverMay;
    RestartKeeps(s, ev.recovery);
  }

  // ---------------------------------------------------------------------
  // Over whole runs
  // ---------------------------------------------------------------------

  ghost predicate Reaches(s: State, evs: seq<Event>, t: State)
    decreases |evs|
  {
    if evs == [] then t == s
    else Enabled(s, evs[0]) && Reaches(Step(s, evs[0]), evs[1..], t)
  }

  lemma {:induction false} RunKeeps(s: State, evs: seq<Event>, t: State)
    requires Inv(s) && Reaches(s, evs, t)
    ensures Inv(t)
    decreases |evs|
  {
    if evs != [] {
      StepKeeps(s, evs[0]);
      RunKeeps(Step(s, evs[0]), evs[1..], t);
    }
  }

  /**
   In every run, through any restarts: no transaction is both confirmed and rolled
   back; one that is confirmed belongs to an account document that became the visible
   configuration; one whose account became visible is not rolled back.
   */
  lemma NeverBothConfirmedAndUndone(c: Config, evs: seq<Event>, t: State)
    requires Reaches(Initial(c), evs, t)
    ensures t.committed !! t.undone
    ensures forall g <- t.committed :: g in t.saved && t.saved[g] in t.history
    ensures t.saved.Keys !! t.undone
  {
    InitialInv(c);
    RunKeeps(Initial(c), evs, t);
  }

  /** A saved account whose transaction is still on file stops every network worker and every other save. */
  lemma UnfinishedSaveStopsAll(c: Config, evs: seq<Event>, t: State, ev: Event)
    requires Reaches(Initial(c), evs, t) && Enabled(t, ev)
    requires t.disk.Some? && t.disk.value.group in t.saved
    ensures !ev.Dispatch? && !ev.ConfigEvent? && !ev.SwitchSeen? && !ev.BeginEvent? && !ev.StartRolls?
    ensures ev.SaveEvent? ==> Step(t, ev) == t
    ensures ev.UndoRolls? ==> t.device.group.None?
  {
    InitialInv(c);
    RunKeeps(Initial(c), evs, t);
    SavedOnFile(t);
    hide Inv;
  }

  lemma SavedOnFile(t: State)
    requires Inv(t) && t.disk.Some? && t.disk.value.group in t.saved
    ensures t.worker.None? && !Working(t.device) && (t.blocked || LoopBusy(t.device))
    ensures t.device.Undoing? ==> t.device.group.None?
  {
  }

  /** The lease holder is in the table and the table holds at most 64 jobs. */
  lemma LeaseHolderIsKept(c: Config, evs: seq<Event>, t: State)
    requires Reaches(Initial(c), evs, t)
    ensures t.active.Some? ==> Present(t, t.active.value) && EntryOf(t, t.active.value).job == t.active.value
    ensures |t.order| <= JOB_HISTORY && t.jobs.Keys == set j <- t.order
  {
    InitialInv(c);
    RunKeeps(Initial(c), evs, t);
    assert forall j <- t.order :: j in t.jobs;
  }

  /** Verdicts are history, and a lease is kept with its entry or given up. */
  predicate Onward(s: State, t: State) {
    && s.committed <= t.committed && s.undone <= t.undone && s.saved.Keys <= t.saved.Keys && s.history <= t.history
    && (s.active.Some? ==>
          t.active.None? || (t.active == s.active && t.jobs == s.jobs))
  }

  lemma HandlersOnward(s: State, ev: Event)
    requires Enabled(s, ev) && HandlerEvent(ev) && !ev.BeginJobEvent?
    ensures Onward(s, Step(s, ev))
  {
  }

  lemma LoopOnward(s: State, ev: Event)
    requires Enabled(s, ev) && LoopEvent(ev)
    ensures Onward(s, Step(s, ev))
  {
  }

  lemma RollbackOnward(s: State, r: Record, out: Undo)
    ensures Onward(s, Rollback(s, r, out))
    ensures var t := Rollback(s, r, out); t == s.(disk := t.disk, undone := t.undone)
  {
  }

  lemma ConfirmOnward(s: State, r: Record, out: Keep)
    ensures Onward(s, Confirm(s, r, out))
    ensures var t := Confirm(s, r, out); t == s.(disk := t.disk, committed := t.committed)
  {
  }

  lemma PublishOnward(s: State, job: Job, mark: Mark, holder: Holder)
    requires Present(s, job)
    ensures Onward(s, LetGo(Publish(s, job, mark), holder))
  {
  }

  lemma UndoLocksOnward(s: State, job: Job, holder: Holder)
    ensures Onward(s, UndoLocks(s, job, holder))
  {
  }

  lemma BeginOnward(s: State, e: EntryID, job: Job, begun: Begun)
    requires e in s.entries
    ensures Onward(s, Begin(s, e, job, begun))
  {
  }

  lemma ReadyOnward(s: State, e: EntryID, job: Job, group: Option<GroupID>, reused: bool, expires: int)
    requires e in s.entries
    ensures Onward(s, StartReady(s, e, job, group, reused, expires))
  {
  }

  lemma StartRollsOnward(s: State, ev: Event)
    requires Enabled(s, ev) && ev.StartRolls?
    ensures Onward(s, Step(s, ev))
  {
    var g := s.device.group;
    if g.Some? {
      RollbackOnward(s, s.copies[g.value], ev.undo);
    } else if s.disk.Some? {
      RollbackOnward(s, s.disk.value, ev.undo);
    }
    hide Enabled, Rollback;
  }

  lemma UndoRollsOnward(s: State, ev: Event)
    requires Enabled(s, ev) && ev.UndoRolls?
    ensures Onward(s, Step(s, ev))
  {
    if s.device.group.Some? {
      RollbackOnward(s, s.copies[s.device.group.value], ev.undo);
    }
    hide Enabled, Rollback;
  }

  lemma StartOnward(s: State, ev: Event)
    requires Enabled(s, ev) && StartEvents(ev)
    ensures Onward(s, Step(s, ev))
  {
    if ev.StartRolls? {
      StartRollsOnward(s, ev);
    } else {
      if ev.BeginEvent? {
        BeginOnward(s, s.device.e, s.device.job, ev.begun);
      } else if ev.SettleEvent? {
        ReadyOnward(s, s.device.e, s.device.job, s.device.group, ev.reused, ev.expires);
      }
      hide Enabled, Begin, StartReady, Rollback, RollbackHeld;
    }
  }

  lemma UndoOnward(s: State, ev: Event)
    requires Enabled(s, ev) && UndoEvents(ev)
    ensures Onward(s, Step(s, ev))
  {
    if ev.UndoRolls? {
      UndoRollsOnward(s, ev);
    } else {
      match ev {
        case UndoEvent => UndoLocksOnward(s, s.worker.value.job, Worker);
        case ShutdownUndo(job) => UndoLocksOnward(s, job, Main);
        case PublishEvent => PublishOnward(s, s.device.job, s.device.mark, s.device.holder);
        case BlockEvent =>
      }
      hide Enabled, Rollback, RollbackHeld, UndoLocks, Publish, LetGo, AfterUndo;
    }
  }

  lemma DecideOnward(s: State, g: GroupID, keep: Keep, e: EntryID, job: Job, digest: nat, document: Config)
    requires g in s.copies
    ensures Onward(s, Decide(s, g, keep, e, job, digest, document))
  {
  }

  lemma UpdateOnward(s: State, durable: bool)
    requires Enabled(s, UpdateEvent(durable))
    ensures Onward(s, Step(s, UpdateEvent(durable)))
  {
    hide Enabled;
  }

  lemma SaveOnward(s: State, ev: Event)
    requires Enabled(s, ev) && SaveEvents(ev)
    ensures Onward(s, Step(s, ev))
  {
    if ev.UpdateEvent? {
      UpdateOnward(s, ev.durable);
    } else if ev.SaveEvent? || ev.AnnounceFailed? || ev.AnnounceEvent? {
      hide Enabled, Decide, Commit, Confirm;
    } else {
      if ev.ConfirmEvent? && s.device.group.Some? {
        DecideOnward(s, s.device.group.value, ev.keep, s.device.e, s.device.job, s.device.digest, s.device.document);
      }
      hide Enabled, Decide;
    }
  }

  lemma {:induction false} EvictKeepsVerdicts(s: State)
    ensures var t := EvictJobs(s); t == s.(jobs := t.jobs, order := t.order)
    decreases |s.order|
  {
    if |s.order| >= JOB_HISTORY {
      EvictKeepsVerdicts(s.(jobs := s.jobs - {s.order[0]}, order := s.order[1..]));
    }
  }

  lemma BeginJobOnward(s: State, ev: Event)
    requires Enabled(s, ev) && ev.BeginJobEvent?
    ensures Onward(s, Step(s, ev))
  {
    EvictKeepsVerdicts(s);
  }

  /** No step takes a verdict back, and a lease passes to another job only through nobody. */
  lemma StepOnward(s: State, ev: Event)
    requires Enabled(s, ev)
    ensures Onward(s, Step(s, ev))
  {
    if ev.BeginJobEvent? {
      BeginJobOnward(s, ev);
    } else if HandlerEvent(ev) {
      HandlersOnward(s, ev);
    } else if LoopEvent(ev) {
      LoopOnward(s, ev);
    } else if StartEvents(ev) {
      StartOnward(s, ev);
    } else if UndoEvents(ev) {
      UndoOnward(s, ev);
    } else if SaveEvents(ev) {
      SaveOnward(s, ev);
    } else {
      RestartOnward(s, ev);
    }
  }

  lemma RestartOnward(s: State, ev: Event)
    requires Enabled(s, ev) && ev.Restart?
    ensures Onward(s, Step(s, ev))
  {
    RecoverOnward(Forget(s), ev.recovery);
    hide Enabled, Recover;
  }

  lemma RecoverOnward(t: State, out: Recovery)
    requires HasConfig(t)
    ensures Onward(t, Recover(t, out)) && Recover(t, out).active == t.active
  {
    if t.disk.Some? {
      RollbackOnward(t, t.disk.value, out.undo);
      ConfirmOnward(t, t.disk.value, out.keep);
    }
    hide Rollback, Confirm, KeepSucceeded, UndoSucceeded, Confirmable;
  }

  /** While a job holds the lease and no one holds the device, its group is the one on file, awaiting confirmation and undecided. */
  lemma LeasedGroupIsUndecided(c: Config, evs: seq<Event>, t: State)
    requires Reaches(Initial(c), evs, t) && t.device.Free? && t.active.Some?
    ensures Present(t, t.active.value)
    ensures EntryOf(t, t.active.value).group.Some? ==> Untouched(t, EntryOf(t, t.active.value).group.value)
  {
    InitialInv(c);
    RunKeeps(Initial(c), evs, t);
  }

  lemma {:induction false} RunStands(s: State, evs: seq<Event>, t: State)
    requires Reaches(s, evs, t)
    ensures s.committed <= t.committed && s.undone <= t.undone && s.saved.Keys <= t.saved.Keys && s.history <= t.history
    decreases |evs|
  {
    if evs != [] {
      StepOnward(s, evs[0]);
      RunStands(Step(s, evs[0]), evs[1..], t);
    }
  }

  /** A verdict once reached is the only one the transaction will ever get, however the run goes on. */
  lemma VerdictIsFinal(c: Config, evs: seq<Event>, t: State, more: seq<Event>, u: State, g: GroupID)
    requires Reaches(Initial(c), evs, t) && Reaches(t, more, u)
    ensures g in t.saved ==> g !in u.undone
    ensures g in t.undone ==> g !in u.saved && g !in u.committed
  {
    InitialInv(c);
    RunKeeps(Initial(c), evs, t);
    RunKeeps(t, more, u);
    RunStands(t, more, u);
  }
}
