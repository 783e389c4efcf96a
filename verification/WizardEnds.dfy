/**
 How a wizard job ends: what the mark published for it says about its transaction.
 Cancelled means the change was rolled back and its record is gone, done means it was
 confirmed and the account is in a visible configuration, failed means it was rolled
 back or the wizard is blocked. Models core/internal/daemon/wizard.go and
 wizard_handlers.go.
 */
module WizardEnds {
  import opened Wrappers
  import opened Wizard
  import opened WizardSafety

  /** The change was rolled back and no record of it is on file. */
  predicate Gone(s: State, group: Option<GroupID>) {
    group.Some? ==> group.value in s.undone && !OnFile(s, group)
  }

  /** The change was confirmed and no record of it is on file. */
  predicate Kept(s: State, group: Option<GroupID>) {
    group.Some? ==> group.value in s.committed && !OnFile(s, group)
  }

  /** What a mark may be published for. */
  predicate Honest(s: State, group: Option<GroupID>, mark: Mark) {
    && (mark == Cancelled || mark == Done || mark == Failed)
    && (mark == Cancelled ==> Gone(s, group))
    && (mark == Done ==> Kept(s, group))
    && (mark == Failed ==> s.blocked || Gone(s, group))
  }

  predicate HonestEnd(s: State, x: End) {
    && (x.mark == Cancelled || x.mark == Done || x.mark == Failed)
    && (x.group.Some? ==>
          && (x.mark == Cancelled ==> x.group.value in s.undone && !x.onFile)
          && (x.mark == Done ==> x.group.value in s.committed && !x.onFile)
          && (x.mark == Failed ==> x.blocked || (x.group.value in s.undone && !x.onFile)))
  }

  predicate Underway(s: State) {
    match s.device
    case Written(_, _, _, _, document) => document in s.history
    case Recording(_, _, group, _, document) => Kept(s, group) && document in s.history
    case Blocking(_, _, _, mark, _) => mark == Failed
    case Publishing(_, _, group, mark, _) => Honest(s, group, mark)
    case _ => true
  }

  predicate Told(s: State) {
    && Underway(s)
    && (forall i | 0 <= i < |s.ends| :: HonestEnd(s, s.ends[i]))
    && (forall e <- s.entries :: s.entries[e].saved.Some? ==> s.entries[e].saved.value.document in s.history)
  }

  /** No entry gained a saved account. */
  predicate SameSaved(s: State, t: State) {
    forall e <- t.entries :: t.entries[e].saved.Some? ==> e in s.entries && t.entries[e].saved == s.entries[e].saved
  }

  lemma BesideTells(s: State, t: State)
    requires Table(s) && Beside(s, t) && Told(s)
    requires SameSaved(s, t)
    ensures Told(t)
  {
    hide Table, Beside;
    BesideFields(s, t);
  }

  lemma BesideFields(s: State, t: State)
    requires Table(s) && Beside(s, t)
    ensures t.device == s.device && t.disk == s.disk && t.undone == s.undone && t.committed == s.committed
    ensures t.history == s.history && t.ends == s.ends && t.blocked == s.blocked
  {
  }

  lemma EvictKeepsSaved(s: State)
    ensures EvictJobs(s).entries == s.entries && EvictJobs(s).nextEntry == s.nextEntry
  {
    EvictKeepsVerdicts(s);
  }

  lemma HandlersTell(s: State, ev: Event)
    requires Inv(s) && Told(s) && Enabled(s, ev) && HandlerEvent(ev)
    ensures Told(Step(s, ev))
  {
    InvParts(s);
    hide Inv, Revisions, Verdicts, File, Position, Workers, Told, Beside, Table;
    HandlersBeside(s, ev);
    HandlersKeepSaved(s, ev);
    BesideTells(s, Step(s, ev));
  }

  lemma EntryKeepsSaved(s: State, t: State, e: EntryID)
    requires e in s.entries && e in t.entries && t.entries == s.entries[e := t.entries[e]] && t.entries[e].saved == s.entries[e].saved
    ensures SameSaved(s, t)
  {
  }

  lemma BeginJobKeepsSaved(s: State, job: Job, owner: Owner, digest: nat)
    requires HasConfig(s)
    ensures SameSaved(s, BeginJob(s, job, owner, digest))
  {
    EvictKeepsSaved(s);
  }

  lemma CancelKeepsSaved(s: State, job: Job, owner: Owner)
    ensures SameSaved(s, RequestCancel(s, job, owner))
  {
    hide SameSaved;
    SavedReflexive(s);
    var t := RequestCancel(s, job, owner);
    if t != s {
      EntryKeepsSaved(s, t, s.jobs[job]);
    }
  }

  lemma SavedReflexive(s: State)
    ensures SameSaved(s, s)
  {
  }

  lemma PrepareKeepsSaved(s: State, job: Job, owner: Owner, expected: nat, digest: nat, now: int)
    ensures SameSaved(s, PrepareAccount(s, job, owner, expected, digest, now))
  {
  }

  lemma WithdrawKeepsSaved(s: State, e: EntryID, was: Mark)
    ensures SameSaved(s, WithdrawCancel(s, e, was))
  {
  }

  lemma RestoreKeepsSaved(s: State, e: EntryID, was: Mark)
    ensures SameSaved(s, RestoreMark(s, e, was))
  {
  }

  lemma ObserveKeepsSaved(s: State, job: Job, stopped: bool)
    ensures SameSaved(s, ObserveStart(s, job, stopped))
  {
  }

  lemma PublishKeepsSaved(s: State, job: Job, mark: Mark)
    requires Present(s, job)
    ensures SameSaved(s, Publish(s, job, mark))
  {
  }

  lemma HandlersKeepSaved(s: State, ev: Event)
    requires Enabled(s, ev) && HandlerEvent(ev)
    ensures SameSaved(s, Step(s, ev))
  {
    match ev {
      case BeginJobEvent(job, owner, digest) => BeginJobKeepsSaved(s, job, owner, digest);
      case SubmitFailed(e, job) => PublishKeepsSaved(s, job, Failed);
      case CancelEvent(job, owner) => CancelKeepsSaved(s, job, owner);
      case CancelRefused(e, was) => WithdrawKeepsSaved(s, e, was);
      case PrepareEvent(job, owner, expected, digest, now) => PrepareKeepsSaved(s, job, owner, expected, digest, now);
      case RestoreEvent(e, was) => RestoreKeepsSaved(s, e, was);
      case ObserveEvent(job, stopped) => ObserveKeepsSaved(s, job, stopped);
    }
    hide SameSaved, BeginJob, RequestCancel, WithdrawCancel, PrepareAccount, RestoreMark, ObserveStart, Publish;
  }

  lemma LoopTells(s: State, ev: Event)
    requires HasConfig(s) && Told(s) && Enabled(s, ev) && LoopEvent(ev)
    ensures Told(Step(s, ev))
  {
    var t := Step(s, ev);
    LoopMoves(s, ev);
    HistoryGrows(s, t);
    hide Enabled, Step;
  }

  lemma LoopMoves(s: State, ev: Event)
    requires HasConfig(s) && Enabled(s, ev) && LoopEvent(ev)
    ensures var t := Step(s, ev); t == s.(worker := t.worker, history := t.history) && s.history <= t.history
  {
    hide Enabled;
  }

  lemma HistoryGrows(s: State, t: State)
    requires s.history <= t.history
    ensures forall c <- s.history :: c in t.history
  {
    forall c | c in s.history
      ensures c in t.history
    {
      var i :| 0 <= i < |s.history| && s.history[i] == c;
      assert t.history[i] == c;
    }
  }

  // ---------------------------------------------------------------------
  // The device
  // ---------------------------------------------------------------------

  /** Only the positions, one entry's marks and the worker moved. */
  lemma Quietly(s: State, t: State)
    requires Told(s) && Underway(t)
    requires t == s.(entries := t.entries, active := t.active, device := t.device, worker := t.worker, disk := t.disk, copies := t.copies,
      undone := t.undone, committed := t.committed, nextGroup := t.nextGroup, blocked := t.blocked)
    requires s.undone <= t.undone && s.committed <= t.committed
    requires SameSaved(s, t)
    ensures Told(t)
  {
  }

  /** What a step of the start worker may move. */
  predicate Moved(s: State, t: State) {
    && t == s.(entries := t.entries, active := t.active, device := t.device, worker := t.worker, disk := t.disk, copies := t.copies,
         undone := t.undone, nextGroup := t.nextGroup)
    && s.undone <= t.undone && SameSaved(s, t) && Underway(t)
  }

  lemma LocksMove(s: State, job: Job)
    ensures Moved(s, StartLocks(s, job))
  {
  }

  lemma RefuseMoves(s: State, job: Job)
    requires Present(s, job)
    ensures Moved(s, LetGo(Publish(s, job, Cancelled), Worker))
  {
  }

  lemma BeginMoves(s: State, e: EntryID, job: Job, begun: Begun)
    requires e in s.entries
    ensures Moved(s, Begin(s, e, job, begun))
  {
  }

  lemma ReadyMoves(s: State, e: EntryID, job: Job, group: Option<GroupID>, reused: bool, expires: int)
    requires e in s.entries
    ensures Moved(s, StartReady(s, e, job, group, reused, expires))
  {
  }

  lemma PlanMoves(s: State, e: EntryID, job: Job, group: Option<GroupID>)
    ensures Moved(s, s.(device := Publishing(e, job, None, Failed, Worker)))
    ensures Moved(s, s.(device := Settling(e, job, group))) && Moved(s, s.(device := Failing(e, job, group)))
  {
  }

  lemma StartTells(s: State, ev: Event)
    requires Told(s) && Enabled(s, ev) && StartEvents(ev) && !ev.StartRolls?
    ensures Told(Step(s, ev))
  {
    var d := s.device;
    match ev {
      case StartEvent => LocksMove(s, s.worker.value.job);
      case RefuseEvent => RefuseMoves(s, d.job);
      case PlanFailed => PlanMoves(s, d.e, d.job, None);
      case PlanReuses => PlanMoves(s, d.e, d.job, None);
      case BeginEvent(begun) => BeginMoves(s, d.e, d.job, begun);
      case SettleFailed => PlanMoves(s, d.e, d.job, d.group);
      case SettleEvent(reused, expires) => ReadyMoves(s, d.e, d.job, d.group, reused, expires);
    }
    hide Told, Enabled, StartLocks, Publish, Begin, StartReady, LetGo, Moved, Underway;
    MovedTells(s, Step(s, ev));
  }

  lemma MovedTells(s: State, t: State)
    requires Told(s) && Moved(s, t)
    ensures Told(t)
  {
    Quietly(s, t);
    hide Told;
  }

  /** A rollback that succeeds leaves no record and is on the books; any other ends in blocking. */
  lemma RollbackTells(s: State, r: Record, undo: Undo)
    ensures UndoSucceeded(undo) ==> Rollback(s, r, undo).disk.None? && r.group in Rollback(s, r, undo).undone
    ensures var t := Rollback(s, r, undo); t == s.(disk := t.disk, undone := t.undone) && s.undone <= t.undone
  {
  }

  lemma HeldRollbackMoves(s: State, g: GroupID, undo: Undo, e: EntryID, job: Job, holder: Holder, mark: Mark)
    requires g in s.copies && s.copies[g].group == g && (mark == Failed || mark == Cancelled)
    ensures Moved(s, AfterUndo(RollbackHeld(s, g, undo), e, job, Some(g), holder, UndoSucceeded(undo), mark))
  {
    RollbackTells(s, s.copies[g], undo);
    hide Rollback;
  }

  lemma OtherRollbackMoves(s: State, r: Record, undo: Undo, e: EntryID, job: Job, holder: Holder, ok: bool, mark: Mark)
    requires mark == Failed || mark == Cancelled
    ensures Moved(s, AfterUndo(Rollback(s, r, undo), e, job, None, holder, ok, mark))
    ensures Moved(s, AfterUndo(s, e, job, None, holder, ok, mark))
  {
    RollbackTells(s, r, undo);
    hide Rollback;
  }

  lemma StartRollsTell(s: State, ev: Event)
    requires Inv(s) && Told(s) && Enabled(s, ev) && ev.StartRolls?
    ensures Told(Step(s, ev))
  {
    var d := s.device;
    HeldIsItself(s);
    if d.group.Some? {
      HeldRollbackMoves(s, d.group.value, ev.undo, d.e, d.job, Worker, ev.mark);
    } else {
      OtherRollbackMoves(s, if s.disk.Some? then s.disk.value else Record(0, Planned, 0, None), ev.undo, d.e, d.job, Worker, true, ev.mark);
      OtherRollbackMoves(s, if s.disk.Some? then s.disk.value else Record(0, Planned, 0, None), ev.undo, d.e, d.job, Worker,
                         UndoSucceeded(ev.undo), ev.mark);
    }
    hide Inv, Rollback, RollbackHeld, UndoMay, Moved, Told, AfterUndo;
    MovedTells(s, Step(s, ev));
  }

  lemma UndoRollsTell(s: State, ev: Event)
    requires Inv(s) && Told(s) && Enabled(s, ev) && ev.UndoRolls?
    ensures Told(Step(s, ev))
  {
    var d := s.device;
    HeldIsItself(s);
    if d.group.Some? {
      HeldRollbackMoves(s, d.group.value, ev.undo, d.e, d.job, d.holder, Cancelled);
    } else {
      OtherRollbackMoves(s, Record(0, Planned, 0, None), ev.undo, d.e, d.job, d.holder, true, Cancelled);
    }
    hide Inv, Rollback, RollbackHeld, UndoMay, Moved, Told, AfterUndo;
    MovedTells(s, Step(s, ev));
  }

  lemma HeldIsItself(s: State)
    requires Inv(s) && (s.device.Failing? || s.device.Undoing?)
    ensures s.device.group.Some? ==> s.device.group.value in s.copies && s.copies[s.device.group.value].group == s.device.group.value
  {
  }

  lemma UndoLocksTell(s: State, ev: Event)
    requires Told(s) && Enabled(s, ev) && (ev.UndoEvent? || ev.ShutdownUndo? || ev.BlockEvent?)
    ensures Told(Step(s, ev))
  {
  }

  lemma PublishTells(s: State)
    requires Told(s) && Enabled(s, PublishEvent)
    ensures Told(Step(s, PublishEvent))
  {
    var d, t := s.device, Step(s, PublishEvent);
    var end := End(d.job, d.group, d.mark, s.blocked, OnFile(s, d.group));
    assert HonestEnd(s, end);
    assert t.ends == s.ends + [end];
    assert t.undone == s.undone && t.committed == s.committed && t.history == s.history && t.device == Free;
    forall i | 0 <= i < |t.ends|
      ensures HonestEnd(t, t.ends[i])
    {
      if i < |s.ends| {
        assert t.ends[i] == s.ends[i] && HonestEnd(s, s.ends[i]);
      }
    }
    hide Enabled;
  }

  lemma CallbackTells(s: State, ev: Event)
    requires Told(s) && Enabled(s, ev) && (ev.SaveEvent? || ev.SaveDeclined? || ev.AnnounceFailed? || ev.AnnounceEvent? || ev.UpdateInvisible?)
    ensures Told(Step(s, ev))
  {
    CallbackMoves(s, ev);
    Quietly(s, Step(s, ev));
    hide Told, Step, Enabled;
  }

  lemma CallbackMoves(s: State, ev: Event)
    requires Enabled(s, ev) && (ev.SaveEvent? || ev.SaveDeclined? || ev.AnnounceFailed? || ev.AnnounceEvent? || ev.UpdateInvisible?)
    ensures var t := Step(s, ev);
            && (t == s || t == s.(device := t.device, disk := t.disk, copies := t.copies))
            && (t == s || t.device.Free? || t.device.Checked? || t.device.Prepared?)
    ensures Underway(s) ==> Underway(Step(s, ev))
  {
  }

  lemma UpdateTells(s: State, durable: bool)
    requires Inv(s) && Told(s) && Enabled(s, UpdateEvent(durable))
    ensures Told(Step(s, UpdateEvent(durable)))
  {
    var t := Step(s, UpdateEvent(durable));
    PreparedIsNext(s);
    assert t.history == s.history + [s.device.document];
    HistoryGrows(s, t);
    assert t.history[|s.history|] == s.device.document;
    assert t == s.(history := t.history, saved := t.saved, device := t.device);
    hide Inv, Enabled;
  }

  lemma PreparedIsNext(s: State)
    requires Inv(s) && s.device.Prepared?
    ensures HasConfig(s) && s.device.document == Config(Current(s).revision + 1, s.device.document.body)
  {
  }

  lemma WrittenIsItself(s: State)
    requires Inv(s) && s.device.Written? && s.device.group.Some?
    ensures s.device.group.value in s.copies && s.copies[s.device.group.value].group == s.device.group.value
  {
  }

  lemma ConfirmTells(s: State, keep: Keep)
    requires Inv(s) && Told(s) && Enabled(s, ConfirmEvent(keep))
    ensures Told(Step(s, ConfirmEvent(keep)))
  {
    var d, t := s.device, Step(s, ConfirmEvent(keep));
    if d.group.Some? {
      WrittenIsItself(s);
      ConfirmOnward(s, s.copies[d.group.value], keep);
      if KeepSucceeded(s.copies[d.group.value], keep) {
        KeptIsKept(s, s.copies[d.group.value], keep);
      }
    }
    hide Inv, Confirm, Enabled, KeepSucceeded;
    assert t == s.(device := t.device, disk := t.disk, committed := t.committed) && s.committed <= t.committed;
    Quietly(s, t);
  }

  lemma KeptIsKept(s: State, r: Record, keep: Keep)
    requires KeepSucceeded(r, keep)
    ensures Confirm(s, r, keep).disk.None? && r.group in Confirm(s, r, keep).committed
  {
  }

  lemma RecordTells(s: State)
    requires Told(s) && Enabled(s, RecordEvent)
    ensures Told(Step(s, RecordEvent))
  {
    var d, t := s.device, Step(s, RecordEvent);
    assert t == s.(entries := t.entries, device := t.device);
    hide Enabled, Step;
  }

  lemma RestartTells(s: State, recovery: Recovery)
    requires Told(s) && Enabled(s, Restart(recovery))
    ensures Told(Step(s, Restart(recovery)))
  {
    var t := Recover(Forget(s), recovery);
    RecoverOnward(Forget(s), recovery);
    RecoverMoves(Forget(s), recovery);
    hide Enabled, Recover, Forget, Onward;
    ForgetMoves(s);
    assert t.entries == map[] && t.device == Free && t.ends == s.ends && s.undone <= t.undone && s.committed <= t.committed by {
      ForgetMoves(s);
      OnwardSets(Forget(s), t);
    }
  }

  lemma OnwardSets(s: State, t: State)
    requires Onward(s, t)
    ensures s.undone <= t.undone && s.committed <= t.committed
  {
  }

  lemma ForgetMoves(s: State)
    ensures var f := Forget(s);
            f.entries == map[] && f.device == Free && f.ends == s.ends && f.undone == s.undone && f.committed == s.committed && f.history == s.history
  {
  }

  lemma RecoverMoves(s: State, recovery: Recovery)
    requires HasConfig(s)
    ensures var t := Recover(s, recovery); t.entries == s.entries && t.device == s.device && t.ends == s.ends && t.history == s.history
  {
    if s.disk.Some? {
      RollbackOnward(s, s.disk.value, recovery.undo);
      ConfirmOnward(s, s.disk.value, recovery.keep);
    }
    hide Rollback, Confirm, KeepSucceeded, UndoSucceeded, Confirmable, Onward;
  }

  lemma StepTells(s: State, ev: Event)
    requires Inv(s) && Told(s) && Enabled(s, ev)
    ensures Told(Step(s, ev))
  {
    InvParts(s);
    hide Inv, Told, Step, Enabled, Revisions, Table, Workers, Verdicts, File, Position;
    if HandlerEvent(ev) {
      HandlersTell(s, ev);
    } else if LoopEvent(ev) {
      LoopTells(s, ev) by {
        RevisionsHaveConfig(s);
      }
    } else if ev.StartRolls? {
      StartRollsTell(s, ev);
    } else if StartEvents(ev) {
      StartTells(s, ev);
    } else if ev.UndoRolls? {
      UndoRollsTell(s, ev);
    } else if ev.PublishEvent? {
      PublishTells(s);
    } else if UndoEvents(ev) {
      UndoLocksTell(s, ev);
    } else if ev.UpdateEvent? {
      UpdateTells(s, ev.durable);
    } else if ev.ConfirmEvent? {
      ConfirmTells(s, ev.keep);
    } else if ev.RecordEvent? {
      RecordTells(s);
    } else if ev.Restart? {
      RestartTells(s, ev.recovery);
    } else {
      CallbackTells(s, ev);
    }
  }

  lemma RevisionsHaveConfig(s: State)
    requires Revisions(s)
    ensures HasConfig(s)
  {
  }

  lemma {:induction false} RunTells(s: State, evs: seq<Event>, t: State)
    requires Inv(s) && Told(s) && Reaches(s, evs, t)
    ensures Inv(t) && Told(t)
    decreases |evs|
  {
    if evs != [] {
      StepKeeps(s, evs[0]);
      StepTells(s, evs[0]);
      RunTells(Step(s, evs[0]), evs[1..], t);
    }
    hide Inv, Told, Step, Enabled;
  }

  /**
   Over every run: a job published as cancelled had its change rolled back and its
   record gone; one published as done had it confirmed and its record gone; one
   published as failed had it rolled back and gone, or the wizard was blocked.
   */
  lemma EveryEndIsHonest(c: Config, evs: seq<Event>, t: State, i: nat)
    requires Reaches(Initial(c), evs, t) && i < |t.ends| && t.ends[i].group.Some?
    ensures var x, g := t.ends[i], t.ends[i].group.value;
            && (x.mark == Cancelled ==> g in t.undone && g !in t.committed && !x.onFile)
            && (x.mark == Done ==> g in t.committed && g !in t.undone && !x.onFile)
            && (x.mark == Failed ==> x.blocked || (g in t.undone && g !in t.committed && !x.onFile))
            && (x.mark == Cancelled || x.mark == Done || x.mark == Failed)
  {
    InitialInv(c);
    RunTells(Initial(c), evs, t);
    NeverBothConfirmedAndUndone(c, evs, t);
    assert HonestEnd(t, t.ends[i]);
    hide Inv;
  }

  /** Over every run: an account recorded as saved is in a configuration that became visible. */
  lemma SavedAccountIsVisible(c: Config, evs: seq<Event>, t: State, e: EntryID)
    requires Reaches(Initial(c), evs, t) && e in t.entries && t.entries[e].saved.Some?
    ensures t.entries[e].saved.value.document in t.history
  {
    InitialInv(c);
    RunTells(Initial(c), evs, t);
    hide Inv;
  }

  // ---------------------------------------------------------------------
  // Single steps a caller relies on
  // ---------------------------------------------------------------------

  /** An undo rolls the job's change back before anything is published; if that fails it blocks and the job fails. */
  lemma UndoDecides(s: State, ev: Event)
    requires Inv(s) && Enabled(s, ev) && s.device.Undoing? && Step(s, ev).device != s.device && !ev.Restart?
    ensures ev.UndoRolls?
    ensures var d, t := s.device, Step(s, ev);
            && (d.group.Some? && UndoSucceeded(ev.undo) ==>
                  t.device == Publishing(d.e, d.job, d.group, Cancelled, d.holder) && d.group.value in t.undone && t.disk.None?)
            && (d.group.Some? && !UndoSucceeded(ev.undo) ==> t.device == Blocking(d.e, d.job, d.group, Failed, d.holder))
            && (d.group.None? ==> t.device == Publishing(d.e, d.job, None, Cancelled, d.holder))
  {
    hide Inv, Table, Enabled, Step;
    if !ev.UndoRolls? {
      OthersLeaveTheDevice(s, ev);
    }
    UndoRolledStep(s, ev.undo);
    UndoRolledIs(s, ev.undo);
  }

  lemma UndoRolledStep(s: State, undo: Undo)
    requires Enabled(s, UndoRolls(undo))
    ensures s.device.Undoing? && (s.device.group.Some? ==> s.device.group.value in s.copies)
    ensures Step(s, UndoRolls(undo)) == UndoRolled(s, undo)
  {
    hide UndoRolled, UndoMay;
  }

  lemma UndoRolledIs(s: State, undo: Undo)
    requires Inv(s) && s.device.Undoing? && (s.device.group.Some? ==> s.device.group.value in s.copies)
    ensures var d, t := s.device, UndoRolled(s, undo);
            && (d.group.Some? && UndoSucceeded(undo) ==>
                  t.device == Publishing(d.e, d.job, d.group, Cancelled, d.holder) && d.group.value in t.undone && t.disk.None?)
            && (d.group.Some? && !UndoSucceeded(undo) ==> t.device == Blocking(d.e, d.job, d.group, Failed, d.holder))
            && (d.group.None? ==> t.device == Publishing(d.e, d.job, None, Cancelled, d.holder))
  {
    HeldIsItself(s);
    if s.device.group.Some? {
      RollbackTells(s, s.copies[s.device.group.value], undo);
    }
    hide Inv, Rollback;
  }

  /** While one position of the device holder stands, only its own step or a restart changes it. */
  lemma OthersLeaveTheDevice(s: State, ev: Event)
    requires Enabled(s, ev) && s.device.Undoing? && !ev.UndoRolls? && !ev.Restart?
    ensures Step(s, ev).device == s.device
  {
    if ev.BeginJobEvent? {
      EvictKeepsVerdicts(s);
    }
    hide Publish, WithEntry;
    if HandlerEvent(ev) && !ev.BeginJobEvent? {
      HandlersLeaveTheDevice(s, ev);
    }
  }

  lemma HandlersLeaveTheDevice(s: State, ev: Event)
    requires Enabled(s, ev) && HandlerEvent(ev) && !ev.BeginJobEvent?
    ensures Step(s, ev).device == s.device
  {
  }

  /** Blocking is set before a failed end is published. */
  lemma BlockedBeforePublished(s: State)
    requires Enabled(s, BlockEvent)
    ensures var d, t := s.device, Step(s, BlockEvent);
            t == s.(blocked := true, device := Publishing(d.e, d.job, d.group, d.mark, d.holder))
  {
    hide Enabled;
  }

  /** What is published: the job's mark, no transaction left with it, and the lease given back. */
  lemma PublishedIs(s: State)
    requires Enabled(s, PublishEvent)
    ensures var d, t := s.device, Step(s, PublishEvent);
            && Present(t, d.job) && EntryOf(t, d.job).mark == d.mark && EntryOf(t, d.job).group.None? && t.active != Some(d.job)
            && t.device.Free?
  {
  }

  /**
   A failed start that is published without blocking leaves no record on file, unless
   its transaction never came back from BeginGroup and its record could not be read.
   */
  lemma FailedStartLeavesARecordExactlyWhen(s: State, ev: Event)
    requires Enabled(s, ev) && ev.StartRolls? && Step(s, ev).device.Publishing?
    ensures Step(s, ev).disk.Some? <==> s.disk.Some? && s.device.group.None? && !ev.readable
  {
    StartRolledStep(s, ev);
    StartRolledIs(s, ev.undo, ev.readable, ev.mark);
    hide Enabled, Step;
  }

  lemma StartRolledStep(s: State, ev: Event)
    requires Enabled(s, ev) && ev.StartRolls?
    ensures s.device.Failing? && (s.device.group.Some? ==> s.device.group.value in s.copies)
    ensures Step(s, ev) == StartRolled(s, ev.undo, ev.readable, ev.mark)
  {
    hide StartRolled, UndoMay;
  }

  lemma StartRolledIs(s: State, undo: Undo, readable: bool, mark: Mark)
    requires s.device.Failing? && (s.device.group.Some? ==> s.device.group.value in s.copies)
    requires StartRolled(s, undo, readable, mark).device.Publishing?
    ensures StartRolled(s, undo, readable, mark).disk.Some? <==> s.disk.Some? && s.device.group.None? && !readable
  {
    var d := s.device;
    hide RollbackHeld, Rollback, AfterUndo, UndoSucceeded;
    if d.group.Some? {
      HeldRollbackClears(s, d.group.value, undo);
      AfterUndoIs(RollbackHeld(s, d.group.value, undo), d.e, d.job, d.group, UndoSucceeded(undo), mark);
    } else if s.disk.None? || !readable {
      AfterUndoIs(s, d.e, d.job, None, true, mark);
    } else {
      RollbackTells(s, s.disk.value, undo);
      AfterUndoIs(Rollback(s, s.disk.value, undo), d.e, d.job, None, UndoSucceeded(undo), mark);
    }
  }

  lemma AfterUndoIs(t: State, e: EntryID, job: Job, group: Option<GroupID>, ok: bool, mark: Mark)
    ensures var u := AfterUndo(t, e, job, group, Worker, ok, mark);
            u.disk == t.disk && (u.device.Publishing? <==> ok)
  {
  }

  lemma HeldRollbackClears(s: State, g: GroupID, undo: Undo)
    requires g in s.copies
    ensures UndoSucceeded(undo) ==> RollbackHeld(s, g, undo).disk.None?
  {
  }

  /** Nobody but its owner sees a job move: another session's cancel, preparation or start under its name changes nothing. */
  lemma StrangersChangeNothing(s: State, job: Job, owner: Owner, expected: nat, digest: nat, now: int)
    requires Present(s, job) && EntryOf(s, job).owner != owner && HasConfig(s)
    ensures RequestCancel(s, job, owner) == s && PrepareAccount(s, job, owner, expected, digest, now) == s
    ensures SaveLocks(s, job, owner, expected, digest, now) == s && BeginJob(s, job, owner, digest) == s
  {
  }

  /** A save gets to the configuration only for the leased, unblocked, uncancelled, unexpired job of its owner that is being saved. */
  lemma SaveNeedsTheLease(s: State, job: Job, owner: Owner, expected: nat, digest: nat, now: int)
    requires SaveLocks(s, job, owner, expected, digest, now) != s
    ensures !s.blocked && s.active == Some(job) && Present(s, job)
    ensures var x := EntryOf(s, job);
            && x.owner == owner && x.mark == Saving && !x.cancelRequested && now < x.expires
            && SaveLocks(s, job, owner, expected, digest, now).device == Checked(s.jobs[job], job, x.group, digest, expected == x.revision, x.revision)
  {
  }

  /** A start whose job was cancelled or lost its lease never plans a change. */
  lemma CancelledStartPlansNothing(s: State, job: Job)
    ensures StartLocks(s, job).device.Planning? && s.device.Free? ==>
              s.active == Some(job) && Present(s, job) && !EntryOf(s, job).cancelRequested && StartLocks(s, job).device == Planning(s.jobs[job], job)
  {
  }

  /** A cancel that arrives while the change is being applied is honoured: the job goes straight on to its undo. */
  lemma LateCancelIsHonoured(s: State, e: EntryID, job: Job, group: Option<GroupID>, reused: bool, expires: int)
    requires Table(s) && e in s.entries && s.active == Some(job) && job in s.jobs && s.jobs[job] == e && s.device.Settling?
    ensures var t := StartReady(s, e, job, group, reused, expires);
            if s.entries[e].cancelRequested then t.device == Undoing(e, job, group, Worker)
            else t.device.Free? && t.entries[e].mark == (if reused then Connected else Ready) && t.entries[e].group == group
  {
  }
}
