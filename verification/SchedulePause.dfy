/**
 The manual-logout pause as the coordinator enforces it: from the admission of a
 logout until the configuration moves or the account is explicitly brought back,
 no automatic work for that account is waiting, starts, or keeps running undisturbed.
 Models the interplay of schedule.go, manual_pause.go, switch.go and the Check closure.
 */
module SchedulePause {
  import opened Actions
  import opened Ambient
  import opened Schedule
  import opened ScheduleInvariant
  import opened ScheduleSteps
  import opened ScheduleRuns

  predicate AutomaticFor(a: Action, account: string) {
    a.request.accountID == account && !a.request.kind.Manual()
  }

  ghost predicate PauseHolds(s: Loop, account: string) {
    && Paused(s.daemon, account)
    && (forall id | id in s.queue :: id in s.index && !AutomaticFor(s.index[id], account))
    && (forall id | id in s.running ::
          id in s.index && (AutomaticFor(s.index[id], account) ==> s.index[id].state.Terminal() && s.running[id].cancelled))
  }

  /** The completion that lifts a pause: a login, relogin or campus switch of the account, finalized with success. */
  predicate Lifts(s: Loop, e: Event, account: string) {
    && e.FinishEvent? && e.id in s.index && e.id in s.running
    && LiftsPause(s.index[e.id].request.kind) && s.index[e.id].request.accountID == account
    && !s.index[e.id].state.Terminal() && !s.running[e.id].overdue && Judged(e.out).state.Succeeded?
    && Finalize(s.daemon, s.index[e.id].request, Judged(e.out), e.io).1.state.Succeeded?
  }

  /** Once the record is in place, whatever else a step does cannot bring automatic work back. */
  lemma PauseCarries(s: Loop, t: Loop, lim: Limits, account: string)
    requires Good(s, lim) && Good(t, lim) && Evolves(s, t) && PauseHolds(s, account) && Paused(t.daemon, account)
    requires forall id | id in t.queue :: id in s.queue || (id in t.index && !AutomaticFor(t.index[id], account))
    requires forall id | id in t.running :: id in s.running || id in s.queue
    ensures PauseHolds(t, account)
  {
    hide Good, Inv, Stage, Ages, AutomaticFor, Paused;
    GoodQueue(s, lim);
    GoodQueue(t, lim);
    forall id | id in t.queue
      ensures !AutomaticFor(t.index[id], account) {
      if id in s.queue {
        SameWorkAged(s.index[id], t.index[id], account);
      }
    }
    forall id | id in t.running
      ensures AutomaticFor(t.index[id], account) ==> t.index[id].state.Terminal() && t.running[id].cancelled {
      assert Ages(s.index[id], t.index[id]);
      SameWorkAged(s.index[id], t.index[id], account);
      RunningRecord(t, lim, id);
    }
  }

  lemma SameWorkAged(a: Action, b: Action, account: string)
    requires Ages(a, b)
    ensures AutomaticFor(b, account) == AutomaticFor(a, account)
    ensures a.state.Terminal() ==> b.state.Terminal()
  {
    assert Redacted(b.request).kind == Redacted(a.request).kind && Redacted(b.request).accountID == Redacted(a.request).accountID;
  }

  lemma SettleKeepsPause(d: Daemon, a: Action, overdue: bool, out: Outcome, io: FinalizeAnswers, account: string)
    requires Paused(d, account)
    ensures var d1 := Settle(d, a, overdue, out, io).0;
            || Paused(d1, account)
            || d1.config.revision != d.config.revision
            || (!a.state.Terminal() && !overdue && Judged(out).state.Succeeded? && LiftsPause(a.request.kind)
                && a.request.accountID == account && Finalize(d, a.request, Judged(out), io).1.state.Succeeded?)
  {
    if !a.state.Terminal() && !overdue && Judged(out).state.Succeeded? {
      FinalizeKeepsPause(d, a.request, Judged(out), io, account);
    }
  }

  lemma FinishKeepsPause(s: Loop, lim: Limits, e: Event, account: string)
    requires Good(s, lim) && PauseHolds(s, account) && e.FinishEvent?
    ensures var t := Finish(s, lim, e.id, e.out, e.io);
            t.daemon.config.revision != s.daemon.config.revision || Lifts(s, e, account) || PauseHolds(t, account)
  {
    FinishKeeps(s, lim, e.id, e.out, e.io);
    var t := Finish(s, lim, e.id, e.out, e.io);
    hide Inv, Evolves, Retire, Settle;
    if e.id in s.index && e.id in s.running {
      SettleKeepsPause(s.daemon, s.index[e.id], s.running[e.id].overdue, e.out, e.io, account);
      FinishDaemon(s, lim, e.id, e.out, e.io);
      hide Finish;
      if Paused(t.daemon, account) {
        PauseCarries(s, t, lim, account);
      }
    }
  }

  lemma FinishDaemon(s: Loop, lim: Limits, id: ID, out: Outcome, io: FinalizeAnswers)
    requires Good(s, lim) && id in s.index && id in s.running
    ensures Finish(s, lim, id, out, io).daemon == Settle(s.daemon, s.index[id], s.running[id].overdue, out, io).0
  {
    RunningRecord(s, lim, id);
    hide Inv, Evolves, Retire, Settle;
    ReleasedKeeps(s, lim, id, out, io);
    RetireKeeps(Released(s, id, out, io), lim, id);
  }

  lemma AdmitKeepsPauses(d: Daemon, r: Request, clears: bool, writes: bool, account: string)
    requires Paused(d, account)
    ensures Paused(Admit(d, r, clears, writes).0, account)
  {
  }

  lemma SubmitFreshKeepsPause(s: Loop, lim: Limits, r: Request, env: SubmitEnv, account: string)
    requires Good(s, lim) && PauseHolds(s, account) && r.key !in s.byKey && !s.stop.Stopping?
    ensures PauseHolds(SubmitFresh(s, lim, r, env).0, account)
  {
    SubmitFreshKeeps(s, lim, r, env);
    SubmitFreshFrame(s, lim, r, env);
    FreshlyQueued(s, lim, r, env);
    AdmitKeepsPauses(s.daemon, r, env.clears, env.writes, account);
    SubmitFreshDaemon(s, lim, r, env);
    hide Inv, Evolves, SubmitFresh, PauseHolds;
    var (t, reply) := SubmitFresh(s, lim, r, env);
    if reply.Refused? {
      assert t == s by {
        SubmitFreshRefused(s, lim, r, env);
      }
    } else {
      PausedOf(s, account);
      PauseCarries(s, t, lim, account) by {
        CheckedNotPaused(s, lim, r, env, account);
      }
    }
  }

  lemma PausedOf(s: Loop, account: string)
    requires PauseHolds(s, account)
    ensures Paused(s.daemon, account)
  {
  }

  lemma SubmitFreshRefused(s: Loop, lim: Limits, r: Request, env: SubmitEnv)
    ensures SubmitFresh(s, lim, r, env).1.Refused? ==> SubmitFresh(s, lim, r, env).0 == s
  {
  }

  lemma SubmitFreshDaemon(s: Loop, lim: Limits, r: Request, env: SubmitEnv)
    requires Good(s, lim)
    ensures var (t, reply) := SubmitFresh(s, lim, r, env);
            reply.Accepted? ==> t.daemon == Admit(s.daemon, r, env.clears, env.writes).0
                                && Check(s.daemon, env.guard, env.wizard, r).Pass?
  {
    hide Inv, Evolves, Cleared, Check;
    var (d, admitted) := Admit(s.daemon, r, env.clears, env.writes);
    DaemonKeeps(s, lim, d);
    ClearedKeeps(s.(daemon := d), lim, r, env.order);
  }

  lemma CheckedNotPaused(s: Loop, lim: Limits, r: Request, env: SubmitEnv, account: string)
    requires Good(s, lim) && Paused(s.daemon, account) && SubmitFresh(s, lim, r, env).1.Accepted?
    ensures r.accountID == account ==> r.kind.Manual()
  {
    SubmitFreshDaemon(s, lim, r, env);
  }

  lemma SubmitKeepsPause(s: Loop, lim: Limits, r: Request, env: SubmitEnv, account: string)
    requires Good(s, lim) && PauseHolds(s, account) && !s.stop.Stopping?
    ensures PauseHolds(Submit(s, lim, r, env).0, account)
  {
    KeysLive(s, lim, r.key);
    hide Inv, SubmitFresh, PauseHolds;
    if r.key !in s.byKey {
      SubmitFreshKeepsPause(s, lim, Sealed(lim, r), env, account);
    }
  }

  /** Every step keeps the pause, except one that moves the revision or lifts it. */
  lemma StepKeepsPause(s: Loop, lim: Limits, e: Event, account: string)
    requires Good(s, lim) && Known(s) && Halted(s) && PauseHolds(s, account)
    ensures var t := Step(s, lim, e);
            t.daemon.config.revision != s.daemon.config.revision || Lifts(s, e, account) || PauseHolds(t, account)
  {
    hide Good, Inv, Evolves, Known, Halted, Submit, Cancel, DispatchOne, Finish, Progress, Expire, BeginShutdown, DropAll, MarkOverdue, PauseHolds, Lifts, Paused;
    StepKeeps(s, lim, e);
    PausedOf(s, account);
    var t := Step(s, lim, e);
    match e {
      case SubmitEvent(r, env) =>
        if !s.stop.Stopping? {
          SubmitKeepsPause(s, lim, r, env, account);
        }
      case CancelEvent(id) =>
        CancelKeeps(s, lim, id);
        PauseCarries(s, t, lim, account);
      case DispatchEvent(env) =>
        if !s.stop.Stopping? {
          DispatchOneKeeps(s, lim, env);
          DispatchSources(s, lim, env);
        }
        PauseCarries(s, t, lim, account);
      case FinishEvent(id, out, io) =>
        if s.stop.StopRequested? {
          ShutdownKeepsPause(s, lim, account);
          BeginShutdownKeeps(s, lim);
          FinishSettledKeepsPause(BeginShutdown(s, lim), lim, e, account);
        } else {
          FinishKeepsPause(s, lim, e, account);
        }
      case ProgressEvent(id, phase) =>
        ProgressKeeps(s, lim, id, phase);
        PauseCarries(s, t, lim, account);
      case ExpireEvent(now) =>
        ExpireKeeps(s, lim, now);
        PauseCarries(s, t, lim, account);
      case ConfigEvent(next) =>
      case StopEvent => PauseCarries(s, t, lim, account);
      case ShutdownEvent => ShutdownKeepsPause(s, lim, account);
    }
  }

  lemma DispatchSources(s: Loop, lim: Limits, env: DispatchEnv)
    requires Good(s, lim) && Known(s)
    ensures var t := DispatchOne(s, lim, env);
            && (forall id | id in t.queue :: id in s.queue)
            && (forall id | id in t.running :: id in s.running || id in s.queue)
  {
    hide Good, Inv, TakeRunnable, Drop, Check, Start;
    GoodQueue(s, lim);
    if |s.running| < lim.parallel && TakeRunnable(s).Some? {
      TakenIsLeast(s, lim);
      var id := TakeRunnable(s).value;
      var verdict := Check(s.daemon, env.guard, env.wizard, s.index[id].request);
      RemoveMembers(s.queue, id);
      if verdict.Refuse? {
        DropKeeps(s, lim, id, Failed, verdict.code);
      } else {
        StartFrame(s, id, env.now);
      }
    }
  }

  lemma ShutdownKeepsPause(s: Loop, lim: Limits, account: string)
    requires Good(s, lim) && PauseHolds(s, account)
    ensures PauseHolds(BeginShutdown(s, lim), account)
  {
    hide Inv, Evolves, DropAll, PauseHolds, Paused;
    PausedOf(s, account);
    BeginShutdownKeeps(s, lim);
    hide BeginShutdown;
    PauseCarries(s, BeginShutdown(s, lim), lim, account);
  }

  lemma FinishSettledKeepsPause(s: Loop, lim: Limits, e: Event, account: string)
    requires Good(s, lim) && PauseHolds(s, account) && e.FinishEvent?
    requires forall id | id in s.running :: id in s.index && s.index[id].state.Terminal()
    ensures PauseHolds(Finish(s, lim, e.id, e.out, e.io), account)
  {
    FinishKeeps(s, lim, e.id, e.out, e.io);
    TerminalFinishKeepsDaemon(s, lim, e.id, e.out, e.io);
    hide Inv, Evolves, Finish, PauseHolds, Paused;
    PausedOf(s, account);
    PauseCarries(s, Finish(s, lim, e.id, e.out, e.io), lim, account);
  }

  // ---------------------------------------------------------------------
  // Admission
  // ---------------------------------------------------------------------

  lemma {:induction false} SupersededMembers(s: Loop, r: Request, order: seq<ID>)
    ensures forall x :: x in Superseded(s, r, order) <==> x in order && x in s.index && Supersedes(r, s.index[x])
  {
    if order != [] {
      var n := |order| - 1;
      SupersededMembers(s, r, order[..n]);
      assert order == order[..n] + [order[n]];
      AppendMembers(Superseded(s, r, order[..n]), order[n]);
    }
  }

  /** An admitted logout leaves no automatic work of its account waiting or undisturbed. */
  lemma LogoutPauses(s: Loop, lim: Limits, request: Request, env: SubmitEnv)
    requires Good(s, lim) && !s.stop.Stopping? && request.kind.Logout? && Iterates(env.order, s.index)
    requires var reply := Submit(s, lim, request, env).1; reply.Accepted? && !reply.duplicate
    ensures PauseHolds(Submit(s, lim, request, env).0, request.accountID)
  {
    hide Good, Inv, Evolves, Submit, SubmitFresh, PauseHolds;
    FreshSubmission(s, lim, request, env);
    FreshLogoutPauses(s, lim, Sealed(lim, request), env);
  }

  lemma FreshLogoutPauses(s: Loop, lim: Limits, r: Request, env: SubmitEnv)
    requires Good(s, lim) && r.kind.Logout? && Iterates(env.order, s.index) && SubmitFresh(s, lim, r, env).1.Accepted?
    ensures PauseHolds(SubmitFresh(s, lim, r, env).0, r.accountID)
  {
    hide Good, Inv, Evolves, Check, Cleared, Enqueue, Iterates, PauseHolds, Paused;
    var (d, admitted) := Admit(s.daemon, r, env.clears, env.writes);
    var s1 := s.(daemon := d);
    DaemonKeeps(s, lim, d);
    var s2 := Cleared(s1, lim, r, env.order);
    ClearedKeeps(s1, lim, r, env.order);
    ClearedHolds(s1, lim, r, env.order);
    EnqueueHolds(s2, lim, r, env.now);
  }

  lemma ClearedHolds(s: Loop, lim: Limits, r: Request, order: seq<ID>)
    requires Good(s, lim) && r.kind.Logout? && Iterates(order, s.index) && Paused(s.daemon, r.accountID)
    ensures PauseHolds(Cleared(s, lim, r, order), r.accountID)
  {
    hide Good, Inv, Evolves, CancelAll, Superseded, Supersedes, Iterates, AutomaticFor, Paused;
    var ids := Superseded(s, r, order);
    var t := CancelAll(s, lim, ids);
    CancelAllKeeps(s, lim, ids);
    SupersededMembers(s, r, order);
    GoodQueue(s, lim);
    GoodQueue(t, lim);
    forall id | id in t.queue ensures !AutomaticFor(t.index[id], r.accountID) {
      LogoutSupersedes(s, r, order, id);
    }
    forall id | id in t.running
      ensures AutomaticFor(t.index[id], r.accountID) ==> t.index[id].state.Terminal() && t.running[id].cancelled {
      RunningRecord(t, lim, id);
      if id !in ids {
        LogoutSupersedes(s, r, order, id);
      }
    }
  }

  lemma LogoutSupersedes(s: Loop, r: Request, order: seq<ID>, id: ID)
    requires r.kind.Logout? && Iterates(order, s.index) && id in s.index
    ensures id in order
    ensures !Supersedes(r, s.index[id]) && !s.index[id].state.Terminal() ==> !AutomaticFor(s.index[id], r.accountID)
  {
  }

  lemma EnqueueHolds(s: Loop, lim: Limits, r: Request, now: Time)
    requires Good(s, lim) && PauseHolds(s, r.accountID) && r.kind.Manual()
    ensures PauseHolds(Enqueue(s, r, now), r.accountID)
  {
    hide Good, Inv, Paused;
    AppendMembers(s.queue, s.nextID + 1);
    NextIsFresh(s, lim);
    var t := Enqueue(s, r, now);
    assert forall x | x in s.index :: x in t.index && t.index[x] == s.index[x];
  }

  lemma NextIsFresh(s: Loop, lim: Limits)
    requires Good(s, lim)
    ensures s.nextID + 1 !in s.index && s.nextID + 1 !in s.running
  {
    assert forall x | x in s.index :: Record(s, x) && x <= s.nextID;
  }

  // ---------------------------------------------------------------------
  // Over a whole run
  // ---------------------------------------------------------------------

  /** Between the admission of a logout and the event that ends the pause, at every state. */
  lemma {:induction false} PauseOverRun(d: Daemon, lim: Limits, es: seq<Event>, i: nat, j: nat)
    requires ValidLimits(lim) && i < j <= |es| && !At(d, lim, es, i).stop.Stopping?
    requires es[i].SubmitEvent? && es[i].request.kind.Logout? && Enabled(At(d, lim, es, i), es[i])
    requires var reply := Submit(At(d, lim, es, i), lim, es[i].request, es[i].env).1; reply.Accepted? && !reply.duplicate
    requires forall k | i < k < j ::
               && At(d, lim, es, k + 1).daemon.config.revision == At(d, lim, es, k).daemon.config.revision
               && !Lifts(At(d, lim, es, k), es[k], es[i].request.accountID)
    ensures PauseHolds(At(d, lim, es, j), es[i].request.accountID)
    decreases j
  {
    hide Good, Inv, At, Known, Step, Halted, PauseHolds, Lifts, Submit, Iterates;
    var account := es[i].request.accountID;
    if j == i + 1 {
      AtStep(d, lim, es, i);
      StepOfSubmit(At(d, lim, es, i), lim, es[i]);
      LogoutPauses(At(d, lim, es, i), lim, es[i].request, es[i].env);
    } else {
      PauseOverRun(d, lim, es, i, j - 1);
      AtStep(d, lim, es, j - 1);
      RunHalted(d, lim, es, j - 1);
      StepKeepsPause(At(d, lim, es, j - 1), lim, es[j - 1], account);
      assert At(d, lim, es, j - 1 + 1) == At(d, lim, es, j);
    }
  }

  /** While the pause holds no automatic action of the account is handed to a worker. */
  lemma PausedNeverDispatches(s: Loop, lim: Limits, e: Event, id: ID, account: string)
    requires Good(s, lim) && Known(s) && PauseHolds(s, account)
    requires id !in s.running && id in Step(s, lim, e).running
    ensures var t := Step(s, lim, e);
            id in t.index && !AutomaticFor(t.index[id], account)
  {
    hide Good, Inv, TakeRunnable, Start, Step, Check;
    DispatchNumbers(s, lim, e, id);
    StartFrame(s, id, e.denv.now);
  }
}
