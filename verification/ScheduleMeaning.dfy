/**
 What the loop's operations promise, stated without the functions that compute them:
 which resource an action holds, how it is filed, who is refused and who is freed.
 Models core/internal/application/schedule.go.
 */
module ScheduleMeaning {
  import opened Wrappers
  import opened Actions
  import opened Ambient
  import opened Schedule
  import opened ScheduleInvariant
  import opened ScheduleSteps
  import opened ScheduleRuns

  // ---------------------------------------------------------------------
  // Submission
  // ---------------------------------------------------------------------

  /** What a submission under a new key must meet. */
  ghost predicate Admissible(s: Loop, lim: Limits, r: Request, env: SubmitEnv) {
    && env.guard.Pass? && env.wizard.Pass?
    && (r.checkRevision ==> r.configRevision == s.daemon.config.revision)
    && (r.kind.Manual() || !Paused(s.daemon, r.accountID))
    && |s.queue| < lim.queueLimit
    && (r.kind.Logout? ==>
          && r.accountID in s.daemon.config.accounts
          && (s.daemon.config.activeCampus != r.accountID || env.clears)
          && (Paused(s.daemon, r.accountID) || env.writes))
  }

  /**
   A new key is accepted exactly when the submission is admissible. The action then
   waits at the end of the queue under the next identifier, holding the line of its
   request, since now. A refusal changes nothing.
   */
  lemma SubmissionIs(s: Loop, lim: Limits, request: Request, env: SubmitEnv)
    requires Good(s, lim) && request.key !in s.byKey
    ensures var (t, reply) := Submit(s, lim, request, env);
            && (reply.Accepted? <==> Admissible(s, lim, request, env))
            && (reply.Refused? ==> t == s)
            && (reply.Accepted? ==>
                  && reply == Accepted(s.nextID + 1, Queued, false)
                  && reply.id in t.index && t.queue != [] && t.queue[|t.queue| - 1] == reply.id
                  && request.key in t.byKey && t.byKey[request.key] == reply.id
                  && t.index[reply.id] == Action(reply.id, request.(privateDigest := lim.digest(request.privateJSON)),
                                                 LineOf(s.daemon.config, request), Queued, NoPhase, NoCode, "", false, env.now, 0, 0, false))
  {
    hide Inv, Evolves, CancelAll, Superseded, LineOf;
    var r := Sealed(lim, request);
    SealedLine(s.daemon.config, lim, request);
    var (d, admitted) := Admit(s.daemon, r, env.clears, env.writes);
    DaemonKeeps(s, lim, d);
    var s1 := s.(daemon := d);
    CancelAllKeeps(s1, lim, Superseded(s1, r, env.order));
    AdmitMeans(s.daemon, r, env.clears, env.writes);
    hide Admit, SetPause;
  }

  lemma SealedLine(cfg: Config, lim: Limits, r: Request)
    ensures LineOf(cfg, Sealed(lim, r)) == LineOf(cfg, r)
  {
  }

  lemma AdmitMeans(d: Daemon, r: Request, clears: bool, writes: bool)
    ensures Admit(d, r, clears, writes).1.Pass? <==>
              (r.kind.Logout? ==>
                 && r.accountID in d.config.accounts
                 && (d.config.activeCampus != r.accountID || clears)
                 && (Paused(d, r.accountID) || writes))
  {
  }

  // ---------------------------------------------------------------------
  // What a worker occupies
  // ---------------------------------------------------------------------

  /** Every action that waits or runs holds the line of what its request occupies now. */
  ghost predicate Placed(s: Loop) {
    && (forall id | id in s.queue :: id in s.index && s.index[id].line == LineOf(s.daemon.config, s.index[id].request))
    && (forall id | id in s.running :: id in s.index && s.index[id].line == LineOf(s.daemon.config, s.index[id].request))
  }

  /** The parts of a configuration the line resolver reads. */
  predicate SameRouting(a: Config, b: Config) {
    a.staIface == b.staIface && a.accounts == b.accounts
  }

  lemma RoutingDecides(a: Config, b: Config, r: Request, q: Request)
    requires SameRouting(a, b) && Redacted(r) == Redacted(q)
    ensures LineOf(a, r) == LineOf(b, q)
  {
    var x, y := Redacted(r), Redacted(q);
    assert x.kind == y.kind && x.probeMode == y.probeMode && x.iface == y.iface && x.accountID == y.accountID;
  }

  lemma SettleKeepsRouting(d: Daemon, a: Action, overdue: bool, out: Outcome, io: FinalizeAnswers)
    ensures SameRouting(d.config, Settle(d, a, overdue, out, io).0.config)
  {
  }

  lemma FinishKeepsRouting(s: Loop, lim: Limits, id: ID, out: Outcome, io: FinalizeAnswers)
    requires Good(s, lim)
    ensures SameRouting(s.daemon.config, Finish(s, lim, id, out, io).daemon.config)
  {
    if id in s.index && id in s.running {
      RunningRecord(s, lim, id);
      hide Inv, Retire, Settle, Evolves, SameRouting;
      ReleasedKeeps(s, lim, id, out, io);
      SettleKeepsRouting(s.daemon, s.index[id], s.running[id].overdue, out, io);
      RetireKeeps(Released(s, id, out, io), lim, id);
    }
  }

  /** Only an idle loop takes a configuration that routes differently. */
  lemma RoutingMovesOnlyWhenIdle(s: Loop, lim: Limits, e: Event)
    requires Good(s, lim) && Known(s)
    ensures var t := Step(s, lim, e);
            SameRouting(s.daemon.config, t.daemon.config) || (t.queue == [] && t.running == map[])
  {
    hide Inv, Evolves, Submit, Cancel, DispatchOne, Finish, Progress, Expire, BeginShutdown, DropAll, MarkOverdue;
    match e {
      case SubmitEvent(r, env) =>
        if !s.stop.Stopping? {
          SubmitKeeps(s, lim, r, env);
        }
      case CancelEvent(id) => CancelKeeps(s, lim, id);
      case DispatchEvent(env) =>
        if !s.stop.Stopping? {
          DispatchOneKeeps(s, lim, env);
        }
      case FinishEvent(id, out, io) =>
        FinishKeepsRouting(s, lim, id, out, io);
        BeginShutdownKeeps(s, lim);
        FinishKeepsRouting(BeginShutdown(s, lim), lim, id, out, io);
      case ProgressEvent(id, phase) => ProgressKeeps(s, lim, id, phase);
      case ExpireEvent(now) => ExpireKeeps(s, lim, now);
      case ConfigEvent(next) =>
      case StopEvent =>
      case ShutdownEvent => BeginShutdownKeeps(s, lim);
    }
  }

  lemma OthersKeepNextID(s: Loop, lim: Limits, e: Event)
    requires Good(s, lim) && Known(s) && !e.SubmitEvent? && !e.FinishEvent?
    ensures Step(s, lim, e).nextID == s.nextID
  {
    hide Inv, Evolves, Cancel, DispatchOne, Progress, Expire, BeginShutdown, DropAll, MarkOverdue;
    match e {
      case CancelEvent(x) => CancelKeeps(s, lim, x);
      case DispatchEvent(env) =>
        if !s.stop.Stopping? {
          DispatchOneKeeps(s, lim, env);
        }
      case ProgressEvent(x, phase) => ProgressKeeps(s, lim, x, phase);
      case ExpireEvent(now) => ExpireKeeps(s, lim, now);
      case ConfigEvent(next) =>
      case StopEvent =>
      case ShutdownEvent => BeginShutdownKeeps(s, lim);
    }
  }

  lemma FinishKeepsNextID(s: Loop, lim: Limits, e: Event)
    requires Good(s, lim) && Known(s) && e.FinishEvent?
    ensures Step(s, lim, e).nextID == s.nextID
  {
    hide Inv, Evolves, Finish, BeginShutdown;
    FinishKeeps(s, lim, e.id, e.out, e.io);
    BeginShutdownKeeps(s, lim);
    FinishKeeps(BeginShutdown(s, lim), lim, e.id, e.out, e.io);
  }

  /** Nothing is born except by an accepted submission under a new key. */
  lemma BornBySubmission(s: Loop, lim: Limits, e: Event, id: ID)
    requires Good(s, lim) && Known(s) && Good(Step(s, lim, e), lim) && id > s.nextID && id in Step(s, lim, e).index
    ensures e.SubmitEvent? && !s.stop.Stopping? && e.request.key !in s.byKey
    ensures Submit(s, lim, e.request, e.env).1 == Accepted(id, Queued, false)
  {
    IndexedIsBorn(Step(s, lim, e), lim, id);
    if e.FinishEvent? {
      FinishKeepsNextID(s, lim, e);
    } else if !e.SubmitEvent? {
      OthersKeepNextID(s, lim, e);
    } else {
      StepOfSubmission(s, lim, e);
      if !s.stop.Stopping? {
        SubmittedIsNext(s, lim, e.request, e.env, id);
      }
    }
    hide Good, Known, Step, Submit;
  }

  lemma StepOfSubmission(s: Loop, lim: Limits, e: Event)
    requires Known(s) && e.SubmitEvent?
    ensures Step(s, lim, e) == if s.stop.Stopping? then s else Submit(s, lim, e.request, e.env).0
  {
    hide Known, Submit;
  }

  lemma SubmittedIsNext(s: Loop, lim: Limits, r: Request, env: SubmitEnv, id: ID)
    requires Good(s, lim) && !s.stop.Stopping? && id > s.nextID && id in Submit(s, lim, r, env).0.index
    ensures r.key !in s.byKey && Submit(s, lim, r, env).1 == Accepted(id, Queued, false)
  {
    KeysLive(s, lim, r.key);
    SubmitKeeps(s, lim, r, env);
    IndexedIsBorn(Submit(s, lim, r, env).0, lim, id);
    if r.key in s.byKey {
      OldKeyKeepsIndex(s, lim, r, env);
      IndexedIsBorn(s, lim, id);
    } else {
      SubmissionIs(s, lim, r, env);
      if Submit(s, lim, r, env).1.Refused? {
        IndexedIsBorn(s, lim, id);
      } else {
        NextIdentifier(s, lim, r, env);
      }
    }
  }

  lemma OldKeyKeepsIndex(s: Loop, lim: Limits, r: Request, env: SubmitEnv)
    requires r.key in s.byKey && s.byKey[r.key] in s.index
    ensures Submit(s, lim, r, env).0 == s
  {
  }

  lemma NextIdentifier(s: Loop, lim: Limits, r: Request, env: SubmitEnv)
    requires Good(s, lim) && r.key !in s.byKey && Submit(s, lim, r, env).1.Accepted?
    ensures Submit(s, lim, r, env).0.nextID == s.nextID + 1
  {
    FreshSubmission(s, lim, r, env);
    hide Inv, Submit;
  }

  lemma CarriedLine(s: Loop, t: Loop, id: ID)
    requires id in s.index && id in t.index && Ages(s.index[id], t.index[id]) && SameRouting(s.daemon.config, t.daemon.config)
    requires s.index[id].line == LineOf(s.daemon.config, s.index[id].request)
    ensures t.index[id].line == LineOf(t.daemon.config, t.index[id].request)
  {
    RoutingDecides(s.daemon.config, t.daemon.config, s.index[id].request, t.index[id].request);
  }

  lemma LivesOn(s: Loop, t: Loop, lim: Limits, id: ID)
    requires Good(s, lim) && Good(t, lim) && Evolves(s, t) && (id in t.queue || id in t.running) && id <= s.nextID
    ensures id in s.index && id in t.index && (id in s.queue || id in s.running) && Ages(s.index[id], t.index[id])
  {
    hide Inv;
    GoodQueue(t, lim);
    StageInIndex(t, lim, id);
    StageInIndex(s, lim, id);
    BornStage(s, id);
    assert Stage(s, id) <= Stage(t, id) <= 2;
  }

  lemma StepKeepsPlaced(s: Loop, lim: Limits, e: Event)
    requires Good(s, lim) && Known(s) && Placed(s)
    ensures Placed(Step(s, lim, e))
  {
    var t := Step(s, lim, e);
    StepKeeps(s, lim, e);
    RoutingMovesOnlyWhenIdle(s, lim, e);
    GoodQueue(t, lim);
    forall id | id in t.queue || id in t.running
      ensures id in t.index && t.index[id].line == LineOf(t.daemon.config, t.index[id].request)
    {
      PlacedAfter(s, lim, e, id);
    }
    hide Step, LineOf, Good, Known;
  }

  lemma PlacedAfter(s: Loop, lim: Limits, e: Event, id: ID)
    requires Good(s, lim) && Known(s) && Placed(s)
    requires var t := Step(s, lim, e);
             && Good(t, lim) && Evolves(s, t) && (id in t.queue || id in t.running)
             && (SameRouting(s.daemon.config, t.daemon.config) || (t.queue == [] && t.running == map[]))
    ensures var t := Step(s, lim, e); id in t.index && t.index[id].line == LineOf(t.daemon.config, t.index[id].request)
  {
    var t := Step(s, lim, e);
    hide Inv, Evolves, LineOf, Step, Good, Known, SameRouting, Ages;
    GoodQueue(t, lim);
    if id <= s.nextID {
      LivesOn(s, t, lim, id);
      CarriedLine(s, t, id);
    } else {
      BornBySubmission(s, lim, e, id);
      BornLine(s, lim, e, id);
    }
  }

  lemma BornLine(s: Loop, lim: Limits, e: Event, id: ID)
    requires Good(s, lim) && Known(s) && e.SubmitEvent? && !s.stop.Stopping? && e.request.key !in s.byKey
    requires Submit(s, lim, e.request, e.env).1 == Accepted(id, Queued, false)
    ensures var t := Step(s, lim, e); id in t.index && t.index[id].line == LineOf(t.daemon.config, t.index[id].request)
  {
    SubmissionIs(s, lim, e.request, e.env);
    SubmitKeeps(s, lim, e.request, e.env);
    SealedLine(s.daemon.config, lim, e.request);
    hide Inv, LineOf, Submit, Evolves;
  }

  lemma {:induction false} AlwaysPlaced(d: Daemon, lim: Limits, es: seq<Event>)
    requires ValidLimits(lim)
    ensures Placed(After(d, lim, es))
    decreases |es|
  {
    if es != [] {
      AlwaysPlaced(d, lim, es[..|es| - 1]);
      StepKeepsPlaced(After(d, lim, es[..|es| - 1]), lim, es[|es| - 1]);
    }
    hide Step, Good, Known, LineOf;
  }

  /** In every reachable state two workers, cancelled ones included, occupy two different resources under the configuration in force. */
  lemma WorkersOccupyDistinctResources(d: Daemon, lim: Limits, es: seq<Event>, a: ID, b: ID)
    requires ValidLimits(lim)
    ensures var s := After(d, lim, es);
            a in s.running && b in s.running && a != b ==>
              && a in s.index && b in s.index
              && Occupies(s.daemon.config, s.index[a].request) != Occupies(s.daemon.config, s.index[b].request)
  {
    var s := After(d, lim, es);
    AlwaysPlaced(d, lim, es);
    WorkersExclude(d, lim, es);
    hide Good, Known, After, Occupies, LineOf;
    if a in s.running && b in s.running && a != b {
      LinesMatchResources(s.daemon.config, s.index[a].request, s.index[b].request);
      PrefixedKey(s.daemon.config, s.index[a].request);
    }
  }

  // ---------------------------------------------------------------------
  // Completion
  // ---------------------------------------------------------------------

  /** How the action of a completion is filed. */
  ghost predicate FiledAs(s: Loop, t: Loop, id: ID, state: State, code: Code, result: string, deferred: bool) {
    && id !in t.running && id in t.index && id in t.terminals && id in s.index
    && t.index[id] == s.index[id].(state := state, code := code, result := result, deferred := deferred, retired := true,
         request := Redacted(s.index[id].request))
  }

  lemma FinishFiles(s: Loop, lim: Limits, id: ID, out: Outcome, io: FinalizeAnswers)
    requires Good(s, lim) && id in s.running && id in s.index
    ensures var (d, a) := Settle(s.daemon, s.index[id], s.running[id].overdue, out, io);
            var t := Finish(s, lim, id, out, io);
            && id !in t.running && id in t.terminals && id in t.index && t.daemon == d
            && t.index[id] == a.(retired := true, request := Redacted(a.request))
  {
    RunningRecord(s, lim, id);
    hide Inv, Retire, Settle, Evolves, Ages, Redacted;
    ReleasedKeeps(s, lim, id, out, io);
    RetireKeeps(Released(s, id, out, io), lim, id);
  }

  /** A failure the worker reports is filed with its own code. */
  lemma FailureIsFiled(s: Loop, lim: Limits, id: ID, out: Outcome, io: FinalizeAnswers)
    requires Good(s, lim) && id in s.running && id in s.index && !s.index[id].state.Terminal() && !s.running[id].overdue
    requires out.state.Failed? && |out.result| <= RESULT_LIMIT
    ensures FiledAs(s, Finish(s, lim, id, out, io), id, Failed, out.code, s.index[id].result, out.deferred)
    ensures Finish(s, lim, id, out, io).daemon == s.daemon
  {
    FinishFiles(s, lim, id, out, io);
    hide Good, Finish;
  }

  /** A success is filed as its finalization ends: succeeded with its result, or failed with the finalization's code. */
  lemma SuccessIsFiledAsFinalized(s: Loop, lim: Limits, id: ID, out: Outcome, io: FinalizeAnswers)
    requires Good(s, lim) && id in s.running && id in s.index && !s.index[id].state.Terminal() && !s.running[id].overdue
    requires out.state.Succeeded? && |Finalize(s.daemon, s.index[id].request, out, io).1.result| <= RESULT_LIMIT
    ensures var (d, final) := Finalize(s.daemon, s.index[id].request, out, io);
            var t := Finish(s, lim, id, out, io);
            && t.daemon == d && (final.state.Succeeded? || final.state.Failed?)
            && FiledAs(s, t, id, final.state, final.code, if final.state.Succeeded? then final.result else s.index[id].result, final.deferred)
  {
    FinishFiles(s, lim, id, out, io);
    hide Good, Finish, FinishSwitch, SetPause;
  }

  /** A report that is neither, or a result beyond the limit, is an internal failure. */
  lemma OddReportIsInternal(s: Loop, lim: Limits, id: ID, out: Outcome, io: FinalizeAnswers)
    requires Good(s, lim) && id in s.running && id in s.index && !s.index[id].state.Terminal() && !s.running[id].overdue
    requires || (!out.state.Succeeded? && !out.state.Failed?)
             || (out.state.Failed? && |out.result| > RESULT_LIMIT)
             || (out.state.Succeeded? && |Finalize(s.daemon, s.index[id].request, out, io).1.result| > RESULT_LIMIT)
    ensures FiledAs(s, Finish(s, lim, id, out, io), id, Failed, CodeInternal, s.index[id].result, false)
  {
    FinishFiles(s, lim, id, out, io);
    hide Good, Finish, FinishSwitch, SetPause;
  }

  /** An overdue worker's action fails with the deadline; one decided before keeps its decision. Neither is finalized. */
  lemma LateReportIsIgnored(s: Loop, lim: Limits, id: ID, out: Outcome, io: FinalizeAnswers)
    requires Good(s, lim) && id in s.running && id in s.index
    ensures var a, t := s.index[id], Finish(s, lim, id, out, io);
            && (a.state.Terminal() ==> FiledAs(s, t, id, a.state, a.code, a.result, a.deferred) && t.daemon == s.daemon)
            && (!a.state.Terminal() && s.running[id].overdue ==>
                  FiledAs(s, t, id, Failed, CodeDeadlineExceeded, a.result, a.deferred) && t.daemon == s.daemon)
  {
    FinishFiles(s, lim, id, out, io);
    hide Good, Finish;
  }

  /** A worker keeps its slot and its line until its own completion is seen, whatever else happens. */
  lemma OnlyItsCompletionFreesAWorker(s: Loop, lim: Limits, e: Event, id: ID)
    requires Good(s, lim) && Known(s) && id in s.running && id !in Step(s, lim, e).running
    ensures e.FinishEvent? && e.id == id
  {
    hide Good, Inv, Evolves, Finish, BeginShutdown, Known, Step;
    FinishLeaves(s, lim, e, id);
    var u := StepOfFinish(s, lim, e);
    FinishFreesOne(u, lim, e.id, e.out, e.io);
  }

  lemma StepOfFinish(s: Loop, lim: Limits, e: Event) returns (u: Loop)
    requires Good(s, lim) && Known(s) && e.FinishEvent?
    ensures Good(u, lim) && u.running.Keys == s.running.Keys && Step(s, lim, e) == Finish(u, lim, e.id, e.out, e.io)
  {
    hide Good, Inv, Evolves, Finish, BeginShutdown;
    BeginShutdownKeeps(s, lim);
    u := if s.stop.StopRequested? then BeginShutdown(s, lim) else s;
  }

  lemma FinishFreesOne(s: Loop, lim: Limits, id: ID, out: Outcome, io: FinalizeAnswers)
    requires Good(s, lim)
    ensures forall x | x in s.running && x != id :: x in Finish(s, lim, id, out, io).running
  {
    if id in s.index && id in s.running {
      RunningRecord(s, lim, id);
      hide Inv, Retire, Settle, Evolves;
      ReleasedKeeps(s, lim, id, out, io);
      RetireKeeps(Released(s, id, out, io), lim, id);
    }
  }

  // ---------------------------------------------------------------------
  // Cancelling
  // ---------------------------------------------------------------------

  /** Cancelling waiting work files it at once; cancelling running work decides it and leaves its worker its slot and line. */
  lemma CancellationIs(s: Loop, lim: Limits, id: ID)
    requires Good(s, lim)
    ensures var t := Cancel(s, lim, id);
            && (id !in s.index || s.index[id].state.Terminal() ==> t == s)
            && (id in s.queue ==>
                  && id !in t.queue && id in t.index && id in t.terminals
                  && t.index[id] == s.index[id].(state := Cancelled, code := CodeCancelled, retired := true, request := Redacted(s.index[id].request)))
            && (id in s.running && id in s.index && !s.index[id].state.Terminal() ==>
                  && t == s.(index := t.index, running := t.running) && t.running.Keys == s.running.Keys
                  && t.running[id] == s.running[id].(cancelled := true)
                  && id in t.index && t.index[id] == s.index[id].(state := Cancelled, code := CodeCancelled))
  {
    GoodQueue(s, lim);
    hide Inv, Drop;
    if id in s.queue {
      DropKeeps(s, lim, id, Cancelled, CodeCancelled);
      QueueHasNo(s, lim, id);
    }
  }

  lemma QueueHasNo(s: Loop, lim: Limits, id: ID)
    requires Good(s, lim) && id in s.queue
    ensures id !in Remove(s.queue, id)
  {
    GoodQueue(s, lim);
    RemoveMembers(s.queue, id);
  }

  // ---------------------------------------------------------------------
  // Dispatch
  // ---------------------------------------------------------------------

  /** What the check asks of an action about to start. */
  predicate Clear(d: Daemon, r: Request, env: DispatchEnv) {
    && env.guard.Pass? && env.wizard.Pass?
    && (r.checkRevision ==> r.configRevision == d.config.revision)
    && (r.kind.Manual() || !Paused(d, r.accountID))
  }

  /** The first thing the check minds: the update guard, the revision, a pause, the wizard. */
  function RefusalCode(d: Daemon, r: Request, env: DispatchEnv): Code {
    if env.guard.Refuse? then env.guard.code
    else if r.checkRevision && r.configRevision != d.config.revision then CodeConflict
    else if !r.kind.Manual() && Paused(d, r.accountID) then CodeBusy
    else if env.wizard.Refuse? then env.wizard.code
    else NoCode
  }

  /** An action taken is either refused by the check, and filed as failed with its code, or started now. */
  lemma DispatchIs(s: Loop, lim: Limits, env: DispatchEnv)
    requires Good(s, lim) && Known(s) && |s.running| < lim.parallel && TakeRunnable(s).Some?
    ensures var id, t := TakeRunnable(s).value, DispatchOne(s, lim, env);
            && id in s.index && id in t.index && id !in t.queue
            && if Clear(s.daemon, s.index[id].request, env) then
                 && id in t.running && t.running[id] == Run(s.index[id].line, false, false)
                 && t.index[id] == s.index[id].(state := Running, startedAt := env.now, sequence := s.nextSeq + 1, phase := WaitingLink)
               else
                 && id !in t.running && t.index[id].state.Failed? && id in t.terminals
                 && t.index[id].code == RefusalCode(s.daemon, s.index[id].request, env)
  {
    TakenIsLeast(s, lim);
    var id := TakeRunnable(s).value;
    QueueHasNo(s, lim, id);
    QueuedState(s, lim, id);
    hide Good, Inv, Eligible, RunsFirst, SwitchRunning, Drop, TakeRunnable, Paused, Start;
    if Clear(s.daemon, s.index[id].request, env) {
      StartedNow(s, id, env.now);
    } else {
      var verdict := Check(s.daemon, env.guard, env.wizard, s.index[id].request);
      DropKeeps(s, lim, id, Failed, verdict.code);
    }
  }

  lemma StartedNow(s: Loop, id: ID, now: Time)
    requires id in s.index && s.index[id].state.Queued? && id !in Remove(s.queue, id)
    ensures var t := Start(s, id, now);
            && id !in t.queue && id in t.running && t.running[id] == Run(s.index[id].line, false, false)
            && id in t.index && t.index[id] == s.index[id].(state := Running, startedAt := now, sequence := s.nextSeq + 1, phase := WaitingLink)
  {
  }

  lemma QueuedState(s: Loop, lim: Limits, id: ID)
    requires Good(s, lim) && id in s.queue
    ensures id in s.index && s.index[id].state.Queued? && id !in s.running
  {
    QueuedRecord(s, id);
  }

  // ---------------------------------------------------------------------
  // Who yields to whom
  // ---------------------------------------------------------------------

  /**
   Submitting a switch the user asked for calls off every undecided scheduled switch;
   a logout calls off the scheduled switches and all automatic work of its own account;
   nothing else is called off.
   */
  lemma SupersededExactly(r: Request, previous: Action)
    requires !previous.state.Terminal()
    ensures ClearsSchedule(r.kind) ==>
              (Supersedes(r, previous) <==>
                 if r.kind.Logout? then
                   previous.request.accountID == r.accountID
                   && previous.request.kind in {Maintain, ForcedLogout, QuietHotspot, QuietCampus, PresetsRefresh}
                 else previous.request.kind in {QuietHotspot, QuietCampus})
    ensures ClearsSchedule(r.kind) <==> r.kind in {SwitchCampus, SwitchHotspot, Logout}
  {
  }

  /** Finished actions are remembered newest last, the oldest forgotten first. */
  lemma HistoryKeepsTheNewest(s: Loop, lim: Limits, id: ID)
    requires ValidLimits(lim) && |s.terminals| <= lim.history
    requires id in s.index && !s.index[id].retired && s.index[id].state.Terminal()
    ensures var all := s.terminals + [id];
            Retire(s, lim, id).terminals == if |all| <= lim.history then all else all[1..]
  {
    RetireShape(s, lim, id);
  }

  /**
   The order between kinds: whatever a user asked for, then the quiet boundary, then
   maintenance, then the preset refresh; among equals arrival, then submission.
   */
  lemma WhoGoesFirst(a: Action, b: Action)
    ensures var boundary, automatic := {ForcedLogout, QuietHotspot, QuietCampus}, {Maintain, ForcedLogout, QuietHotspot, QuietCampus, PresetsRefresh};
            var x, y := a.request.kind, b.request.kind;
            && (x !in automatic && y in automatic ==> RunsFirst(a, b))
            && (x in boundary && y in {Maintain, PresetsRefresh} ==> RunsFirst(a, b))
            && (x.Maintain? && y.PresetsRefresh? ==> RunsFirst(a, b))
            && ((x in automatic <==> y in automatic) && (x in boundary <==> y in boundary) && (x.Maintain? <==> y.Maintain?) ==>
                  (RunsFirst(a, b) <==> a.queuedAt < b.queuedAt || (a.queuedAt == b.queuedAt && a.id < b.id)))
  {
  }

  /** In every reachable state a logout, a switch, a scheduled transition or a wizard step that runs is all that runs. */
  lemma ExclusiveKindsRunAlone(d: Daemon, lim: Limits, es: seq<Event>, id: ID)
    requires ValidLimits(lim)
    ensures var s := After(d, lim, es);
            id in s.running && id in s.index
            && s.index[id].request.kind in {Logout, SwitchCampus, SwitchHotspot, QuietHotspot, QuietCampus, WifiSetupStart, WifiSetupCancel} ==>
              s.running.Keys == {id}
  {
    WorkersExclude(d, lim, es);
    hide After, Good, Known;
  }

  /** A login, relogin or campus switch filed as succeeded leaves its account not paused. */
  lemma SuccessLiftsThePause(s: Loop, lim: Limits, id: ID, out: Outcome, io: FinalizeAnswers)
    requires Good(s, lim) && id in s.running && id in s.index && !s.index[id].state.Terminal()
    requires s.index[id].request.kind in {Login, Relogin, SwitchCampus}
    ensures var t := Finish(s, lim, id, out, io);
            id in t.index && t.index[id].state.Succeeded? ==> !Paused(t.daemon, s.index[id].request.accountID)
  {
    FinishFiles(s, lim, id, out, io);
    SettledSuccessUnpauses(s.daemon, s.index[id], s.running[id].overdue, out, io);
    hide Good, Finish, Settle, Paused;
  }

  lemma SettledSuccessUnpauses(d: Daemon, a: Action, overdue: bool, out: Outcome, io: FinalizeAnswers)
    requires !a.state.Terminal() && a.request.kind in {Login, Relogin, SwitchCampus}
    ensures var (next, b) := Settle(d, a, overdue, out, io);
            b.state.Succeeded? ==> !Paused(next, a.request.accountID)
  {
    FinalizedSuccessUnpauses(d, a.request, Judged(out), io);
    hide Finalize, Paused;
  }

  lemma FinalizedSuccessUnpauses(d: Daemon, r: Request, out: Outcome, io: FinalizeAnswers)
    requires r.kind in {Login, Relogin, SwitchCampus}
    ensures Finalize(d, r, out, io).1.state.Succeeded? ==> !Paused(Finalize(d, r, out, io).0, r.accountID)
  {
    hide FinishSwitch, Paused;
  }
}
