/**
 The coordinator as the program runs it: an object whose loop-owned fields are
 updated in place, step by step. Every method is proved to compute the
 corresponding function of Schedule.dfy.
 Models core/internal/application/schedule.go and coordinator.go.
 */
module CoordinatorLoop {
  import opened Wrappers
  import opened Actions
  import opened Ambient
  import opened Schedule
  import opened ScheduleInvariant
  import opened ScheduleSteps
  import opened ScheduleOrder

  const QUEUE_LIMIT: int := 32
  const TERMINAL_HISTORY: int := 64
  const MAX_CONCURRENT_LINES: int := 4
  const SECOND: int := 1_000_000_000
  const QUEUE_WAIT: int := 30 * SECOND
  const ACTION_BUDGET: int := 600 * SECOND

  /** orDefaultInt and orDefault. */
  function OrDefault(value: int, fallback: int): (r: int)
    requires fallback > 0
    ensures r > 0 && (value > 0 ==> r == value)
  {
    if value <= 0 then fallback else value
  }

  /** A worker's completion message. */
  datatype Completion = Completion(id: ID, out: Outcome, io: FinalizeAnswers)

  lemma {:induction false} RemoveAbsent(ids: seq<ID>, id: ID)
    requires id !in ids
    ensures Remove(ids, id) == ids
  {
    if ids != [] {
      RemoveAbsent(ids[1..], id);
    }
  }

  /** Filing never looks at the queue. */
  lemma RetireIgnoresQueue(s: Loop, lim: Limits, id: ID, queue: seq<ID>)
    ensures Retire(s.(queue := queue), lim, id) == Retire(s, lim, id).(queue := queue)
  {
    if id in s.index && !s.index[id].retired && s.index[id].state.Terminal() {
      EvictIgnoresQueue(Filed(s, id), lim.history, queue);
      assert Filed(s.(queue := queue), id) == Filed(s, id).(queue := queue);
    }
  }

  lemma {:induction false} EvictIgnoresQueue(s: Loop, history: nat, queue: seq<ID>)
    ensures Evict(s.(queue := queue), history) == Evict(s, history).(queue := queue)
    decreases |s.terminals|
  {
    if |s.terminals| > history {
      assert DropOldest(s.(queue := queue)) == DropOldest(s).(queue := queue);
      EvictIgnoresQueue(DropOldest(s), history, queue);
    }
  }

  class Coordinator {
    const lim: Limits

    var queue: seq<ID>
    var index: map<ID, Action>
    var byKey: map<string, ID>
    var running: map<ID, Run>
    var busyLines: map<string, ID>
    var terminals: seq<ID>
    var nextID: nat
    var nextSeq: nat
    var stop: Stop
    var daemon: Daemon

    ghost function View(): Loop
      reads this
    {
      Loop(queue, index, byKey, running, busyLines, terminals, nextID, nextSeq, stop, daemon)
    }

    ghost predicate Valid()
      reads this
    {
      Good(View(), lim)
    }

    constructor (parallel: int, queueLimit: int, history: int, queueWait: int, actionBudget: int, digest: string -> Digest, d: Daemon)
      ensures Valid() && View() == Initial(d)
    {
      lim := Limits(OrDefault(parallel, MAX_CONCURRENT_LINES), OrDefault(queueLimit, QUEUE_LIMIT), OrDefault(history, TERMINAL_HISTORY),
                    OrDefault(queueWait, QUEUE_WAIT), OrDefault(actionBudget, ACTION_BUDGET), digest);
      queue, index, byKey, running, busyLines, terminals := [], map[], map[], map[], map[], [];
      nextID, nextSeq, stop, daemon := 0, 0, Serving, d;
      new;
      InitialGood(d, lim);
    }

    /** retire: file a finished action and evict past the history bound. */
    method RetireAction(id: ID)
      requires id in index
      modifies this
      ensures View() == Retire(old(View()), lim, id)
    {
      var action := index[id];
      if action.retired || !action.state.Terminal() {
        return;
      }
      index := index[id := action.(retired := true, request := Redacted(action.request))];
      terminals := terminals + [id];
      ghost var filed := View();
      while |terminals| > lim.history
        invariant Evict(View(), lim.history) == Evict(filed, lim.history)
        decreases |terminals|
      {
        var oldest := terminals[0];
        terminals := terminals[1..];
        if oldest in index {
          var key := index[oldest].request.key;
          if key in byKey && byKey[key] == oldest {
            byKey := byKey - {key};
          }
          index := index - {oldest};
        }
      }
    }

    method RemoveFromQueue(id: ID)
      requires Distinct(queue)
      modifies this`queue
      ensures queue == Remove(old(queue), id)
    {
      for i := 0 to |queue|
        invariant queue == old(queue)
        invariant id !in queue[..i]
      {
        if queue[i] == id {
          RemoveAt(queue, i);
          queue := queue[..i] + queue[i + 1..];
          return;
        }
      }
      assert queue[..|queue|] == queue;
      RemoveAbsent(queue, id);
    }

    /** onCancel. */
    method OnCancel(id: ID) returns (verdict: Verdict)
      requires Valid()
      modifies this
      ensures Valid() && View() == Cancel(old(View()), lim, id)
      ensures verdict == (if id in old(index) then Pass else Refuse(CodeNotFound))
    {
      hide Good, Inv, Evolves, Retire, CancelFrame;
      ghost var s := View();
      CancelKeeps(s, lim, id);
      GoodQueue(s, lim);
      if id !in index {
        return Refuse(CodeNotFound);
      }
      if index[id].state.Terminal() {
        return Pass;
      }
      index := index[id := index[id].Transition(Cancelled, 0).(code := CodeCancelled)];
      if id in running {
        running := running[id := running[id].(cancelled := true)];
        return Pass;
      }
      RemoveFromQueue(id);
      RetireAction(id);
      return Pass;
    }

    /** onSubmit. The iteration order of the index map comes with the environment. */
    method OnSubmit(request: Request, env: SubmitEnv) returns (reply: Reply)
      requires Valid() && !stop.Stopping? && Iterates(env.order, index)
      modifies this
      ensures Valid() && (View(), reply) == Submit(old(View()), lim, request, env)
    {
      hide Good, Inv, Evolves, SubmitFresh, Fingerprint;
      SubmitKeeps(View(), lim, request, env);
      KeysLive(View(), lim, request.key);
      var r := request.(privateDigest := lim.digest(request.privateJSON));
      if r.key in byKey {
        var existing := byKey[r.key];
        if Fingerprint(index[existing].request) != Fingerprint(r) {
          return Refused(CodeConflict);
        }
        return Accepted(existing, index[existing].state, true);
      }
      reply := SubmitNew(r, env);
    }

    /** The part of onSubmit behind the idempotency key. */
    method SubmitNew(r: Request, env: SubmitEnv) returns (reply: Reply)
      requires Valid() && !stop.Stopping? && Iterates(env.order, index)
      modifies this
      ensures (View(), reply) == SubmitFresh(old(View()), lim, r, env)
    {
      hide Good, Inv, Evolves, Check, Admit, CancelAll, Superseded, Enqueue, Iterates;
      ghost var s := View();
      var verdict := Check(daemon, env.guard, env.wizard, r);
      if verdict.Refuse? {
        return Refused(verdict.code);
      }
      if |queue| >= lim.queueLimit {
        return Refused(CodeBusy);
      }
      var (d, admitted) := Admit(daemon, r, env.clears, env.writes);
      if admitted.Refuse? {
        return Refused(admitted.code);
      }
      DaemonKeeps(s, lim, d);
      daemon := d;
      if ClearsSchedule(r.kind) {
        CancelSuperseded(r, env.order);
      }
      AddToQueue(r, env.now);
      reply := Accepted(nextID, Queued, false);
    }

    method AddToQueue(r: Request, now: Time)
      modifies this
      ensures View() == Enqueue(old(View()), r, now) && nextID == old(nextID) + 1
    {
      nextID := nextID + 1;
      var action := Action(nextID, r, LineOf(daemon.config, r), Queued, NoPhase, NoCode, "", false, now, 0, 0, false);
      index := index[action.id := action];
      byKey := byKey[r.key := action.id];
      queue := queue + [action.id];
    }

    /** The supersession loop of onSubmit: collect, then cancel. */
    method CancelSuperseded(r: Request, order: seq<ID>)
      requires Valid() && Iterates(order, index)
      modifies this
      ensures Valid() && View() == CancelAll(old(View()), lim, Superseded(old(View()), r, order))
    {
      ghost var s := View();
      hide Inv, Valid;
      var superseded: seq<ID> := [];
      for i := 0 to |order|
        invariant View() == s
        invariant superseded == Superseded(s, r, order[..i])
      {
        assert order[..i + 1][..i] == order[..i];
        assert order[i] in order;
        if Supersedes(r, index[order[i]]) {
          superseded := superseded + [order[i]];
        }
      }
      assert order[..|order|] == order;
      for i := 0 to |superseded|
        invariant Valid() && View() == CancelAll(s, lim, superseded[..i])
      {
        assert superseded[..i + 1][..i] == superseded[..i];
        var _ := OnCancel(superseded[i]);
      }
      assert superseded[..|superseded|] == superseded;
    }
  
    // -------------------------------------------------------------------
    // Dispatch
    // -------------------------------------------------------------------

    method IsRefreshRunning() returns (found: bool)
      requires Known(View())
      ensures found == RefreshRunning(View())
    {
      var todo := running.Keys;
      while todo != {}
        invariant todo <= running.Keys
        invariant forall id | id in running && id !in todo :: !index[id].request.kind.PresetsRefresh?
      {
        var id :| id in todo;
        if index[id].request.kind.PresetsRefresh? {
          return true;
        }
        todo := todo - {id};
      }
      return false;
    }

    method IsSwitchRunning() returns (found: bool)
      requires Known(View())
      ensures found == SwitchRunning(View())
    {
      var todo := running.Keys;
      while todo != {}
        invariant todo <= running.Keys
        invariant forall id | id in running && id !in todo :: !index[id].request.kind.Switches()
      {
        var id :| id in todo;
        if index[id].request.kind.Switches() {
          return true;
        }
        todo := todo - {id};
      }
      return false;
    }

    /** takeRunnable: remove and return the queued action that should run next. */
    method Take() returns (taken: Option<ID>)
      requires Valid() && Known(View())
      modifies this`queue
      ensures taken == TakeRunnable(old(View()))
      ensures View() == (if taken.None? then old(View()) else old(View()).(queue := Remove(old(queue), taken.value)))
    {
      hide Good, Inv, RunsFirst, SwitchRunning, RefreshRunning;
      ghost var s := View();
      GoodQueue(s, lim);
      var blocked := IsSwitchRunning();
      if blocked {
        return None;
      }
      var chosen := -1;
      for i := 0 to |queue|
        invariant View() == s && -1 <= chosen < i
        invariant Best(s, i) == (if chosen < 0 then None else Some(queue[chosen]))
      {
        var action := index[queue[i]];
        var skip := false;
        if action.request.kind.PresetsRefresh? {
          skip := IsRefreshRunning();
        }
        if action.line != "" && !action.request.kind.Switches() && action.line in busyLines {
          skip := true;
        }
        assert Eligible(s, queue[i]) == !skip;
        if !skip && (chosen < 0 || RunsFirst(action, index[queue[chosen]])) {
          chosen := i;
        }
      }
      if chosen < 0 {
        return None;
      }
      var id := queue[chosen];
      if index[id].request.kind.Switches() && |running| != 0 {
        return None;
      }
      RemoveAt(queue, chosen);
      queue := queue[..chosen] + queue[chosen + 1..];
      return Some(id);
    }

    /** startAction. */
    method StartAction(id: ID, now: Time)
      requires id in index && id !in queue
      modifies this
      ensures View() == Start(old(View()), id, now)
    {
      RemoveAbsent(queue, id);
      nextSeq := nextSeq + 1;
      var action := index[id].Transition(Running, now).(sequence := nextSeq, phase := WaitingLink);
      index := index[id := action];
      running := running[id := Run(action.line, false, false)];
      if action.line != "" {
        busyLines := busyLines[action.line := id];
      }
    }

    /** One turn of the dispatch loop after an action was taken. */
    method StartOrRefuse(id: ID, env: DispatchEnv)
      requires id in index && id !in queue
      modifies this
      ensures View() == (var verdict := Check(old(daemon), env.guard, env.wizard, old(index)[id].request);
                         if verdict.Refuse? then Drop(old(View()), lim, id, Failed, verdict.code) else Start(old(View()), id, env.now))
    {
      hide Retire, Start, Check;
      RemoveAbsent(queue, id);
      var verdict := Check(daemon, env.guard, env.wizard, index[id].request);
      if verdict.Refuse? {
        index := index[id := index[id].Transition(Failed, env.now).(code := verdict.code)];
        RetireAction(id);
      } else {
        StartAction(id, env.now);
      }
    }

    method DispatchAll(env: nat -> DispatchEnv)
      requires Valid() && Known(View()) && !stop.Stopping?
      modifies this
      ensures Valid() && Known(View()) && View() == Dispatch(old(View()), lim, env, 0)
    {
      hide Good, Inv, TakeRunnable, Drop, Start, Check;
      ghost var s := View();
      var i := 0;
      while |running| < lim.parallel
        invariant Valid() && Known(View()) && !stop.Stopping?
        invariant Dispatch(View(), lim, env, i) == Dispatch(s, lim, env, 0)
        decreases |queue|
      {
        ghost var before := View();
        var taken := Take();
        if taken.None? {
          break;
        }
        var id := taken.value;
        TakenIsLeast(before, lim);
        GoodQueue(before, lim);
        RemoveMembers(before.queue, id);
        StartOrRefuse(id, env(i));
        AfterTaking(before, lim, id, env(i));
        DispatchOneKeeps(before, lim, env(i));
        i := i + 1;
      }
    }
  
    // -------------------------------------------------------------------
    // Completion and progress
    // -------------------------------------------------------------------

    /** onFinish: apply a worker's result, release its line, file the action. */
    method OnFinish(done: Completion)
      requires Valid()
      modifies this
      ensures Valid() && View() == Finish(old(View()), lim, done.id, done.out, done.io)
    {
      hide Good, Inv, Evolves, Retire, Finalize;
      FinishKeeps(View(), lim, done.id, done.out, done.io);
      if done.id !in index || done.id !in running {
        return;
      }
      var action, handle := index[done.id], running[done.id];
      running := running - {done.id};
      if handle.line != "" && handle.line in busyLines && busyLines[handle.line] == done.id {
        busyLines := busyLines - {handle.line};
      }
      if handle.overdue && !action.state.Terminal() {
        action := action.Transition(Failed, 0).(code := CodeDeadlineExceeded);
      } else if !action.state.Terminal() {
        var outcome := done.out;
        if !outcome.state.Succeeded? && !outcome.state.Failed? {
          outcome := Outcome(Failed, CodeInternal, "", false);
        }
        if outcome.state.Succeeded? {
          var (d, final) := Finalize(daemon, action.request, outcome, done.io);
          daemon, outcome := d, final;
        }
        if |outcome.result| > RESULT_LIMIT {
          outcome := Outcome(Failed, CodeInternal, "", false);
        }
        action := action.Transition(outcome.state, 0);
        action := action.(code := outcome.code, deferred := outcome.deferred,
                          result := if outcome.state.Succeeded? then outcome.result else action.result);
      }
      index := index[done.id := action];
      RetireAction(done.id);
    }

    /** onPhase: progress of an action that is no longer running is dropped. */
    method OnPhase(id: ID, phase: Phase)
      requires Valid()
      modifies this`index
      ensures Valid() && View() == Progress(old(View()), id, phase)
    {
      hide Good, Inv, Evolves;
      ProgressKeeps(View(), lim, id, phase);
      if phase.NoPhase? || id !in index || index[id].state.Terminal() || id !in running {
        return;
      }
      index := index[id := index[id].(phase := phase)];
    }

    // -------------------------------------------------------------------
    // Deadlines
    // -------------------------------------------------------------------

    /** A waiting action ends where it stands; `done` is the state with the queue already cut. */
    method EndQueued(id: ID, state: State, code: Code, ghost done: Loop)
      requires Good(done, lim) && id in done.queue && state.Terminal() && View() == done.(queue := queue)
      modifies this
      ensures View() == Drop(done, lim, id, state, code).(queue := old(queue))
    {
      hide Good, Inv, Retire;
      GoodQueue(done, lim);
      RetireIgnoresQueue(Unqueue(done, id, state, code), lim, id, queue);
      index := index[id := index[id].Transition(state, 0).(code := code)];
      RetireAction(id);
    }

    method ExpireQueue(now: Time)
      requires Valid()
      modifies this
      ensures View() == DropAll(old(View()), lim, Stale(old(View()), lim, now, |old(queue)|), Failed, CodeDeadlineExceeded)
    {
      hide Good, Inv, Drop, DropAll, Stale;
      ghost var s := View();
      var waiting, kept := queue, [];
      StaleStart(s, lim, now);
      for i := 0 to |waiting|
        invariant View() == Expired(s, lim, now, i).(queue := queue) && Expired(s, lim, now, i).queue == kept + waiting[i..]
      {
        var id := waiting[i];
        StaleStep(s, lim, now, i, kept);
        if now - index[id].queuedAt < lim.queueWait {
          kept := kept + [id];
        } else {
          EndQueued(id, Failed, CodeDeadlineExceeded, Expired(s, lim, now, i));
        }
      }
      queue := kept;
    }

    /** expire: fail what waited too long, mark overdue what ran too long. */
    method ExpireAll(now: Time)
      requires Valid()
      modifies this
      ensures Valid() && View() == Expire(old(View()), lim, now)
    {
      hide Good, Inv, Evolves, DropAll, Stale, Dropped, Touches, RanTooLong;
      ExpireKeeps(View(), lim, now);
      ExpireQueue(now);
      ghost var s := View();
      var todo := running.Keys;
      while todo != {}
        invariant todo <= running.Keys == s.running.Keys && View() == s.(running := running)
        invariant forall id | id in s.running ::
          running[id] == if id !in todo && RanTooLong(s, lim, id, now) then s.running[id].(overdue := true, cancelled := true) else s.running[id]
      {
        var id :| id in todo;
        todo := todo - {id};
        OverdueTest(s, lim, id, now);
        if !running[id].overdue && id in index && now - index[id].startedAt >= lim.actionBudget {
          running := running[id := running[id].(overdue := true, cancelled := true)];
        }
      }
      assert running == MarkOverdue(s, lim, now).running;
    }

    /** The queue half of nextDeadline; `seen` is what the search has considered. */
    method ScanQueue() returns (soonest: Time, ghost seen: seq<Time>)
      requires Valid()
      ensures soonest == Soonest(seen) && (forall at | at in seen :: Deadline(View(), lim, at))
      ensures forall id | id in queue :: id in index && index[id].queuedAt + lim.queueWait in seen
    {
      hide Good, Inv, Soonest, Deadline;
      GoodQueue(View(), lim);
      soonest, seen := ZERO_TIME, [];
      EmptySoonest();
      for i := 0 to |queue|
        invariant soonest == Soonest(seen) && (forall at | at in seen :: Deadline(View(), lim, at))
        invariant forall k | 0 <= k < i :: index[queue[k]].queuedAt + lim.queueWait in seen
      {
        var at := index[queue[i]].queuedAt + lim.queueWait;
        IsDeadline(View(), lim, queue[i], at);
        AppendSoonest(seen, at);
        if soonest == ZERO_TIME || at < soonest {
          soonest := at;
        }
        seen := seen + [at];
      }
    }

    /** The worker half of nextDeadline, in whatever order the map is iterated. */
    method ScanRunning(from: Time, ghost before: seq<Time>) returns (soonest: Time, ghost seen: seq<Time>)
      requires Valid() && from == Soonest(before) && forall at | at in before :: Deadline(View(), lim, at)
      ensures soonest == Soonest(seen) && (forall at | at in seen :: Deadline(View(), lim, at))
      ensures forall at | at in before :: at in seen
      ensures forall id | id in running && !running[id].overdue :: id in index && index[id].startedAt + lim.actionBudget in seen
    {
      hide Good, Inv, Soonest, Deadline;
      GoodQueue(View(), lim);
      soonest, seen := from, before;
      var todo := running.Keys;
      while todo != {}
        invariant todo <= running.Keys && soonest == Soonest(seen) && (forall at | at in seen :: Deadline(View(), lim, at))
        invariant forall at | at in before :: at in seen
        invariant forall id | id in running && id !in todo && !running[id].overdue :: index[id].startedAt + lim.actionBudget in seen
      {
        var id :| id in todo;
        todo := todo - {id};
        if !running[id].overdue {
          var at := index[id].startedAt + lim.actionBudget;
          IsDeadline(View(), lim, id, at);
          AppendSoonest(seen, at);
          if soonest == ZERO_TIME || at < soonest {
            soonest := at;
          }
          seen := seen + [at];
        }
      }
    }

    /**
     nextDeadline. The instant zero doubles as "none yet", so the answer is the
     earliest deadline exactly when that deadline is not the zero instant.
     */
    method NextDeadline() returns (soonest: Time, found: bool)
      requires Valid()
      ensures found ==> Deadline(View(), lim, soonest)
      ensures forall least | IsNextDeadline(View(), lim, least) :: (found && soonest == least) <==> least != ZERO_TIME
      ensures Wakes(View(), lim, soonest, found) <==> !IsNextDeadline(View(), lim, ZERO_TIME)
    {
      hide Good, Inv, Soonest, Deadline, Wakes;
      ghost var queued, seen;
      soonest, queued := ScanQueue();
      soonest, seen := ScanRunning(soonest, queued);
      found := soonest != ZERO_TIME;
      AllSeen(View(), lim, seen);
      SoonestMember(seen);
      forall least | IsNextDeadline(View(), lim, least) && least != ZERO_TIME ensures soonest == least {
        SoonestIsLeast(seen, least);
      }
      WakesIffLeast(View(), lim, soonest, found);
      if at :| Deadline(View(), lim, at) {
        var least := LeastDeadlineExists(View(), lim, at);
      }
    }

    // -------------------------------------------------------------------
    // Configuration and shutdown
    // -------------------------------------------------------------------

    /** ChangeConfiguration: `next` is what the callback's transaction made visible. */
    method Reconfigure(next: Config) returns (verdict: Verdict)
      requires Valid()
      modifies this`daemon
      ensures Valid() && (View(), verdict) == ChangeConfiguration(old(View()), next)
    {
      hide Good, Inv, Evolves;
      ChangeConfigurationKeeps(View(), lim, next);
      if |queue| != 0 || |running| != 0 {
        return Refuse(CodeBusy);
      }
      if next.revision == daemon.config.revision + 1 {
        daemon := daemon.(config := next);
      }
      return Pass;
    }

    method InterruptQueue()
      requires Valid()
      modifies this
      ensures View() == DropAll(old(View()), lim, old(queue), Interrupted, NoCode)
    {
      hide Good, Inv, Drop, DropAll;
      ghost var s := View();
      HaltingStart(s, lim);
      for i := 0 to |queue|
        invariant queue == s.queue
        invariant View() == Halting(s, lim, i).(queue := queue) && Halting(s, lim, i).queue == queue[i..]
      {
        HaltingStep(s, lim, i);
        EndQueued(queue[i], Interrupted, NoCode, Halting(s, lim, i));
      }
      assert queue[..|queue|] == queue && queue[|queue|..] == [];
      queue := [];
    }

    method InterruptWorkers()
      modifies this
      ensures View() == InterruptRunning(old(View()))
    {
      hide RunningBut, IndexBut, InterruptRunning;
      ghost var s := View();
      var todo := running.Keys;
      InterruptStart(s);
      while todo != {}
        invariant todo <= s.running.Keys && running == RunningBut(s, todo) && index == IndexBut(s, todo)
        invariant View() == s.(running := running, index := index)
      {
        var id :| id in todo;
        InterruptStep(s, todo, id);
        running := running[id := running[id].(cancelled := true)];
        if id in index {
          index := index[id := index[id].Transition(Interrupted, 0)];
        }
        todo := todo - {id};
      }
      InterruptEnd(s);
      stop := Stopping;
    }

    /** shutdown: interrupt everything, then apply the completion that arrived with the stop. */
    method Shutdown(pending: Option<Completion>)
      requires Valid() && !stop.Stopping?
      modifies this
      ensures Valid()
      ensures View() == (var halted := BeginShutdown(old(View()), lim);
                         if pending.None? then halted else Finish(halted, lim, pending.value.id, pending.value.out, pending.value.io))
    {
      hide Good, Inv, Evolves, DropAll, Dropped, Touches, Finish, InterruptRunning;
      BeginShutdownKeeps(View(), lim);
      InterruptQueue();
      InterruptWorkers();
      if pending.Some? {
        OnFinish(pending.value);
      }
    }
  }

  /** The running set while the workers in `todo` are still to be interrupted. */
  ghost function RunningBut(s: Loop, todo: set<ID>): map<ID, Run> {
    map id | id in s.running :: if id in todo then s.running[id] else s.running[id].(cancelled := true)
  }

  ghost function IndexBut(s: Loop, todo: set<ID>): map<ID, Action> {
    map id | id in s.index :: if id in s.running && id !in todo then s.index[id].Transition(Interrupted, 0) else s.index[id]
  }

  lemma InterruptStart(s: Loop)
    ensures RunningBut(s, s.running.Keys) == s.running && IndexBut(s, s.running.Keys) == s.index
  {
  }

  lemma InterruptStep(s: Loop, todo: set<ID>, id: ID)
    requires id in todo && id in s.running
    ensures id in RunningBut(s, todo)
    ensures RunningBut(s, todo - {id}) == RunningBut(s, todo)[id := RunningBut(s, todo)[id].(cancelled := true)]
    ensures id in IndexBut(s, todo) <==> id in s.index
    ensures IndexBut(s, todo - {id}) ==
            if id in IndexBut(s, todo) then IndexBut(s, todo)[id := IndexBut(s, todo)[id].Transition(Interrupted, 0)] else IndexBut(s, todo)
  {
  }

  lemma InterruptEnd(s: Loop)
    ensures InterruptRunning(s) == s.(running := RunningBut(s, {}), index := IndexBut(s, {}), stop := Stopping)
  {
    assert InterruptRunning(s).running == RunningBut(s, {});
    assert InterruptRunning(s).index == IndexBut(s, {});
  }

  lemma HaltingStart(s: Loop, lim: Limits)
    ensures Halting(s, lim, 0) == s && s.queue[0..] == s.queue
  {
    assert s.queue[..0] == [];
  }

  /** The state once the first i waiting actions have been looked at. */
  ghost function Expired(s: Loop, lim: Limits, now: Time, i: nat): Loop
    requires i <= |s.queue|
  {
    DropAll(s, lim, Stale(s, lim, now, i), Failed, CodeDeadlineExceeded)
  }

  lemma StaleStart(s: Loop, lim: Limits, now: Time)
    ensures Expired(s, lim, now, 0) == s && s.queue[0..] == s.queue && [] + s.queue[0..] == s.queue
  {
  }

  /** Cutting the element behind a prefix. */
  lemma CutBehind(prefix: seq<ID>, id: ID, rest: seq<ID>)
    requires Distinct(prefix + [id] + rest)
    ensures Remove(prefix + [id] + rest, id) == prefix + rest
  {
    var all := prefix + [id] + rest;
    assert all[|prefix|] == id;
    RemoveAt(all, |prefix|);
  }

  lemma DropBehind(done: Loop, lim: Limits, prefix: seq<ID>, id: ID, rest: seq<ID>, state: State, code: Code)
    requires Good(done, lim) && done.queue == prefix + [id] + rest && state.Terminal()
    ensures id in done.queue && Good(Drop(done, lim, id, state, code), lim) && Drop(done, lim, id, state, code).queue == prefix + rest
  {
    hide Good, Inv, Drop;
    assert done.queue[|prefix|] == id;
    GoodQueue(done, lim);
    CutBehind(prefix, id, rest);
    DropKeeps(done, lim, id, state, code);
  }

  lemma StaleStep(s: Loop, lim: Limits, now: Time, i: nat, kept: seq<ID>)
    requires Good(s, lim) && i < |s.queue| && Expired(s, lim, now, i).queue == kept + s.queue[i..]
    ensures var (id, done) := (s.queue[i], Expired(s, lim, now, i));
            && Good(done, lim) && id in done.queue && id in done.index && id in s.index
            && done.index[id] == s.index[id]
            && (if now - s.index[id].queuedAt < lim.queueWait
                then Expired(s, lim, now, i + 1) == done && done.queue == kept + [id] + s.queue[i + 1..]
                else Expired(s, lim, now, i + 1) == Drop(done, lim, id, Failed, CodeDeadlineExceeded)
                     && Expired(s, lim, now, i + 1).queue == kept + s.queue[i + 1..])
  {
    hide Good, Inv, Drop, DropAll, Stale;
    GoodQueue(s, lim);
    var (id, done) := (s.queue[i], Expired(s, lim, now, i));
    assert s.queue[i..] == [id] + s.queue[i + 1..];
    assert done.queue == kept + [id] + s.queue[i + 1..];
    StaleSoFar(s, lim, now, i);
    DropBehind(done, lim, kept, id, s.queue[i + 1..], Failed, CodeDeadlineExceeded);
    StaleNext(s, lim, now, i);
  }

  lemma StaleSoFar(s: Loop, lim: Limits, now: Time, i: nat)
    requires Good(s, lim) && i < |s.queue|
    ensures var (id, done) := (s.queue[i], Expired(s, lim, now, i));
            Good(done, lim) && id in done.index && id in s.index && done.index[id] == s.index[id]
  {
    hide Good, Inv, DropAll, Stale, WaitedTooLong;
    GoodQueue(s, lim);
    var (id, ids) := (s.queue[i], Stale(s, lim, now, i));
    StaleMembers(s, lim, now, i);
    assert forall x | x in ids :: x in s.queue;
    DropAllKeeps(s, lim, ids, Failed, CodeDeadlineExceeded);
    assert id !in s.queue[..i];
  }

  lemma StaleNext(s: Loop, lim: Limits, now: Time, i: nat)
    requires i < |s.queue| && s.queue[i] in s.index
    ensures var (id, done) := (s.queue[i], Expired(s, lim, now, i));
            Expired(s, lim, now, i + 1) ==
              if now - s.index[id].queuedAt < lim.queueWait then done else Drop(done, lim, id, Failed, CodeDeadlineExceeded)
  {
    hide Drop;
    var (id, ids) := (s.queue[i], Stale(s, lim, now, i));
    assert (ids + [id])[..|ids|] == ids;
  }

  ghost function Halting(s: Loop, lim: Limits, i: nat): Loop
    requires i <= |s.queue|
  {
    DropAll(s, lim, s.queue[..i], Interrupted, NoCode)
  }

  lemma HaltingStep(s: Loop, lim: Limits, i: nat)
    requires Good(s, lim) && i < |s.queue| && Halting(s, lim, i).queue == s.queue[i..]
    ensures var (id, done) := (s.queue[i], Halting(s, lim, i));
            && Good(done, lim) && id in done.queue
            && Halting(s, lim, i + 1) == Drop(done, lim, id, Interrupted, NoCode)
            && Halting(s, lim, i + 1).queue == s.queue[i + 1..]
  {
    hide Good, Inv, Drop;
    GoodQueue(s, lim);
    var (id, done) := (s.queue[i], Halting(s, lim, i));
    DropAllKeeps(s, lim, s.queue[..i], Interrupted, NoCode);
    assert s.queue[..i + 1][..i] == s.queue[..i];
    assert done.queue == [] + [id] + s.queue[i + 1..];
    DropBehind(done, lim, [], id, s.queue[i + 1..], Interrupted, NoCode);
  }

  lemma OverdueTest(s: Loop, lim: Limits, id: ID, now: Time)
    requires id in s.running
    ensures RanTooLong(s, lim, id, now) <==>
            !s.running[id].overdue && id in s.index && now - s.index[id].startedAt >= lim.actionBudget
  {
  }

  // ---------------------------------------------------------------------
  // The search for the soonest deadline
  // ---------------------------------------------------------------------

  function Soonest(deadlines: seq<Time>): Time {
    if deadlines == [] then ZERO_TIME
    else
      var before, at := Soonest(deadlines[..|deadlines| - 1]), deadlines[|deadlines| - 1];
      if before == ZERO_TIME || at < before then at else before
  }

  lemma EmptySoonest()
    ensures Soonest([]) == ZERO_TIME
  {
  }

  lemma AppendSoonest(seen: seq<Time>, at: Time)
    ensures Soonest(seen + [at]) == if Soonest(seen) == ZERO_TIME || at < Soonest(seen) then at else Soonest(seen)
  {
    assert (seen + [at])[..|seen|] == seen;
  }

  lemma {:induction false} SoonestMember(seen: seq<Time>)
    ensures Soonest(seen) == ZERO_TIME || Soonest(seen) in seen
  {
    if seen != [] {
      SoonestMember(seen[..|seen| - 1]);
    }
  }

  /** The sentinel is harmless as long as the least deadline is not the zero instant itself. */
  lemma {:induction false} SoonestIsLeast(seen: seq<Time>, least: Time)
    requires least in seen && (forall at | at in seen :: least <= at) && least != ZERO_TIME
    ensures Soonest(seen) == least
  {
    var n := |seen| - 1;
    assert seen == seen[..n] + [seen[n]];
    assert forall at | at in seen[..n] :: at in seen;
    assert seen[n] in seen;
    SoonestMember(seen[..n]);
    if least in seen[..n] {
      SoonestIsLeast(seen[..n], least);
    }
  }

  lemma AllSeen(s: Loop, lim: Limits, seen: seq<Time>)
    requires forall id | id in s.queue :: id in s.index && s.index[id].queuedAt + lim.queueWait in seen
    requires forall id | id in s.running && !s.running[id].overdue :: id in s.index && s.index[id].startedAt + lim.actionBudget in seen
    ensures forall at | Deadline(s, lim, at) :: at in seen
  {
    forall at | Deadline(s, lim, at) ensures at in seen {
      var id :| QueueDeadline(s, lim, id, at) || WorkerDeadline(s, lim, id, at);
    }
  }

  lemma IsDeadline(s: Loop, lim: Limits, id: ID, at: Time)
    requires QueueDeadline(s, lim, id, at) || WorkerDeadline(s, lim, id, at)
    ensures Deadline(s, lim, at)
  {
  }

  /** Taking first and then starting or refusing is one dispatch step. */
  lemma AfterTaking(s: Loop, lim: Limits, id: ID, env: DispatchEnv)
    requires Known(s) && TakeRunnable(s) == Some(id) && id in s.index && |s.running| < lim.parallel && id !in Remove(s.queue, id)
    ensures var t := s.(queue := Remove(s.queue, id));
            var verdict := Check(s.daemon, env.guard, env.wizard, s.index[id].request);
            DispatchOne(s, lim, env) == if verdict.Refuse? then Drop(t, lim, id, Failed, verdict.code) else Start(t, id, env.now)
  {
    hide TakeRunnable, Retire, Check;
    RemoveAbsent(Remove(s.queue, id), id);
  }
}
