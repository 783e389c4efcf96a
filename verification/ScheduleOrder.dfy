/**
 What a whole dispatch pass achieves, and when the next deadline really is.
 */
module ScheduleOrder {
  import opened Actions
  import opened Ambient
  import opened Schedule
  import opened ScheduleInvariant
  import opened ScheduleSteps

  // ---------------------------------------------------------------------
  // Dispatch
  // ---------------------------------------------------------------------

  ghost predicate DispatchOver(s: Loop, lim: Limits)
    requires Known(s)
  {
    |s.running| >= lim.parallel || TakeRunnable(s).None?
  }

  /** The dispatch loop; `env(i)` answers the check and the clock in iteration i. */
  ghost function Dispatch(s: Loop, lim: Limits, env: nat -> DispatchEnv, i: nat): (t: Loop)
    requires Good(s, lim) && Known(s) && !s.stop.Stopping?
    ensures Good(t, lim) && Known(t) && DispatchOver(t, lim) && t.daemon == s.daemon
    decreases |s.queue|
  {
    if DispatchOver(s, lim) then s
    else
      var t := DispatchOne(s, lim, env(i));
      DispatchOneKeeps(s, lim, env(i));
      Dispatch(t, lim, env, i + 1)
  }

  /** An action waits for its turn: everything eligible in the queue runs after it. */
  ghost predicate LeastEligible(s: Loop, id: ID)
    requires Known(s)
  {
    && id in s.queue && Eligible(s, id)
    && forall x | x in s.queue && x != id && Eligible(s, x) :: RunsFirst(s.index[id], s.index[x])
  }

  /**
   When dispatch returns, either the slots are full, or a switch is running, or
   the action whose turn it is is a switch waiting for workers to drain, or
   nothing queued could run.
   */
  lemma DispatchIsMaximal(s: Loop, lim: Limits, env: nat -> DispatchEnv)
    requires Good(s, lim) && Known(s) && !s.stop.Stopping?
    ensures var t := Dispatch(s, lim, env, 0);
            || |t.running| == lim.parallel
            || SwitchRunning(t)
            || (t.running != map[] && exists id | id in t.queue :: LeastEligible(t, id) && t.index[id].request.kind.Switches())
            || (forall id | id in t.queue :: !Eligible(t, id))
  {
    hide Inv, Eligible, RunsFirst, SwitchRunning, Dispatch;
    var t := Dispatch(s, lim, env, 0);
    SlotBound(t, lim);
    BestIsLeast(t, lim, |t.queue|);
    assert t.queue[..|t.queue|] == t.queue;
    if |t.running| < lim.parallel && !SwitchRunning(t) && Best(t, |t.queue|).Some? {
      var id := Best(t, |t.queue|).value;
      assert LeastEligible(t, id) && t.index[id].request.kind.Switches();
    }
  }

  lemma SlotBound(s: Loop, lim: Limits)
    requires Good(s, lim)
    ensures |s.running| <= lim.parallel
  {
  }

  /** Whatever is taken runs before every eligible action, and before every waiting switch. */
  lemma TakenPrecedes(s: Loop, lim: Limits, other: ID)
    requires Good(s, lim) && Known(s) && TakeRunnable(s).Some? && other in s.queue && other != TakeRunnable(s).value
    ensures TakeRunnable(s).value in s.index
    ensures Eligible(s, other) || s.index[other].request.kind.Switches() ==> RunsFirst(s.index[TakeRunnable(s).value], s.index[other])
  {
    hide Inv, RunsFirst, TakeRunnable, RefreshRunning;
    TakenIsLeast(s, lim);
  }

  // ---------------------------------------------------------------------
  // Deadlines
  // ---------------------------------------------------------------------

  ghost predicate QueueDeadline(s: Loop, lim: Limits, id: ID, at: Time) {
    id in s.queue && id in s.index && at == s.index[id].queuedAt + lim.queueWait
  }

  ghost predicate WorkerDeadline(s: Loop, lim: Limits, id: ID, at: Time) {
    id in s.running && !s.running[id].overdue && id in s.index && at == s.index[id].startedAt + lim.actionBudget
  }

  ghost predicate Deadline(s: Loop, lim: Limits, at: Time) {
    exists id :: QueueDeadline(s, lim, id, at) || WorkerDeadline(s, lim, id, at)
  }

  /** `at` is the earliest instant at which expire would do something. */
  ghost predicate IsNextDeadline(s: Loop, lim: Limits, at: Time) {
    Deadline(s, lim, at) && forall other | Deadline(s, lim, other) :: at <= other
  }

  lemma QuietExpire(s: Loop, lim: Limits, now: Time)
    requires Good(s, lim) && (forall at | Deadline(s, lim, at) :: now < at)
    ensures Expire(s, lim, now) == s
  {
    hide Inv, Good, Stale;
    GoodQueue(s, lim);
    forall x | x in s.queue ensures !WaitedTooLong(s, lim, x, now) {
      assert QueueDeadline(s, lim, x, s.index[x].queuedAt + lim.queueWait);
      assert Deadline(s, lim, s.index[x].queuedAt + lim.queueWait);
    }
    forall id | id in s.running ensures !RanTooLong(s, lim, id, now) {
      if !s.running[id].overdue {
        assert WorkerDeadline(s, lim, id, s.index[id].startedAt + lim.actionBudget);
        assert Deadline(s, lim, s.index[id].startedAt + lim.actionBudget);
      }
    }
    hide Deadline, RanTooLong, WaitedTooLong, MarkOverdue;
    NothingStale(s, lim, now);
    NothingOverdue(s, lim, now);
  }

  lemma NothingOverdue(s: Loop, lim: Limits, now: Time)
    requires forall id | id in s.running :: !RanTooLong(s, lim, id, now)
    ensures MarkOverdue(s, lim, now) == s
  {
    hide RanTooLong;
    assert MarkOverdue(s, lim, now).running == s.running;
  }

  lemma NothingStale(s: Loop, lim: Limits, now: Time)
    requires Distinct(s.queue) && forall x | x in s.queue :: !WaitedTooLong(s, lim, x, now)
    ensures Stale(s, lim, now, |s.queue|) == []
  {
    StaleMembers(s, lim, now, |s.queue|);
    assert s.queue[..|s.queue|] == s.queue;
    NoMembersEmpty(Stale(s, lim, now, |s.queue|));
  }

  /** At or after a deadline, the action it belongs to is failed or its worker marked overdue. */
  lemma LateExpire(s: Loop, lim: Limits, now: Time, id: ID, at: Time)
    requires Good(s, lim) && at <= now
    ensures var t := Expire(s, lim, now);
            QueueDeadline(s, lim, id, at) ==> (id !in t.queue && (id in t.index ==> t.index[id].state.Failed?))
    ensures var t := Expire(s, lim, now);
            WorkerDeadline(s, lim, id, at) ==> (id in t.running && t.running[id].overdue && t.running[id].cancelled)
  {
    hide Inv, Evolves, DropAll, Dropped, Touches, MarkOverdue, WaitedTooLong, QueueDeadline, WorkerDeadline, Expire, Stale;
    ExpireKeeps(s, lim, now);
    GoodQueue(s, lim);
    var ids := Stale(s, lim, now, |s.queue|);
    var t := DropAll(s, lim, ids, Failed, CodeDeadlineExceeded);
    StaleMembers(s, lim, now, |s.queue|);
    assert s.queue[..|s.queue|] == s.queue;
    LateQueued(s, t, Expire(s, lim, now), lim, ids, now, id, at);
    LateWorker(s, t, lim, ids, now, id, at);
  }

  lemma LateQueued(s: Loop, t: Loop, u: Loop, lim: Limits, ids: seq<ID>, now: Time, id: ID, at: Time)
    requires at <= now && Dropped(s, t, ids, Failed) && Touches(t, u) && (forall x | x in s.queue && WaitedTooLong(s, lim, x, now) :: x in ids)
    requires forall x | x in s.queue :: x !in s.running
    ensures QueueDeadline(s, lim, id, at) ==> (id !in u.queue && (id in u.index ==> u.index[id].state.Failed?))
  {
    if QueueDeadline(s, lim, id, at) {
      assert id in ids;
    }
  }

  lemma LateWorker(s: Loop, t: Loop, lim: Limits, ids: seq<ID>, now: Time, id: ID, at: Time)
    requires at <= now && Dropped(s, t, ids, Failed) && (forall x | x in ids :: x in s.queue)
    requires forall x | x in s.running :: x in s.index && x !in s.queue && x !in s.terminals
    ensures WorkerDeadline(s, lim, id, at) ==> (var u := MarkOverdue(t, lim, now); id in u.running && u.running[id].overdue && u.running[id].cancelled)
  {
    if WorkerDeadline(s, lim, id, at) {
      assert id !in ids;
      assert id in t.index && t.index[id] == s.index[id];
      assert RanTooLong(t, lim, id, now);
    }
  }

  /**
   The next deadline is exact: before it expire changes nothing, from it on
   expire changes something; and there is none exactly when expire never does.
   */
  lemma DeadlinesAreExact(s: Loop, lim: Limits, now: Time)
    requires Good(s, lim)
    ensures Expire(s, lim, now) != s <==> exists at | Deadline(s, lim, at) :: at <= now
  {
    if at :| Deadline(s, lim, at) && at <= now {
      var id :| QueueDeadline(s, lim, id, at) || WorkerDeadline(s, lim, id, at);
      LateExpire(s, lim, now, id, at);
    } else {
      QuietExpire(s, lim, now);
    }
  }

  // ---------------------------------------------------------------------
  // When the loop must wake
  // ---------------------------------------------------------------------

  /** Go's zero time.Time, which the search also uses for "none yet". */
  const ZERO_TIME: Time := 0

  ghost function DeadlineTimes(s: Loop, lim: Limits): set<Time> {
    (set id | id in s.queue && id in s.index :: s.index[id].queuedAt + lim.queueWait)
    + (set id | id in s.running && id in s.index && !s.running[id].overdue :: s.index[id].startedAt + lim.actionBudget)
  }

  lemma {:induction false} LeastOf(times: set<Time>) returns (least: Time)
    requires exists at :: at in times
    ensures least in times && forall at | at in times :: least <= at
  {
    var some :| some in times;
    var rest := times - {some};
    least := some;
    if exists at :: at in rest {
      var other := LeastOf(rest);
      least := if other < some then other else some;
    }
    assert forall at | at in times :: at == some || at in rest;
  }

  lemma LeastDeadlineExists(s: Loop, lim: Limits, at: Time) returns (least: Time)
    requires Deadline(s, lim, at)
    ensures IsNextDeadline(s, lim, least) && least <= at
  {
    forall other
      ensures Deadline(s, lim, other) <==> other in DeadlineTimes(s, lim)
    {
      if id :| QueueDeadline(s, lim, id, other) || WorkerDeadline(s, lim, id, other) {
        assert other in DeadlineTimes(s, lim);
      }
      if id :| id in s.queue && id in s.index && other == s.index[id].queuedAt + lim.queueWait {
        assert QueueDeadline(s, lim, id, other);
      } else if id :| id in s.running && id in s.index && !s.running[id].overdue && other == s.index[id].startedAt + lim.actionBudget {
        assert WorkerDeadline(s, lim, id, other);
      }
    }
    least := LeastOf(DeadlineTimes(s, lim));
  }

  /** A least deadline exists exactly while something is queued, or runs and is not yet overdue. */
  lemma SomethingDueIffWorkOutstanding(s: Loop, lim: Limits)
    requires Good(s, lim)
    ensures (exists least :: IsNextDeadline(s, lim, least)) <==> s.queue != [] || exists id | id in s.running :: !s.running[id].overdue
  {
    hide Inv;
    GoodQueue(s, lim);
    if s.queue != [] {
      var id := s.queue[0];
      var at := s.index[id].queuedAt + lim.queueWait;
      assert QueueDeadline(s, lim, id, at);
      var least := LeastDeadlineExists(s, lim, at);
    } else if id :| id in s.running && !s.running[id].overdue {
      var at := s.index[id].startedAt + lim.actionBudget;
      assert WorkerDeadline(s, lim, id, at);
      var least := LeastDeadlineExists(s, lim, at);
    }
  }

  /** The answer a sleeping loop needs: nothing to do before it, something from it on; or never anything. */
  ghost predicate Wakes(s: Loop, lim: Limits, soonest: Time, found: bool) {
    if found then forall now :: Expire(s, lim, now) != s <==> soonest <= now
    else forall now :: Expire(s, lim, now) == s
  }

  /** That answer is the least deadline, or that there is none. */
  lemma WakesIffLeast(s: Loop, lim: Limits, soonest: Time, found: bool)
    requires Good(s, lim)
    ensures Wakes(s, lim, soonest, found) <==>
              if found then IsNextDeadline(s, lim, soonest) else forall at :: !Deadline(s, lim, at)
  {
    hide Good, Expire, Deadline;
    forall now
      ensures Expire(s, lim, now) != s <==> exists at | Deadline(s, lim, at) :: at <= now
    {
      DeadlinesAreExact(s, lim, now);
    }
    if Wakes(s, lim, soonest, found) && found {
      assert Expire(s, lim, soonest) != s && Expire(s, lim, soonest - 1) == s;
      forall other | Deadline(s, lim, other)
        ensures soonest <= other
      {
        assert Expire(s, lim, other) != s;
      }
    }
    if Wakes(s, lim, soonest, found) && !found {
      forall at
        ensures !Deadline(s, lim, at)
      {
        assert Expire(s, lim, at) == s;
      }
    }
  }

  /** A valid loop whose one queued action falls due at the zero instant: there the search reports nothing. */
  lemma ZeroDeadlineHappens(d: Daemon, lim: Limits) returns (s: Loop)
    requires ValidLimits(lim)
    ensures Good(s, lim) && IsNextDeadline(s, lim, ZERO_TIME)
  {
    var a := Action(1, PlainLogin("a", ""), "", Queued, NoPhase, NoCode, "", false, ZERO_TIME - lim.queueWait, 0, 0, false);
    s := Loop([1], map[1 := a], map["click" := 1], map[], map[], [], 1, 0, Serving, d);
    assert Partition(s, {}) && Record(s, 1) && Lines(s) && Exclusive(s) && Keys(s) && Sequences(s) && RevisionHeld(s);
    assert QueueDeadline(s, lim, 1, ZERO_TIME);
    assert Deadline(s, lim, ZERO_TIME);
  }
}
