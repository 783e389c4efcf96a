/**
 Safety over whole runs of the coordinator: every sequence of submissions,
 cancellations, dispatches, completions, deadlines, configuration changes and
 stops, in any order and with any answers from the world.
 */
module ScheduleRuns {
  import opened Wrappers
  import opened Actions
  import opened Ambient
  import opened Schedule
  import opened ScheduleInvariant
  import opened ScheduleSteps

  /** The state after a sequence of events, starting from an empty coordinator. */
  ghost function After(d: Daemon, lim: Limits, es: seq<Event>): (s: Loop)
    requires ValidLimits(lim)
    ensures Good(s, lim) && Known(s)
  {
    if es == [] then
      InitialGood(d, lim);
      Initial(d)
    else
      var before := After(d, lim, es[..|es| - 1]);
      StepKeeps(before, lim, es[|es| - 1]);
      Step(before, lim, es[|es| - 1])
  }

  /** The state a run is in after its first n events. */
  ghost function At(d: Daemon, lim: Limits, es: seq<Event>, n: nat): (s: Loop)
    requires ValidLimits(lim) && n <= |es|
    ensures Good(s, lim) && Known(s)
  {
    After(d, lim, es[..n])
  }

  lemma AtStep(d: Daemon, lim: Limits, es: seq<Event>, n: nat)
    requires ValidLimits(lim) && n < |es|
    ensures At(d, lim, es, n + 1) == Step(At(d, lim, es, n), lim, es[n])
  {
    assert es[..n + 1][..n] == es[..n];
  }

  // ---------------------------------------------------------------------
  // Mutual exclusion and memory in every reachable state
  // ---------------------------------------------------------------------

  /** No two workers, cancelled ones included, hold one line; switches and refreshes are alone of their sort. */
  lemma WorkersExclude(d: Daemon, lim: Limits, es: seq<Event>)
    requires ValidLimits(lim)
    ensures var s := After(d, lim, es);
            && (forall a, b | a in s.running && b in s.running && a != b && s.index[a].line == s.index[b].line :: s.index[a].line == "")
            && (forall line :: line in s.busyLines <==> line != "" && exists id :: id in s.running && s.index[id].line == line)
            && (forall id | id in s.running && s.index[id].request.kind.Switches() :: s.running.Keys == {id})
            && (forall a, b | a in s.running && b in s.running && s.index[a].request.kind.PresetsRefresh?
                  && s.index[b].request.kind.PresetsRefresh? :: a == b)
  {
    var s := After(d, lim, es);
    hide Partition, Records, Keys, Sequences, RevisionHeld, After;
    forall line | line in s.busyLines ensures exists id :: id in s.running && s.index[id].line == line {
      assert s.busyLines[line] in s.running && s.index[s.busyLines[line]].line == line;
    }
    forall id | id in s.running && s.index[id].request.kind.Switches() ensures s.running.Keys == {id} {
      SwitchAlone(s, lim, id);
    }
  }

  ghost function Members(ids: seq<ID>): set<ID> {
    set x | x in ids
  }

  lemma {:induction false} DistinctSize(ids: seq<ID>)
    requires Distinct(ids)
    ensures |Members(ids)| == |ids|
  {
    if ids == [] {
      assert Members(ids) == {};
    } else {
      var n := |ids| - 1;
      var rest := Members(ids[..n]);
      DistinctSize(ids[..n]);
      assert ids == ids[..n] + [ids[n]];
      assert Members(ids) == rest + {ids[n]};
      assert ids[n] !in rest;
    }
  }

  /** The index holds exactly the queued, running and remembered actions, so its size is bounded. */
  lemma MemoryBounded(d: Daemon, lim: Limits, es: seq<Event>)
    requires ValidLimits(lim)
    ensures var s := After(d, lim, es);
            && |s.index| == |s.queue| + |s.running| + |s.terminals|
            && |s.index| <= lim.queueLimit + lim.parallel + lim.history
            && |s.byKey| == |s.index|
  {
    var s := After(d, lim, es);
    IndexSize(s, lim);
    KeysSize(s, lim);
  }

  lemma ThreeParts(all: set<ID>, a: set<ID>, b: set<ID>, c: set<ID>)
    requires a !! b && a !! c && b !! c
    requires forall x :: x in all <==> x in a || x in b || x in c
    ensures |all| == |a| + |b| + |c|
  {
    assert all == a + b + c;
    assert |a + b| == |a| + |b|;
    assert (a + b) !! c;
  }

  lemma IndexSize(s: Loop, lim: Limits)
    requires Good(s, lim)
    ensures |s.index| == |s.queue| + |s.running| + |s.terminals|
  {
    hide Records, Lines, Exclusive, Keys, Sequences, RevisionHeld, Bounds, Distinct;
    DistinctSize(s.queue);
    DistinctSize(s.terminals);
    ThreeParts(s.index.Keys, Members(s.queue), s.running.Keys, Members(s.terminals));
    assert |s.index| == |s.index.Keys| && |s.running| == |s.running.Keys|;
  }

  lemma {:induction false} InjectiveSize(keys: set<string>, ids: set<ID>, m: map<string, ID>)
    requires m.Keys == keys && (forall k | k in keys :: m[k] in ids)
    requires forall k, l | k in keys && l in keys && m[k] == m[l] :: k == l
    requires forall id | id in ids :: exists k :: k in keys && m[k] == id
    ensures |keys| == |ids|
    decreases |ids|
  {
    if keys == {} {
      assert ids == {};
    } else {
      var k :| k in keys;
      assert forall id | id in ids - {m[k]} :: exists l :: l in keys - {k} && (m - {k})[l] == id by {
        forall id | id in ids - {m[k]} ensures exists l :: l in keys - {k} && (m - {k})[l] == id {
          var l :| l in keys && m[l] == id;
          assert l in keys - {k} && (m - {k})[l] == id;
        }
      }
      InjectiveSize(keys - {k}, ids - {m[k]}, m - {k});
    }
  }

  lemma KeysSize(s: Loop, lim: Limits)
    requires Good(s, lim)
    ensures |s.byKey| == |s.index|
  {
    hide Records, Lines, Exclusive, Partition, Sequences, RevisionHeld;
    forall id | id in s.index.Keys ensures exists k :: k in s.byKey.Keys && s.byKey[k] == id {
      assert s.index[id].request.key in s.byKey.Keys;
    }
    InjectiveSize(s.byKey.Keys, s.index.Keys, s.byKey);
    assert |s.byKey| == |s.byKey.Keys| && |s.index| == |s.index.Keys|;
  }

  // ---------------------------------------------------------------------
  // Actions only age
  // ---------------------------------------------------------------------

  lemma {:induction false} RunEvolves(d: Daemon, lim: Limits, es: seq<Event>, i: nat, j: nat)
    requires ValidLimits(lim) && i <= j <= |es|
    ensures Evolves(At(d, lim, es, i), At(d, lim, es, j))
    decreases j
  {
    hide Evolves, Good, Step, Known, At;
    if i == j {
      EvolvesReflexive(At(d, lim, es, i));
    } else {
      RunEvolves(d, lim, es, i, j - 1);
      AtStep(d, lim, es, j - 1);
      StepKeeps(At(d, lim, es, j - 1), lim, es[j - 1]);
      EvolvesTransitive(At(d, lim, es, i), At(d, lim, es, j - 1), At(d, lim, es, j), lim);
    }
  }

  /** The step that hands an action to a worker. */
  ghost predicate Dispatches(d: Daemon, lim: Limits, es: seq<Event>, i: nat, id: ID)
    requires ValidLimits(lim) && i < |es|
  {
    id !in At(d, lim, es, i).running && id in At(d, lim, es, i + 1).running
  }

  /** The step in which a worker's completion takes effect. */
  ghost predicate Completes(d: Daemon, lim: Limits, es: seq<Event>, i: nat, id: ID)
    requires ValidLimits(lim) && i < |es|
  {
    id in At(d, lim, es, i).running && id !in At(d, lim, es, i + 1).running
  }

  ghost predicate Files(d: Daemon, lim: Limits, es: seq<Event>, i: nat, id: ID)
    requires ValidLimits(lim) && i < |es|
  {
    id !in At(d, lim, es, i).terminals && id in At(d, lim, es, i + 1).terminals
  }

  lemma StageOfMember(s: Loop, lim: Limits, id: ID)
    requires Good(s, lim)
    ensures id in s.queue <==> Stage(s, id) == 1
    ensures id in s.running <==> Stage(s, id) == 2
    ensures id in s.terminals <==> Stage(s, id) == 3
  {
    StageInIndex(s, lim, id);
  }

  /** Dispatch, completion and filing each happen at most once to an action, whatever the run. */
  lemma EachHappensOnce(d: Daemon, lim: Limits, es: seq<Event>, i: nat, j: nat, id: ID)
    requires ValidLimits(lim) && i < j < |es|
    ensures !(Dispatches(d, lim, es, i, id) && Dispatches(d, lim, es, j, id))
    ensures !(Completes(d, lim, es, i, id) && Completes(d, lim, es, j, id))
    ensures !(Files(d, lim, es, i, id) && Files(d, lim, es, j, id))
  {
    hide Good, Stage, At, Known;
    StageOfMember(At(d, lim, es, i), lim, id);
    StageOfMember(At(d, lim, es, i + 1), lim, id);
    StageOfMember(At(d, lim, es, j), lim, id);
    StageOfMember(At(d, lim, es, j + 1), lim, id);
    RunEvolves(d, lim, es, i, i + 1);
    RunEvolves(d, lim, es, i + 1, j);
    RunEvolves(d, lim, es, j, j + 1);
    assert Stage(At(d, lim, es, i), id) <= Stage(At(d, lim, es, i + 1), id) <= Stage(At(d, lim, es, j), id) <= Stage(At(d, lim, es, j + 1), id);
  }

  /** A terminal state is final, and an id that was ever forgotten never comes back. */
  lemma TerminalIsFinal(d: Daemon, lim: Limits, es: seq<Event>, i: nat, j: nat, id: ID)
    requires ValidLimits(lim) && i <= j <= |es|
    ensures var (s, t) := (At(d, lim, es, i), At(d, lim, es, j));
            && (id in s.index && id in t.index && s.index[id].state.Terminal() ==>
                  t.index[id].state == s.index[id].state && t.index[id].code == s.index[id].code)
            && (1 <= id <= s.nextID && id !in s.index ==> id !in t.index)
  {
    hide Good, Stage, At, Known;
    RunEvolves(d, lim, es, i, j);
    var (s, t) := (At(d, lim, es, i), At(d, lim, es, j));
    if id in s.index && id in t.index {
      assert Ages(s.index[id], t.index[id]);
    }
    if 1 <= id <= s.nextID && id !in s.index {
      StageInIndex(s, lim, id);
      StageInIndex(t, lim, id);
      BornStage(s, id);
      assert Stage(s, id) <= Stage(t, id);
    }
  }

  lemma BornStage(s: Loop, id: ID)
    ensures Stage(s, id) == 0 <==> id == 0 || id > s.nextID
    ensures Stage(s, id) <= 4
  {
  }

  /** Dispatch numbers only grow: whatever is dispatched later carries a larger number. */
  lemma SequencesIncrease(d: Daemon, lim: Limits, es: seq<Event>, i: nat, j: nat, a: ID, b: ID)
    requires ValidLimits(lim) && i < j < |es| && Dispatches(d, lim, es, i, a) && Dispatches(d, lim, es, j, b)
    ensures At(d, lim, es, i + 1).index[a].sequence < At(d, lim, es, j + 1).index[b].sequence
  {
    hide Good, Stage, At, Known, Step;
    RunEvolves(d, lim, es, i + 1, j);
    AtStep(d, lim, es, i);
    AtStep(d, lim, es, j);
    DispatchNumbers(At(d, lim, es, i), lim, es[i], a);
    DispatchNumbers(At(d, lim, es, j), lim, es[j], b);
  }

  /** Only a dispatch puts an action among the running, straight from the queue and with the next number. */
  lemma DispatchNumbers(s: Loop, lim: Limits, e: Event, id: ID)
    requires Good(s, lim) && Known(s) && id !in s.running && id in Step(s, lim, e).running
    ensures var t := Step(s, lim, e);
            && e.DispatchEvent? && id in s.queue && id in t.index && id in s.index
            && TakeRunnable(s) == Some(id) && t == Start(s, id, e.denv.now)
            && t.index[id].sequence == s.nextSeq + 1 == t.nextSeq
            && Check(s.daemon, e.denv.guard, e.denv.wizard, s.index[id].request).Pass?
  {
    hide Inv, TakeRunnable, Drop, Check, Start, Submit, Cancel, Finish, Progress, Expire, ChangeConfiguration, BeginShutdown;
    if !(e.DispatchEvent? && !s.stop.Stopping?) {
      RunningOnlyByDispatch(s, lim, e);
      assert false;
    }
    TakenIsLeast(s, lim);
    var taken := TakeRunnable(s).value;
    var verdict := Check(s.daemon, e.denv.guard, e.denv.wizard, s.index[taken].request);
    if verdict.Refuse? {
      DropKeeps(s, lim, taken, Failed, verdict.code);
    } else {
      StartFrame(s, taken, e.denv.now);
    }
  }

  lemma RunningOnlyByDispatch(s: Loop, lim: Limits, e: Event)
    requires Good(s, lim) && Known(s) && !(e.DispatchEvent? && !s.stop.Stopping?)
    ensures forall id | id in Step(s, lim, e).running :: id in s.running
    ensures !e.SubmitEvent? ==> Step(s, lim, e).nextID == s.nextID
    ensures Step(s, lim, e).nextSeq == s.nextSeq
  {
    hide Inv, Evolves, Submit, Cancel, DispatchOne, Finish, Progress, Expire, BeginShutdown, DropAll, MarkOverdue;
    match e {
      case SubmitEvent(r, env) => SubmitFrame(s, lim, r, env);
      case CancelEvent(id) => CancelKeeps(s, lim, id);
      case DispatchEvent(env) =>
      case FinishEvent(id, out, io) =>
        FinishKeeps(s, lim, id, out, io);
        BeginShutdownKeeps(s, lim);
        FinishKeeps(BeginShutdown(s, lim), lim, id, out, io);
      case ProgressEvent(id, phase) => ProgressKeeps(s, lim, id, phase);
      case ExpireEvent(now) => ExpireKeeps(s, lim, now);
      case ConfigEvent(next) =>
      case StopEvent =>
      case ShutdownEvent => BeginShutdownKeeps(s, lim);
    }
  }

  lemma SubmitFreshFrame(s: Loop, lim: Limits, r: Request, env: SubmitEnv)
    requires Good(s, lim)
    ensures var t := SubmitFresh(s, lim, r, env).0;
            && t.running.Keys == s.running.Keys && t.nextSeq == s.nextSeq && t.stop == s.stop
            && (forall x | x in t.queue :: x in s.queue || x == s.nextID + 1)
  {
    hide Inv, Evolves, Cleared, Enqueue, Check;
    var (d, admitted) := Admit(s.daemon, r, env.clears, env.writes);
    var s1 := s.(daemon := d);
    DaemonKeeps(s, lim, d);
    ClearedFrame(s1, lim, r, env.order);
    var s2 := Cleared(s1, lim, r, env.order);
    EnqueueDaemon(s2, r, env.now);
    EnqueueSeq(s2, r, env.now);
    AppendMembers(s2.queue, s2.nextID + 1);
  }

  lemma SubmitFrame(s: Loop, lim: Limits, request: Request, env: SubmitEnv)
    requires Good(s, lim)
    ensures var t := Submit(s, lim, request, env).0;
            && t.running.Keys == s.running.Keys && t.nextSeq == s.nextSeq && t.stop == s.stop
            && (forall x | x in t.queue :: x in s.queue || x == s.nextID + 1)
  {
    hide Inv, Evolves, SubmitFresh, Fingerprint, Sealed;
    KeysLive(s, lim, Sealed(lim, request).key);
    SubmitFreshFrame(s, lim, Sealed(lim, request), env);
  }

  lemma EnqueueSeq(s: Loop, r: Request, now: Time)
    ensures Enqueue(s, r, now).nextSeq == s.nextSeq
  {
  }

  lemma ClearedFrame(s: Loop, lim: Limits, r: Request, order: seq<ID>)
    requires Good(s, lim)
    ensures var ids := if ClearsSchedule(r.kind) then Superseded(s, r, order) else [];
            CancelFrame(s, Cleared(s, lim, r, order), ids)
  {
    hide Inv, Evolves, CancelAll;
    CancelAllKeeps(s, lim, Superseded(s, r, order));
  }

  // ---------------------------------------------------------------------
  // One configuration per worker
  // ---------------------------------------------------------------------

  /** The configuration moves only in a step that leaves no worker behind. */
  lemma StepConfiguration(s: Loop, lim: Limits, e: Event)
    requires Good(s, lim) && Known(s)
    ensures var t := Step(s, lim, e);
            t.daemon.config != s.daemon.config ==>
              && t.running == map[]
              && (s.running == map[] || (e.FinishEvent? && s.running.Keys == {e.id}))
              && t.daemon.config.revision == s.daemon.config.revision + 1
  {
    hide Inv, Evolves, Submit, Cancel, DispatchOne, Finish, Progress, Expire, BeginShutdown, DropAll, MarkOverdue;
    match e {
      case SubmitEvent(r, env) =>
        if !s.stop.Stopping? {
          SubmitKeeps(s, lim, r, env);
        }
      case CancelEvent(id) => CancelKeeps(s, lim, id);
      case DispatchEvent(env) =>
        if !s.stop.Stopping? {
          DispatchOneKeeps(s, lim, env);
        }
      case FinishEvent(id, out, io) =>
        FinishKeeps(s, lim, id, out, io);
        ShutdownThenFinish(s, lim, id, out, io);
      case ProgressEvent(id, phase) => ProgressKeeps(s, lim, id, phase);
      case ExpireEvent(now) => ExpireKeeps(s, lim, now);
      case ConfigEvent(next) =>
      case StopEvent =>
      case ShutdownEvent => BeginShutdownKeeps(s, lim);
    }
  }

  /** A worker lives under a single configuration, the one its request was pinned to. */
  lemma {:induction false} OneConfigurationPerWorker(d: Daemon, lim: Limits, es: seq<Event>, i: nat, j: nat, id: ID)
    requires ValidLimits(lim) && i <= j <= |es|
    requires id in At(d, lim, es, i).running && id in At(d, lim, es, j).running
    ensures At(d, lim, es, j).daemon.config == At(d, lim, es, i).daemon.config
    ensures var s := At(d, lim, es, j);
            id in s.index && (s.index[id].request.checkRevision ==> s.index[id].request.configRevision == s.daemon.config.revision)
    decreases j
  {
    hide Inv, Good, Stage, At, Known, Step;
    if i < j {
      var (a, b, c) := (At(d, lim, es, i), At(d, lim, es, j - 1), At(d, lim, es, j));
      RunEvolves(d, lim, es, i, j - 1);
      RunEvolves(d, lim, es, j - 1, j);
      StageOfMember(a, lim, id);
      StageOfMember(b, lim, id);
      StageOfMember(c, lim, id);
      assert Stage(a, id) <= Stage(b, id) <= Stage(c, id);
      OneConfigurationPerWorker(d, lim, es, i, j - 1, id);
      AtStep(d, lim, es, j - 1);
      StepConfiguration(b, lim, es[j - 1]);
    }
    PinnedRevision(At(d, lim, es, j), lim, id);
  }

  lemma PinnedRevision(s: Loop, lim: Limits, id: ID)
    requires Good(s, lim) && id in s.running
    ensures id in s.index && (s.index[id].request.checkRevision ==> s.index[id].request.configRevision == s.daemon.config.revision)
  {
  }

  // ---------------------------------------------------------------------
  // Idempotency
  // ---------------------------------------------------------------------

  lemma FreshlyQueued(s: Loop, lim: Limits, r: Request, env: SubmitEnv)
    requires Good(s, lim)
    ensures var (t, reply) := SubmitFresh(s, lim, r, env);
            reply.Accepted? ==>
              && !reply.duplicate && reply.id == s.nextID + 1 && t.nextID == reply.id
              && reply.id in t.index && t.index[reply.id].request == r && reply.id in t.queue && t.index[reply.id].state == Queued
  {
    hide Inv, Evolves, Cleared, Check;
    var (d, admitted) := Admit(s.daemon, r, env.clears, env.writes);
    DaemonKeeps(s, lim, d);
    ClearedKeeps(s.(daemon := d), lim, r, env.order);
  }

  lemma FreshSubmission(s: Loop, lim: Limits, request: Request, env: SubmitEnv)
    requires Good(s, lim)
    ensures var (t, reply) := Submit(s, lim, request, env);
            reply.Accepted? && !reply.duplicate ==>
              && request.key !in s.byKey && reply.id == s.nextID + 1 && t.nextID == reply.id
              && (t, reply) == SubmitFresh(s, lim, Sealed(lim, request), env)
              && reply.id in t.index && t.index[reply.id].request == Sealed(lim, request) && reply.id in t.queue
              && t.index[reply.id].state == Queued
  {
    KeysLive(s, lim, request.key);
    hide Inv, SubmitFresh, Fingerprint;
    FreshlyQueued(s, lim, Sealed(lim, request), env);
  }

  /** A new action's identifier is above every one given out before, remembered or forgotten. */
  lemma IdentifiersAreNew(d: Daemon, lim: Limits, es: seq<Event>, i: nat, j: nat, request: Request, env: SubmitEnv)
    requires ValidLimits(lim) && i <= j <= |es|
    ensures var reply := Submit(At(d, lim, es, j), lim, request, env).1;
            reply.Accepted? && !reply.duplicate ==>
              reply.id > At(d, lim, es, i).nextID && forall id | id in At(d, lim, es, i).index :: id < reply.id
  {
    hide Good, Inv, Stage, At, Known, Submit;
    RunEvolves(d, lim, es, i, j);
    FreshSubmission(At(d, lim, es, j), lim, request, env);
    forall id | id in At(d, lim, es, i).index
      ensures id <= At(d, lim, es, i).nextID
    {
      IndexedIsBorn(At(d, lim, es, i), lim, id);
    }
  }

  lemma IndexedIsBorn(s: Loop, lim: Limits, id: ID)
    requires Good(s, lim) && id in s.index
    ensures 1 <= id <= s.nextID
  {
    assert Record(s, id);
  }

  /**
   A key stays bound to the action it first named for as long as that action is
   remembered: an equal fingerprint gets the same id back, any other is a
   conflict, and neither changes anything.
   */
  lemma RepeatedKey(d: Daemon, lim: Limits, es: seq<Event>, i: nat, j: nat, again: Request, env: SubmitEnv)
    requires ValidLimits(lim) && i < j <= |es| && es[i].SubmitEvent? && !At(d, lim, es, i).stop.Stopping?
    requires var reply := Submit(At(d, lim, es, i), lim, es[i].request, es[i].env).1;
             reply.Accepted? && !reply.duplicate && reply.id in At(d, lim, es, j).index
    requires again.key == es[i].request.key
    ensures var id := Submit(At(d, lim, es, i), lim, es[i].request, es[i].env).1.id;
            var first, second := Sealed(lim, es[i].request), Sealed(lim, again);
            var s := At(d, lim, es, j);
            && Submit(s, lim, again, env) ==
                 (s, if Fingerprint(second) == Fingerprint(first) then Accepted(id, s.index[id].state, true) else Refused(CodeConflict))
            && (TextNulFree(first) ==> (Submit(s, lim, again, env).1.Accepted? <==> SameWork(first, second)))
  {
    hide Good, Stage, At, Known, Step, SubmitFresh, Fingerprint, TextNulFree;
    var (a, b, s) := (At(d, lim, es, i), At(d, lim, es, i + 1), At(d, lim, es, j));
    var id := Submit(a, lim, es[i].request, es[i].env).1.id;
    var first := Sealed(lim, es[i].request);
    FreshSubmission(a, lim, es[i].request, es[i].env);
    AtStep(d, lim, es, i);
    assert b == Submit(a, lim, es[i].request, es[i].env).0 by {
      StepOfSubmit(a, lim, es[i]);
    }
    RunEvolves(d, lim, es, i + 1, j);
    assert Ages(b.index[id], s.index[id]);
    assert Redacted(s.index[id].request).key == Redacted(first).key;
    RedactionKeepsFingerprint(s.index[id].request);
    RedactionKeepsFingerprint(first);
    KeyOfIndexed(s, lim, id);
    if TextNulFree(first) {
      FingerprintIdentifiesWork(first, Sealed(lim, again));
    }
  }

  lemma StepOfSubmit(s: Loop, lim: Limits, e: Event)
    requires Known(s) && e.SubmitEvent? && !s.stop.Stopping?
    ensures Step(s, lim, e) == Submit(s, lim, e.request, e.env).0
  {
  }

  lemma KeyOfIndexed(s: Loop, lim: Limits, id: ID)
    requires Good(s, lim) && id in s.index
    ensures s.index[id].request.key in s.byKey && s.byKey[s.index[id].request.key] == id
  {
  }

  // ---------------------------------------------------------------------
  // Stopping
  // ---------------------------------------------------------------------

  /** Once shutdown has begun nothing is queued and nothing that still runs is undecided. */
  ghost predicate Halted(s: Loop) {
    s.stop.Stopping? ==> s.queue == [] && forall id | id in s.running :: id in s.index && s.index[id].state.Terminal()
  }

  lemma FinishHalted(s: Loop, lim: Limits, id: ID, out: Outcome, io: FinalizeAnswers)
    requires Good(s, lim) && Halted(s)
    ensures Halted(Finish(s, lim, id, out, io))
  {
    FinishKeeps(s, lim, id, out, io);
    hide Inv, Finish, Stage;
    var t := Finish(s, lim, id, out, io);
    GoodQueue(t, lim);
    forall x | x in t.running && t.stop.Stopping? ensures x in t.index && t.index[x].state.Terminal() {
      assert Ages(s.index[x], t.index[x]);
    }
  }

  lemma BeginShutdownHalts(s: Loop, lim: Limits)
    requires Good(s, lim)
    ensures Halted(BeginShutdown(s, lim)) && BeginShutdown(s, lim).stop.Stopping?
  {
    hide Inv, Evolves, DropAll;
    BeginShutdownKeeps(s, lim);
  }

  lemma StepHalted(s: Loop, lim: Limits, e: Event)
    requires Good(s, lim) && Known(s) && Halted(s)
    ensures Halted(Step(s, lim, e))
  {
    hide Inv, Evolves, Submit, Cancel, DispatchOne, Finish, Progress, Expire, BeginShutdown, DropAll, MarkOverdue;
    match e {
      case SubmitEvent(r, env) => SubmitFrame(s, lim, r, env);
      case CancelEvent(id) => CancelKeeps(s, lim, id);
      case DispatchEvent(env) =>
        if !s.stop.Stopping? {
          DispatchOneKeeps(s, lim, env);
        }
      case FinishEvent(id, out, io) =>
        FinishHalted(s, lim, id, out, io);
        BeginShutdownKeeps(s, lim);
        BeginShutdownHalts(s, lim);
        FinishHalted(BeginShutdown(s, lim), lim, id, out, io);
      case ProgressEvent(id, phase) => ProgressStop(s, id, phase);
      case ExpireEvent(now) => ExpireStop(s, lim, now);
      case ConfigEvent(next) =>
      case StopEvent =>
      case ShutdownEvent => BeginShutdownHalts(s, lim);
    }
  }

  lemma ProgressStop(s: Loop, id: ID, phase: Phase)
    ensures Progress(s, id, phase).stop == s.stop
  {
  }

  lemma ExpireStop(s: Loop, lim: Limits, now: Time)
    requires Good(s, lim)
    ensures Expire(s, lim, now).stop == s.stop
  {
    hide Inv, Evolves, DropAll;
    ExpireKeeps(s, lim, now);
  }

  lemma StartsServing(d: Daemon, lim: Limits, es: seq<Event>)
    requires ValidLimits(lim)
    ensures Halted(At(d, lim, es, 0))
  {
    hide Step;
    assert es[..0] == [];
  }

  lemma {:induction false} RunHalted(d: Daemon, lim: Limits, es: seq<Event>, n: nat)
    requires ValidLimits(lim) && n <= |es|
    ensures Halted(At(d, lim, es, n))
  {
    if n == 0 {
      StartsServing(d, lim, es);
    } else {
      hide Good, Step, Known, At, Halted;
      RunHalted(d, lim, es, n - 1);
      AtStep(d, lim, es, n - 1);
      StepHalted(At(d, lim, es, n - 1), lim, es[n - 1]);
    }
  }

  /** The step that begins the shutdown leaves every undecided action interrupted. */
  lemma ShutdownInterrupts(s: Loop, lim: Limits, e: Event)
    requires Good(s, lim) && Known(s) && !s.stop.Stopping? && Step(s, lim, e).stop.Stopping?
    ensures var t := Step(s, lim, e);
            && (forall id | id in t.index :: t.index[id].state.Terminal())
            && (forall id | id in s.index && !s.index[id].state.Terminal() && id in t.index :: t.index[id].state.Interrupted?)
  {
    hide Inv, Evolves, Submit, Cancel, DispatchOne, Finish, Progress, Expire, BeginShutdown, DropAll, MarkOverdue;
    match e {
      case SubmitEvent(r, env) => SubmitFrame(s, lim, r, env);
      case CancelEvent(id) => CancelKeeps(s, lim, id);
      case DispatchEvent(env) => DispatchOneKeeps(s, lim, env);
      case FinishEvent(id, out, io) =>
        FinishKeeps(s, lim, id, out, io);
        InterruptedByShutdown(s, lim);
        BeginShutdownKeeps(s, lim);
        FinishAfterShutdown(s, lim, id, out, io);
      case ProgressEvent(id, phase) => ProgressStop(s, id, phase);
      case ExpireEvent(now) => ExpireStop(s, lim, now);
      case ConfigEvent(next) =>
      case StopEvent =>
      case ShutdownEvent => InterruptedByShutdown(s, lim);
    }
  }

  lemma InterruptedByShutdown(s: Loop, lim: Limits)
    requires Good(s, lim)
    ensures var t := BeginShutdown(s, lim);
            && (forall id | id in t.index :: t.index[id].state.Terminal())
            && (forall id | id in s.index && !s.index[id].state.Terminal() && id in t.index :: t.index[id].state.Interrupted?)
  {
    BeginShutdownKeeps(s, lim);
    hide Inv, Evolves, DropAll;
    var u := DropAll(s, lim, s.queue, Interrupted, NoCode);
    var t := BeginShutdown(s, lim);
    InterruptRunningTouches(u);
    forall id | id in t.index ensures t.index[id].state.Terminal()
      && (id in s.index && !s.index[id].state.Terminal() ==> t.index[id].state.Interrupted?) {
      if id !in s.queue && id !in s.running {
        SettledOutside(s, lim, id);
      }
    }
  }

  lemma SettledOutside(s: Loop, lim: Limits, id: ID)
    requires Good(s, lim) && id in s.index && id !in s.queue && id !in s.running
    ensures s.index[id].state.Terminal()
  {
    assert Record(s, id);
  }

  lemma FinishAfterShutdown(s: Loop, lim: Limits, id: ID, out: Outcome, io: FinalizeAnswers)
    requires Good(s, lim) && Good(BeginShutdown(s, lim), lim)
    requires forall x | x in BeginShutdown(s, lim).index :: BeginShutdown(s, lim).index[x].state.Terminal()
    ensures var u := BeginShutdown(s, lim);
            var t := Finish(u, lim, id, out, io);
            forall x | x in t.index :: x in u.index && t.index[x].state == u.index[x].state
  {
    hide Inv, BeginShutdown, Finish;
    var u := BeginShutdown(s, lim);
    var t := Finish(u, lim, id, out, io);
    FinishKeeps(u, lim, id, out, io);
    forall x | x in t.index ensures x in u.index && t.index[x].state == u.index[x].state {
      StageInIndex(u, lim, x);
      StageInIndex(t, lim, x);
      BornStage(u, x);
      BornStage(t, x);
      assert Stage(u, x) <= Stage(t, x);
      assert Ages(u.index[x], t.index[x]);
    }
  }

  /** What the loop itself may decide about work that was running when the stop was requested. */
  predicate NoVerdict(state: State) {
    state.Running? || state.Cancelled? || state.Interrupted?
  }

  lemma StopSticky(s: Loop, lim: Limits, e: Event)
    requires Good(s, lim) && Known(s) && !s.stop.Serving?
    ensures !Step(s, lim, e).stop.Serving?
  {
    hide Inv, Evolves, Submit, Cancel, DispatchOne, Finish, Progress, Expire, BeginShutdown, DropAll, MarkOverdue;
    match e {
      case SubmitEvent(r, env) => SubmitFrame(s, lim, r, env);
      case CancelEvent(id) => CancelKeeps(s, lim, id);
      case DispatchEvent(env) =>
        if !s.stop.Stopping? {
          DispatchOneKeeps(s, lim, env);
        }
      case FinishEvent(id, out, io) =>
        FinishKeeps(s, lim, id, out, io);
        BeginShutdownKeeps(s, lim);
        BeginShutdownHalts(s, lim);
        FinishKeeps(BeginShutdown(s, lim), lim, id, out, io);
      case ProgressEvent(id, phase) => ProgressStop(s, id, phase);
      case ExpireEvent(now) => ExpireStop(s, lim, now);
      case ConfigEvent(next) =>
      case StopEvent =>
      case ShutdownEvent => BeginShutdownHalts(s, lim);
    }
  }

  lemma SettledFinish(s: Loop, lim: Limits, id: ID, out: Outcome, io: FinalizeAnswers, x: ID)
    requires Good(s, lim) && x in s.index && s.index[x].state.Terminal() && x in Finish(s, lim, id, out, io).index
    ensures Finish(s, lim, id, out, io).index[x].state == s.index[x].state
  {
    FinishKeeps(s, lim, id, out, io);
    hide Inv, Finish, Stage;
    assert Ages(s.index[x], Finish(s, lim, id, out, io).index[x]);
  }

  lemma FinishLeaves(s: Loop, lim: Limits, e: Event, id: ID)
    requires Good(s, lim) && Known(s) && id in s.running && id !in Step(s, lim, e).running
    ensures e.FinishEvent?
  {
    hide Inv, Evolves, Submit, Cancel, DispatchOne, Finish, Progress, Expire, BeginShutdown, DropAll, MarkOverdue, Start, Drop;
    match e {
      case SubmitEvent(r, env) => SubmitFrame(s, lim, r, env);
      case CancelEvent(x) => CancelKeeps(s, lim, x);
      case DispatchEvent(env) => DispatchOneLeavesNone(s, lim, env);
      case FinishEvent(x, out, io) =>
      case ProgressEvent(x, phase) => ProgressKeeps(s, lim, x, phase);
      case ExpireEvent(now) => ExpireKeeps(s, lim, now);
      case ConfigEvent(next) =>
      case StopEvent =>
      case ShutdownEvent => BeginShutdownKeeps(s, lim);
    }
  }

  lemma DispatchOneLeavesNone(s: Loop, lim: Limits, env: DispatchEnv)
    requires Good(s, lim) && Known(s)
    ensures forall x | x in s.running :: x in DispatchOne(s, lim, env).running
  {
    hide Inv, TakeRunnable, Drop, Check, Start;
    if |s.running| < lim.parallel && TakeRunnable(s).Some? {
      TakenIsLeast(s, lim);
      var id := TakeRunnable(s).value;
      var verdict := Check(s.daemon, env.guard, env.wizard, s.index[id].request);
      if verdict.Refuse? {
        DropKeeps(s, lim, id, Failed, verdict.code);
      } else {
        StartFrame(s, id, env.now);
      }
    }
  }

  lemma StepAfterStop(s: Loop, lim: Limits, e: Event, id: ID)
    requires Good(s, lim) && Known(s) && Halted(s) && !s.stop.Serving? && id in s.running && id in Step(s, lim, e).index
    ensures NoVerdict(Step(s, lim, e).index[id].state)
  {
    hide Good, Inv, Evolves, Known, Submit, Cancel, DispatchOne, Finish, Progress, Expire, ChangeConfiguration, BeginShutdown, DropAll;
    StepKeeps(s, lim, e);
    RunningRecord(s, lim, id);
    if id in Step(s, lim, e).running {
      RunningRecord(Step(s, lim, e), lim, id);
    } else {
      FinishLeaves(s, lim, e, id);
      if s.stop.Stopping? {
        SettledFinish(s, lim, e.id, e.out, e.io, id);
      } else {
        BeginShutdownKeeps(s, lim);
        var u := BeginShutdown(s, lim);
        RunningRecord(u, lim, id);
        SettledFinish(u, lim, e.id, e.out, e.io, id);
      }
    }
  }

  /**
   Whatever order the stop and the completions are seen in, work that was running
   when the stop was requested never takes its worker's verdict.
   */
  lemma {:induction false} StopOutranksVerdicts(d: Daemon, lim: Limits, es: seq<Event>, i: nat, j: nat, id: ID)
    requires ValidLimits(lim) && i <= j <= |es| && !At(d, lim, es, i).stop.Serving? && id in At(d, lim, es, i).running
    ensures !At(d, lim, es, j).stop.Serving?
    ensures id in At(d, lim, es, j).index ==> NoVerdict(At(d, lim, es, j).index[id].state)
    decreases j
  {
    hide Good, Inv, Stage, At, Known, Step, Halted;
    if i == j {
      RunningRecord(At(d, lim, es, i), lim, id);
    } else {
      var (a, b, c) := (At(d, lim, es, i), At(d, lim, es, j - 1), At(d, lim, es, j));
      StopOutranksVerdicts(d, lim, es, i, j - 1, id);
      AtStep(d, lim, es, j - 1);
      RunHalted(d, lim, es, j - 1);
      StopSticky(b, lim, es[j - 1]);
      if id in c.index {
        RunEvolves(d, lim, es, i, j - 1);
        RunEvolves(d, lim, es, j - 1, j);
        StageOfMember(a, lim, id);
        StageOfMember(b, lim, id);
        StageInIndex(b, lim, id);
        StageInIndex(c, lim, id);
        assert Stage(a, id) <= Stage(b, id) <= Stage(c, id);
        if id in b.running {
          StepAfterStop(b, lim, es[j - 1], id);
        } else {
          SettledOutside(b, lim, id);
          assert Ages(b.index[id], c.index[id]);
        }
      }
    }
  }

  /** Everything undecided when shutdown begins ends, and stays, interrupted. */
  lemma ShutdownIsFinal(d: Daemon, lim: Limits, es: seq<Event>, i: nat, j: nat, id: ID)
    requires ValidLimits(lim) && i < j <= |es|
    requires !At(d, lim, es, i).stop.Stopping? && At(d, lim, es, i + 1).stop.Stopping?
    requires id in At(d, lim, es, i).index && !At(d, lim, es, i).index[id].state.Terminal()
    ensures id in At(d, lim, es, j).index ==> At(d, lim, es, j).index[id].state.Interrupted?
  {
    hide Good, Inv, Evolves, At, Known, Step;
    var (a, b, c) := (At(d, lim, es, i), At(d, lim, es, i + 1), At(d, lim, es, j));
    AtStep(d, lim, es, i);
    ShutdownInterrupts(a, lim, es[i]);
    RunEvolves(d, lim, es, i, i + 1);
    RunEvolves(d, lim, es, i + 1, j);
    if id in c.index {
      RememberedBetween(a, b, c, lim, id);
    }
  }

  lemma RememberedBetween(a: Loop, b: Loop, c: Loop, lim: Limits, id: ID)
    requires Good(a, lim) && Good(b, lim) && Good(c, lim) && Evolves(a, b) && Evolves(b, c) && id in a.index && id in c.index
    ensures id in b.index && Ages(b.index[id], c.index[id])
  {
    hide Good, Inv, Stage, Ages;
    StageInIndex(a, lim, id);
    StageInIndex(b, lim, id);
    StageInIndex(c, lim, id);
    assert Stage(a, id) <= Stage(b, id) <= Stage(c, id);
  }
}
