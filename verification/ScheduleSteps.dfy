/**
 Every step of the coordinator loop keeps the invariant and only lets actions age.
 */
module ScheduleSteps {
  import opened Actions
  import opened Ambient
  import opened Schedule
  import opened ScheduleInvariant

  // ---------------------------------------------------------------------
  // Dropping several queued actions
  // ---------------------------------------------------------------------

  lemma EvolvesReflexive(s: Loop)
    ensures Evolves(s, s)
  {
  }

  /** Nothing but the queue, the index, its keys and the history moves. */
  ghost predicate SameWorkers(s: Loop, t: Loop) {
    && t.running == s.running && t.busyLines == s.busyLines
    && t.nextID == s.nextID && t.nextSeq == s.nextSeq && t.stop == s.stop && t.daemon == s.daemon
  }

  ghost predicate Dropped(s: Loop, t: Loop, ids: seq<ID>, state: State) {
    && SameWorkers(s, t)
    && (forall x :: x in t.queue <==> x in s.queue && x !in ids)
    && (forall x | x in t.index :: x in s.index && (x !in ids ==> t.index[x] == s.index[x]) && (x in ids ==> t.index[x].state == state))
    && (forall x | x in s.index && x !in t.index :: x in s.terminals || x in ids)
    && (forall x | x in t.terminals :: x in s.terminals || x in ids)
  }

  lemma {:induction false} DropAllKeeps(s: Loop, lim: Limits, ids: seq<ID>, state: State, code: Code)
    requires Good(s, lim) && Distinct(ids) && (forall id | id in ids :: id in s.queue) && state.Terminal()
    ensures Good(DropAll(s, lim, ids, state, code), lim)
    ensures Dropped(s, DropAll(s, lim, ids, state, code), ids, state)
    ensures Evolves(s, DropAll(s, lim, ids, state, code))
  {
    hide Inv, Drop, Evolves;
    if ids == [] {
      EvolvesReflexive(s);
    } else {
      var n := |ids| - 1;
      var id := ids[n];
      var t := DropAll(s, lim, ids[..n], state, code);
      assert ids == ids[..n] + [id];
      DropAllKeeps(s, lim, ids[..n], state, code);
      assert id in t.queue;
      DropKeeps(t, lim, id, state, code);
      var u := Drop(t, lim, id, state, code);
      DropEvolves(t, u, lim, id, state, code);
      EvolvesTransitive(s, t, u, lim);
      GoodQueue(t, lim);
      RemoveMembers(t.queue, id);
      DroppedStep(s, t, u, ids[..n], id, state, code);
    }
  }

  lemma GoodQueue(s: Loop, lim: Limits)
    requires Good(s, lim)
    ensures Distinct(s.queue) && Distinct(s.terminals)
    ensures forall id | id in s.queue :: id in s.index && !s.index[id].state.Terminal() && id !in s.running && id !in s.terminals
    ensures forall id | id in s.running :: id in s.index && id !in s.queue && id !in s.terminals
  {
    hide Lines, Exclusive, Keys, Sequences, RevisionHeld;
    forall id | id in s.queue ensures !s.index[id].state.Terminal() {
      QueuedRecord(s, id);
    }
  }

  lemma DroppedStep(s: Loop, t: Loop, u: Loop, ids: seq<ID>, id: ID, state: State, code: Code)
    requires Dropped(s, t, ids, state) && DropFrame(t, u, id, state, code) && id in s.queue && id !in ids
    requires forall x :: x in u.queue <==> x in t.queue && x != id
    ensures Dropped(s, u, ids + [id], state)
  {
    AppendMembers(ids, id);
  }

  // ---------------------------------------------------------------------
  // Updating running work in place
  // ---------------------------------------------------------------------

  /** Actions of running workers may change state; nothing enters or leaves any collection. */
  ghost predicate Touches(s: Loop, t: Loop) {
    && t.queue == s.queue && t.terminals == s.terminals && t.byKey == s.byKey && t.busyLines == s.busyLines
    && t.nextID == s.nextID && t.nextSeq == s.nextSeq && t.daemon == s.daemon
    && t.running.Keys == s.running.Keys
    && (forall x | x in t.running :: t.running[x].line == s.running[x].line && (s.running[x].cancelled ==> t.running[x].cancelled))
    && (forall x | x in t.running && x in t.index && t.index[x].state.Terminal() ::
          t.running[x].cancelled || (x in s.index && s.index[x].state.Terminal()))
    && (forall x :: x in t.index <==> x in s.index)
    && (forall x | x in t.index && x !in s.running :: t.index[x] == s.index[x])
    && (forall x | x in t.index && x in s.running ::
          && t.index[x] == s.index[x].(state := t.index[x].state, code := t.index[x].code, phase := t.index[x].phase)
          && (if s.index[x].state.Terminal() then t.index[x].state == s.index[x].state && t.index[x].code == s.index[x].code
              else t.index[x].state == s.index[x].state || t.index[x].state.Cancelled? || t.index[x].state.Interrupted?))
  }

  lemma TouchesPartition(s: Loop, t: Loop)
    requires Partition(s, {}) && Records(s) && Touches(s, t)
    ensures Partition(t, {}) && Records(t)
  {
    assert forall x :: x in t.running <==> x in s.running;
    forall x | x in t.index ensures Record(t, x) {
      assert Record(s, x);
    }
  }

  lemma SameKeysSameSize(a: map<ID, Run>, b: map<ID, Run>)
    requires a.Keys == b.Keys
    ensures |a| == |b|
  {
    assert |a| == |a.Keys| && |b| == |b.Keys|;
  }

  lemma TouchesKeeps(s: Loop, t: Loop, lim: Limits)
    requires Good(s, lim) && Touches(s, t) && (t.stop == s.stop || !t.stop.Stopping? || t.queue == [])
    ensures Good(t, lim) && Evolves(s, t)
  {
    hide Lines, Exclusive, Keys, Sequences, RevisionHeld, Partition, Records, Evolves;
    SameIdentityKeeps(s, t);
    SameKeysSameSize(s.running, t.running);
    TouchesPartition(s, t);
    TouchesEvolves(s, t);
    hide Touches;
  }

  lemma TouchesEvolves(s: Loop, t: Loop)
    requires Partition(s, {}) && Records(s) && Touches(s, t)
    ensures Evolves(s, t)
  {
    TouchesStages(s, t);
    hide Partition, Stage, Redacted;
    forall x | x in s.index && x in t.index ensures Ages(s.index[x], t.index[x]) {
      assert Record(s, x);
    }
  }

  lemma TouchesStages(s: Loop, t: Loop)
    requires Touches(s, t)
    ensures forall x :: Stage(s, x) <= Stage(t, x)
  {
    assert forall x :: x in t.running <==> x in s.running;
    hide Redacted;
  }

  lemma CancelRunningKeeps(s: Loop, lim: Limits, id: ID)
    requires Good(s, lim) && id in s.running && id in s.index && !s.index[id].state.Terminal()
    ensures Touches(s, CancelRunning(s, id))
    ensures Good(CancelRunning(s, id), lim) && Evolves(s, CancelRunning(s, id))
  {
    hide Inv, Evolves;
    var t := CancelRunning(s, id);
    assert t.running.Keys == s.running.Keys;
    TouchesKeeps(s, t, lim);
  }

  // ---------------------------------------------------------------------
  // Cancelling
  // ---------------------------------------------------------------------

  /** What cancelling the given ids does, seen from outside. */
  ghost predicate CancelFrame(s: Loop, t: Loop, ids: seq<ID>) {
    && t.nextID == s.nextID && t.nextSeq == s.nextSeq && t.stop == s.stop && t.daemon == s.daemon && t.busyLines == s.busyLines
    && t.running.Keys == s.running.Keys
    && (forall x | x in t.queue :: x in s.queue && x !in ids)
    && |t.queue| <= |s.queue|
    && (forall x | x in t.index :: x in s.index && (x !in ids ==> t.index[x] == s.index[x]))
    && (forall x | x in t.index && x in ids :: t.index[x].state.Terminal())
  }

  lemma CancelKeeps(s: Loop, lim: Limits, id: ID)
    requires Good(s, lim)
    ensures Good(Cancel(s, lim, id), lim) && Evolves(s, Cancel(s, lim, id))
    ensures CancelFrame(s, Cancel(s, lim, id), [id])
  {
    hide Inv, Evolves, Drop;
    EvolvesReflexive(s);
    GoodQueue(s, lim);
    if id in s.index && !s.index[id].state.Terminal() {
      if id in s.running {
        CancelRunningKeeps(s, lim, id);
      } else {
        LiveIsQueued(s, lim, id);
        DropKeeps(s, lim, id, Cancelled, CodeCancelled);
        DropEvolves(s, Drop(s, lim, id, Cancelled, CodeCancelled), lim, id, Cancelled, CodeCancelled);
        RemoveMembers(s.queue, id);
      }
    }
  }

  lemma LiveIsQueued(s: Loop, lim: Limits, id: ID)
    requires Good(s, lim) && id in s.index && id !in s.running && !s.index[id].state.Terminal()
    ensures id in s.queue
  {
    assert Record(s, id);
  }

  lemma {:induction false} CancelAllKeeps(s: Loop, lim: Limits, ids: seq<ID>)
    requires Good(s, lim)
    ensures Good(CancelAll(s, lim, ids), lim) && Evolves(s, CancelAll(s, lim, ids))
    ensures CancelFrame(s, CancelAll(s, lim, ids), ids)
  {
    hide Inv, Evolves, Cancel;
    if ids == [] {
      EvolvesReflexive(s);
    } else {
      var n := |ids| - 1;
      var t := CancelAll(s, lim, ids[..n]);
      assert ids == ids[..n] + [ids[n]];
      CancelAllKeeps(s, lim, ids[..n]);
      CancelKeeps(t, lim, ids[n]);
      EvolvesTransitive(s, t, Cancel(t, lim, ids[n]), lim);
      CancelFrameStep(s, t, Cancel(t, lim, ids[n]), ids[..n], ids[n], lim);
    }
  }

  lemma CancelFrameStep(s: Loop, t: Loop, u: Loop, ids: seq<ID>, id: ID, lim: Limits)
    requires CancelFrame(s, t, ids) && CancelFrame(t, u, [id]) && Good(t, lim) && Good(u, lim) && Evolves(t, u)
    ensures CancelFrame(s, u, ids + [id])
  {
    hide Inv, Stage;
    AppendMembers(ids, id);
    forall x | x in u.index && x in ids + [id] ensures u.index[x].state.Terminal() {
      if x in ids {
        assert Ages(t.index[x], u.index[x]);
      }
    }
  }

  // ---------------------------------------------------------------------
  // Submitting
  // ---------------------------------------------------------------------

  lemma EnqueuePartition(s: Loop, r: Request, now: Time)
    requires Partition(s, {}) && Records(s)
    ensures Partition(Enqueue(s, r, now), {}) && Records(Enqueue(s, r, now))
    ensures s.nextID + 1 !in s.index
  {
    var id := s.nextID + 1;
    var t := Enqueue(s, r, now);
    assert forall x | x in s.index :: Record(s, x) && x <= s.nextID;
    AppendMembers(s.queue, id);
    assert forall x :: x in t.index <==> x in s.index || x == id;
    forall x | x in t.index ensures Record(t, x) {
      if x != id {
        assert Record(s, x);
      }
    }
  }

  lemma EnqueueRest(s: Loop, r: Request, now: Time)
    requires Lines(s) && Exclusive(s) && Sequences(s) && RevisionHeld(s) && s.nextID + 1 !in s.index
    ensures var t := Enqueue(s, r, now);
            Lines(t) && Exclusive(t) && Sequences(t) && RevisionHeld(t)
  {
    var t := Enqueue(s, r, now);
    assert forall x :: x in t.index <==> x in s.index || x == s.nextID + 1;
  }

  lemma EnqueueKeys(s: Loop, r: Request, now: Time)
    requires Keys(s) && s.nextID + 1 !in s.index && r.key !in s.byKey
    ensures Keys(Enqueue(s, r, now))
  {
    var t := Enqueue(s, r, now);
    assert forall x :: x in t.index <==> x in s.index || x == s.nextID + 1;
    assert forall k :: k in t.byKey <==> k in s.byKey || k == r.key;
  }

  lemma EnqueueKeeps(s: Loop, lim: Limits, r: Request, now: Time)
    requires Good(s, lim) && |s.queue| < lim.queueLimit && r.key !in s.byKey && !s.stop.Stopping?
    ensures Good(Enqueue(s, r, now), lim) && Evolves(s, Enqueue(s, r, now))
  {
    hide Partition, Records, Lines, Exclusive, Keys, Sequences, RevisionHeld;
    EnqueuePartition(s, r, now);
    EnqueueRest(s, r, now);
    EnqueueKeys(s, r, now);
    EnqueueEvolves(s, r, now);
  }

  lemma EnqueueEvolves(s: Loop, r: Request, now: Time)
    requires Partition(s, {}) && Records(s) && s.nextID + 1 !in s.index
    ensures Evolves(s, Enqueue(s, r, now))
  {
    hide Records;
    AppendMembers(s.queue, s.nextID + 1);
  }

  /** Cancelling never brings a forgotten key back. */
  lemma {:induction false} CancelAllKeys(s: Loop, lim: Limits, ids: seq<ID>, key: string)
    requires Good(s, lim) && key !in s.byKey
    ensures key !in CancelAll(s, lim, ids).byKey
  {
    CancelAllKeeps(s, lim, ids);
    hide Partition, Records, Lines, Exclusive, Sequences, RevisionHeld, Evolves, CancelAll;
    var t := CancelAll(s, lim, ids);
    if key in t.byKey {
      var id := t.byKey[key];
      SameKeyBefore(s, lim, t, id);
    }
  }

  lemma SameKeyBefore(s: Loop, lim: Limits, t: Loop, id: ID)
    requires Good(s, lim) && Evolves(s, t) && id in s.index && id in t.index
    ensures t.index[id].request.key == s.index[id].request.key
    ensures s.index[id].request.key in s.byKey
  {
    hide Partition, Records, Lines, Exclusive, Sequences, RevisionHeld, Stage;
    assert Ages(s.index[id], t.index[id]);
    assert Redacted(t.index[id].request).key == Redacted(s.index[id].request).key;
  }

  /** Replacing the daemon's view under an unchanged revision concerns no loop collection. */
  lemma DaemonKeeps(s: Loop, lim: Limits, d: Daemon)
    requires Good(s, lim) && d.config.revision == s.daemon.config.revision
    ensures Good(s.(daemon := d), lim) && Evolves(s, s.(daemon := d))
  {
    var t := s.(daemon := d);
    SameIdentityKeeps(s, t);
    TouchesRecords(s, t);
  }

  lemma TouchesRecords(s: Loop, t: Loop)
    requires t == s.(daemon := t.daemon) && Partition(s, {}) && Records(s)
    ensures Partition(t, {}) && Records(t) && Evolves(s, t)
  {
    forall x | x in t.index ensures Record(t, x) {
      assert Record(s, x);
    }
  }

  lemma ClearedKeeps(s: Loop, lim: Limits, r: Request, order: seq<ID>)
    requires Good(s, lim)
    ensures var t := Cleared(s, lim, r, order);
            && Good(t, lim) && Evolves(s, t) && t.daemon == s.daemon && t.nextID == s.nextID && t.stop == s.stop
            && |t.queue| <= |s.queue| && t.running.Keys == s.running.Keys
            && (r.key !in s.byKey ==> r.key !in t.byKey)
  {
    hide Inv, Evolves, CancelAll;
    EvolvesReflexive(s);
    CancelAllKeeps(s, lim, Superseded(s, r, order));
    if r.key !in s.byKey {
      CancelAllKeys(s, lim, Superseded(s, r, order), r.key);
    }
  }

  lemma SubmitFreshKeeps(s: Loop, lim: Limits, r: Request, env: SubmitEnv)
    requires Good(s, lim) && r.key !in s.byKey && !s.stop.Stopping?
    ensures Good(SubmitFresh(s, lim, r, env).0, lim) && Evolves(s, SubmitFresh(s, lim, r, env).0)
    ensures SubmitFresh(s, lim, r, env).0.daemon.config == s.daemon.config
  {
    hide Inv, Evolves, Cleared, Enqueue, Check;
    EvolvesReflexive(s);
    var (d, admitted) := Admit(s.daemon, r, env.clears, env.writes);
    if Check(s.daemon, env.guard, env.wizard, r).Pass? && |s.queue| < lim.queueLimit && admitted.Pass? {
      var s1 := s.(daemon := d);
      DaemonKeeps(s, lim, d);
      ClearedKeeps(s1, lim, r, env.order);
      var s2 := Cleared(s1, lim, r, env.order);
      EnqueueKeeps(s2, lim, r, env.now);
      EnqueueDaemon(s2, r, env.now);
      EvolvesTransitive(s, s1, s2, lim);
      EvolvesTransitive(s, s2, Enqueue(s2, r, env.now), lim);
    }
  }

  lemma EnqueueDaemon(s: Loop, r: Request, now: Time)
    ensures var t := Enqueue(s, r, now);
            t.daemon == s.daemon && t.running == s.running && t.stop == s.stop && t.queue == s.queue + [s.nextID + 1]
  {
  }

  lemma SubmitKeeps(s: Loop, lim: Limits, r: Request, env: SubmitEnv)
    requires Good(s, lim) && !s.stop.Stopping?
    ensures Good(Submit(s, lim, r, env).0, lim) && Evolves(s, Submit(s, lim, r, env).0)
    ensures Submit(s, lim, r, env).0.daemon.config == s.daemon.config
  {
    EvolvesReflexive(s);
    KeysLive(s, lim, r.key);
    hide Inv, Evolves, SubmitFresh;
    if r.key !in s.byKey {
      SubmitFreshKeeps(s, lim, Sealed(lim, r), env);
    }
  }

  lemma KeysLive(s: Loop, lim: Limits, key: string)
    requires Good(s, lim)
    ensures key in s.byKey ==> s.byKey[key] in s.index && s.index[s.byKey[key]].request.key == key
  {
  }

  // ---------------------------------------------------------------------
  // Dispatching
  // ---------------------------------------------------------------------

  lemma RunsFirstTotal(a: Action, b: Action)
    ensures !(RunsFirst(a, b) && RunsFirst(b, a))
    ensures a.id != b.id ==> RunsFirst(a, b) || RunsFirst(b, a)
  {
  }

  lemma RunsFirstTransitive(a: Action, b: Action, c: Action)
    requires RunsFirst(a, b) && RunsFirst(b, c)
    ensures RunsFirst(a, c)
  {
  }

  /** The choice made by scanning the queue is the least eligible action. */
  lemma {:induction false} BestIsLeast(s: Loop, lim: Limits, n: nat)
    requires Good(s, lim) && n <= |s.queue| && Known(s)
    ensures var best := Best(s, n);
            && (best.None? <==> forall i | 0 <= i < n :: !Eligible(s, s.queue[i]))
            && (best.Some? ==>
                && best.value in s.queue[..n] && best.value in s.index && Eligible(s, best.value)
                && forall i | 0 <= i < n && s.queue[i] != best.value && Eligible(s, s.queue[i]) ::
                     RunsFirst(s.index[best.value], s.index[s.queue[i]]))
  {
    hide Inv, Eligible, RunsFirst;
    if n > 0 {
      BestIsLeast(s, lim, n - 1);
      var before, id := Best(s, n - 1), s.queue[n - 1];
      assert s.queue[..n] == s.queue[..n - 1] + [id];
      QueueIds(s, lim);
      if before.Some? && Eligible(s, id) {
        var b := before.value;
        RunsFirstTotal(s.index[id], s.index[b]);
        forall i | 0 <= i < n - 1 && Eligible(s, s.queue[i]) && RunsFirst(s.index[id], s.index[b])
          ensures RunsFirst(s.index[id], s.index[s.queue[i]]) {
          if s.queue[i] != b {
            RunsFirstTransitive(s.index[id], s.index[b], s.index[s.queue[i]]);
          }
        }
      }
    }
  }

  lemma QueueIds(s: Loop, lim: Limits)
    requires Good(s, lim)
    ensures Distinct(s.queue)
    ensures forall id | id in s.queue :: id in s.index && s.index[id].id == id
  {
    hide Lines, Exclusive, Keys, Sequences, RevisionHeld;
    forall id | id in s.queue ensures s.index[id].id == id {
      QueuedRecord(s, id);
    }
  }

  /** What a queued action must meet to be handed to a worker. */
  ghost predicate MayStart(s: Loop, id: ID) {
    && Known(s) && id in s.queue && id in s.index && Eligible(s, id) && !SwitchRunning(s)
    && (s.index[id].request.kind.Switches() ==> s.running == map[])
    && (s.index[id].request.checkRevision ==> s.index[id].request.configRevision == s.daemon.config.revision)
  }

  lemma StartPartition(s: Loop, id: ID, now: Time)
    requires Partition(s, {}) && Records(s) && id in s.queue && id in s.index
    ensures Partition(Start(s, id, now), {}) && Records(Start(s, id, now))
    ensures |Start(s, id, now).queue| < |s.queue| && |Start(s, id, now).running| == |s.running| + 1
  {
    QueuedRecord(s, id);
    var t := Start(s, id, now);
    StartMembers(s, id, now);
    StartRecords(s, id, now);
    hide Records;
    assert t.running.Keys == s.running.Keys + {id};
    assert |t.running| == |t.running.Keys| == |s.running.Keys| + 1;
  }

  lemma StartMembers(s: Loop, id: ID, now: Time)
    requires Partition(s, {}) && id in s.queue && id in s.index
    ensures Partition(Start(s, id, now), {}) && |Start(s, id, now).queue| < |s.queue|
  {
    var t := Start(s, id, now);
    RemoveMembers(s.queue, id);
    assert forall x :: x in t.index <==> x in s.index;
    assert forall x :: x in t.running <==> x in s.running || x == id;
  }

  lemma StartRecords(s: Loop, id: ID, now: Time)
    requires Partition(s, {}) && Records(s) && id in s.queue && id in s.index
    ensures Records(Start(s, id, now))
  {
    QueuedRecord(s, id);
    var t := Start(s, id, now);
    RemoveMembers(s.queue, id);
    forall x | x in t.index ensures Record(t, x) {
      assert Record(s, x);
    }
  }

  lemma IdleHoldsNoLine(s: Loop)
    requires Lines(s) && s.running == map[]
    ensures forall l :: l !in s.busyLines
  {
  }

  lemma StartLines(s: Loop, id: ID, now: Time)
    requires Lines(s) && MayStart(s, id) && id !in s.running
    ensures Lines(Start(s, id, now))
  {
    var t := Start(s, id, now);
    var line := s.index[id].line;
    if s.index[id].request.kind.Switches() {
      IdleHoldsNoLine(s);
    }
    assert line == "" || line !in s.busyLines;
  }

  lemma StartExclusive(s: Loop, id: ID, now: Time)
    requires Exclusive(s) && MayStart(s, id) && id !in s.running
    ensures Exclusive(Start(s, id, now))
  {
    hide Exclusive, Start;
    NoRivals(s, id);
    StartRequests(s, id, now);
    ExclusiveGrows(s, Start(s, id, now), id);
  }

  lemma NoRivals(s: Loop, id: ID)
    requires MayStart(s, id)
    ensures forall x | x in s.running :: x in s.index && !s.index[x].request.kind.Switches()
    ensures s.index[id].request.kind.Switches() ==> s.running == map[]
    ensures s.index[id].request.kind.PresetsRefresh? ==> forall x | x in s.running :: !s.index[x].request.kind.PresetsRefresh?
  {
  }

  lemma StartRequests(s: Loop, id: ID, now: Time)
    requires id in s.index
    ensures var t := Start(s, id, now);
            && (forall x :: x in t.index <==> x in s.index)
            && (forall x | x in s.index :: t.index[x].request == s.index[x].request)
            && (forall x :: x in t.running <==> x in s.running || x == id)
  {
  }

  lemma ExclusiveGrows(s: Loop, t: Loop, id: ID)
    requires Exclusive(s) && id in s.index && (forall x | x in s.running :: x in s.index && !s.index[x].request.kind.Switches())
    requires s.index[id].request.kind.Switches() ==> s.running == map[]
    requires s.index[id].request.kind.PresetsRefresh? ==> forall x | x in s.running :: !s.index[x].request.kind.PresetsRefresh?
    requires (forall x :: x in t.index <==> x in s.index) && (forall x | x in s.index :: t.index[x].request == s.index[x].request)
    requires forall x :: x in t.running <==> x in s.running || x == id
    ensures Exclusive(t)
  {
  }

  lemma StartSequences(s: Loop, id: ID, now: Time)
    requires Sequences(s) && Records(s) && id in s.index
    ensures Sequences(Start(s, id, now))
  {
    var t := Start(s, id, now);
    assert forall x | x in s.index :: Record(s, x) && s.index[x].sequence <= s.nextSeq;
    hide Records, Record;
    assert forall x | x in t.index && x != id :: x in s.index && t.index[x].sequence == s.index[x].sequence < t.nextSeq;
  }

  lemma StartRest(s: Loop, id: ID, now: Time)
    requires Keys(s) && RevisionHeld(s) && id in s.index
    requires s.index[id].request.checkRevision ==> s.index[id].request.configRevision == s.daemon.config.revision
    ensures Keys(Start(s, id, now)) && RevisionHeld(Start(s, id, now))
  {
    var t := Start(s, id, now);
    assert forall x :: x in t.index <==> x in s.index;
    assert forall x | x in t.index :: t.index[x].request == s.index[x].request;
  }

  lemma StartEvolves(s: Loop, id: ID, now: Time)
    requires Partition(s, {}) && Records(s) && id in s.queue && id in s.index
    ensures Evolves(s, Start(s, id, now))
  {
    QueuedRecord(s, id);
    hide Records;
    StartStages(s, id, now);
    hide Partition, Stage, Redacted;
  }

  lemma StartStages(s: Loop, id: ID, now: Time)
    requires Partition(s, {}) && id in s.queue && id in s.index
    ensures forall x :: Stage(s, x) <= Stage(Start(s, id, now), x)
  {
    RemoveMembers(s.queue, id);
    hide Redacted;
  }

  lemma StartKeeps(s: Loop, lim: Limits, id: ID, now: Time)
    requires Good(s, lim) && MayStart(s, id) && |s.running| < lim.parallel && !s.stop.Stopping?
    ensures Good(Start(s, id, now), lim) && Evolves(s, Start(s, id, now))
  {
    QueuedRecord(s, id);
    hide Partition, Records, Lines, Exclusive, Keys, Sequences, RevisionHeld, Eligible, SwitchRunning;
    StartPartition(s, id, now);
    StartLines(s, id, now);
    StartExclusive(s, id, now);
    StartRest(s, id, now);
    StartSequences(s, id, now);
    StartEvolves(s, id, now);
  }

  /** Whatever the dispatch loop takes is the least eligible action, and may start. */
  lemma TakenIsLeast(s: Loop, lim: Limits)
    requires Good(s, lim) && Known(s) && TakeRunnable(s).Some?
    ensures var id := TakeRunnable(s).value;
            && id in s.queue && id in s.index && Eligible(s, id) && !SwitchRunning(s)
            && (s.index[id].request.kind.Switches() ==> s.running == map[])
            && (forall x | x in s.queue && x != id && Eligible(s, x) :: RunsFirst(s.index[id], s.index[x]))
  {
    hide Inv, Eligible, RunsFirst, SwitchRunning;
    BestIsLeast(s, lim, |s.queue|);
    assert s.queue[..|s.queue|] == s.queue;
  }

  lemma DispatchOneKeeps(s: Loop, lim: Limits, env: DispatchEnv)
    requires Good(s, lim) && Known(s) && !s.stop.Stopping?
    ensures var t := DispatchOne(s, lim, env);
            && Good(t, lim) && Evolves(s, t) && Known(t)
            && t.daemon == s.daemon && t.stop == s.stop && t.nextID == s.nextID
            && (|s.running| < lim.parallel && TakeRunnable(s).Some? ==> |t.queue| < |s.queue|)
  {
    EvolvesReflexive(s);
    hide Inv, Evolves, Eligible, RunsFirst, SwitchRunning, Drop, Start, Check, TakeRunnable;
    if |s.running| < lim.parallel && TakeRunnable(s).Some? {
      TakenIsLeast(s, lim);
      var id := TakeRunnable(s).value;
      var verdict := Check(s.daemon, env.guard, env.wizard, s.index[id].request);
      GoodQueue(s, lim);
      RemoveMembers(s.queue, id);
      if verdict.Refuse? {
        DropKeeps(s, lim, id, Failed, verdict.code);
        DropEvolves(s, Drop(s, lim, id, Failed, verdict.code), lim, id, Failed, verdict.code);
      } else {
        StartKeeps(s, lim, id, env.now);
        StartFrame(s, id, env.now);
      }
    }
    GoodIsKnown(DispatchOne(s, lim, env), lim);
  }

  lemma StartFrame(s: Loop, id: ID, now: Time)
    requires id in s.index
    ensures var t := Start(s, id, now);
            && t.daemon == s.daemon && t.stop == s.stop && t.nextID == s.nextID && t.queue == Remove(s.queue, id) && t.terminals == s.terminals
            && t.running.Keys == s.running.Keys + {id} && t.nextSeq == s.nextSeq + 1 && t.index.Keys == s.index.Keys
            && t.index[id].sequence == t.nextSeq && t.index[id].request == s.index[id].request
  {
  }

  // ---------------------------------------------------------------------
  // Completion
  // ---------------------------------------------------------------------

  lemma SettledAction(d: Daemon, a: Action, overdue: bool, out: Outcome, io: FinalizeAnswers)
    requires !a.retired
    ensures var (d1, b) := Settle(d, a, overdue, out, io);
            && b.state.Terminal() && Ages(a, b) && b.retired == a.retired && b.sequence == a.sequence && b.request == a.request
            && (d1.config.revision != d.config.revision ==> a.request.kind.Switches())
            && (d1.config == d.config || d1.config.revision == d.config.revision + 1)
            && (a.state.Terminal() ==> d1 == d && b == a)
  {
  }

  lemma ReleasePartition(s: Loop, id: ID, a: Action, d: Daemon)
    requires Partition(s, {}) && Records(s) && id in s.running && id in s.index
    requires a.state.Terminal() && !a.retired && a.id == id && a.sequence == s.index[id].sequence
    ensures var t := Release(s, id).(daemon := d, index := s.index[id := a]);
            && Partition(t, {id}) && Records(t) && |t.running| == |s.running| - 1
  {
    var t := Release(s, id).(daemon := d, index := s.index[id := a]);
    assert t.running.Keys == s.running.Keys - {id};
    assert |t.running| == |t.running.Keys|;
    assert |s.running| == |s.running.Keys|;
    assert forall x :: x in t.index <==> x in s.index;
    assert forall x :: x in t.running <==> x in s.running && x != id;
    assert Record(s, id);
    forall x | x in t.index ensures Record(t, x) {
      assert Record(s, x);
    }
  }

  lemma ReleaseLines(s: Loop, id: ID, t: Loop)
    requires Lines(s) && id in s.running && id in s.index
    requires t.running == Release(s, id).running && t.busyLines == Release(s, id).busyLines
    requires forall x :: x in t.index <==> x in s.index
    requires forall x | x in t.index :: t.index[x].line == s.index[x].line
    ensures Lines(t)
  {
    var line := s.running[id].line;
    assert line != "" ==> t.busyLines == s.busyLines - {line};
  }

  /** The index facts that releasing a worker leaves in place. */
  ghost predicate SameRequests(s: Loop, t: Loop) {
    && (forall x :: x in t.index <==> x in s.index)
    && (forall x | x in t.index :: t.index[x].request == s.index[x].request && t.index[x].line == s.index[x].line
          && t.index[x].sequence == s.index[x].sequence)
  }

  lemma ReleaseRest(s: Loop, id: ID, t: Loop)
    requires Exclusive(s) && Keys(s) && Sequences(s) && RevisionHeld(s) && SameRequests(s, t)
    requires id in s.running && id in s.index && t.running == s.running - {id} && t.byKey == s.byKey
    requires t.daemon.config.revision != s.daemon.config.revision ==> s.index[id].request.kind.Switches()
    ensures Exclusive(t) && Keys(t) && Sequences(t) && RevisionHeld(t)
  {
    ReleaseExclusive(s, id, t);
    hide Exclusive;
    assert forall x :: x in t.running <==> x in s.running && x != id;
  }

  lemma ReleaseExclusive(s: Loop, id: ID, t: Loop)
    requires Exclusive(s) && SameRequests(s, t) && id in s.running && id in s.index && t.running == s.running - {id}
    ensures Exclusive(t)
    ensures s.index[id].request.kind.Switches() ==> forall x | x in s.running :: x == id
  {
    assert forall x :: x in t.running <==> x in s.running && x != id;
  }

  /** The state between a worker leaving the running set and its action being filed. */
  ghost function Released(s: Loop, id: ID, out: Outcome, io: FinalizeAnswers): Loop
    requires id in s.running && id in s.index
  {
    var (d, a) := Settle(s.daemon, s.index[id], s.running[id].overdue, out, io);
    Release(s, id).(daemon := d, index := s.index[id := a])
  }

  ghost predicate FinishedFrame(s: Loop, t: Loop, id: ID) {
    && id in s.running && id in s.index && id in t.index
    && t.queue == s.queue && t.terminals == s.terminals && t.nextID == s.nextID && t.nextSeq == s.nextSeq && t.stop == s.stop
    && t.running == s.running - {id}
    && (forall x :: x in t.index <==> x in s.index)
    && (forall x | x in t.index && x != id :: t.index[x] == s.index[x])
    && Ages(s.index[id], t.index[id])
  }

  lemma ReleasedKeeps(s: Loop, lim: Limits, id: ID, out: Outcome, io: FinalizeAnswers)
    requires Inv(s, lim, {}) && id in s.running && id in s.index && !s.index[id].retired && s.index[id].id == id
    ensures var t := Released(s, id, out, io);
            && Inv(t, lim, {id}) && FinishedFrame(s, t, id) && t.index[id].state.Terminal() && !t.index[id].retired
            && (t.daemon.config.revision != s.daemon.config.revision ==> s.index[id].request.kind.Switches())
            && (t.daemon.config == s.daemon.config || t.daemon.config.revision == s.daemon.config.revision + 1)
            && (s.index[id].state.Terminal() ==> t.daemon == s.daemon)
  {
    hide Partition, Records, Lines, Exclusive, Keys, Sequences, RevisionHeld, Settle, Ages, FinishedFrame, Release;
    var (d, a) := Settle(s.daemon, s.index[id], s.running[id].overdue, out, io);
    SettledAction(s.daemon, s.index[id], s.running[id].overdue, out, io);
    var t := Released(s, id, out, io);
    ReleasedFrame(s, t, id, a, d);
    ReleasePartition(s, id, a, d);
    ReleaseLines(s, id, t);
    ReleaseRest(s, id, t);
  }

  lemma ReleasedFrame(s: Loop, t: Loop, id: ID, a: Action, d: Daemon)
    requires id in s.running && id in s.index && t == Release(s, id).(daemon := d, index := s.index[id := a])
    requires Ages(s.index[id], a) && a.request == s.index[id].request && a.sequence == s.index[id].sequence && a.id == id
    ensures FinishedFrame(s, t, id) && SameRequests(s, t) && t.byKey == s.byKey && t.daemon == d && t.index[id] == a
    ensures t.queue == s.queue && t.terminals == s.terminals && t.stop == s.stop && t.running == s.running - {id}
  {
  }

  lemma FinishKeeps(s: Loop, lim: Limits, id: ID, out: Outcome, io: FinalizeAnswers)
    requires Good(s, lim)
    ensures var t := Finish(s, lim, id, out, io);
            && Good(t, lim) && Evolves(s, t)
            && t.queue == s.queue && t.stop == s.stop && t.nextID == s.nextID && t.nextSeq == s.nextSeq
            && (forall x | x in t.running :: x in s.running && x != id)
            && (t.daemon.config != s.daemon.config ==>
                t.running == map[] && s.running.Keys == {id} && t.daemon.config.revision == s.daemon.config.revision + 1)
  {
    EvolvesReflexive(s);
    if id in s.index && id in s.running {
      RunningRecord(s, lim, id);
      hide Inv, Retire, Settle, Evolves;
      ReleasedKeeps(s, lim, id, out, io);
      var t := Released(s, id, out, io);
      if t.daemon.config != s.daemon.config {
        SwitchAlone(s, lim, id);
      }
      RetireKeeps(t, lim, id);
      FinishEvolves(s, t, Retire(t, lim, id), lim, id);
    }
  }

  lemma RunningRecord(s: Loop, lim: Limits, id: ID)
    requires Good(s, lim) && id in s.running
    ensures id in s.index && !s.index[id].retired && s.index[id].id == id && s.index[id].sequence > 0 && id !in s.terminals && id !in s.queue
    ensures s.index[id].state.Running? || s.index[id].state.Cancelled? || s.index[id].state.Interrupted?
    ensures s.index[id].state.Terminal() ==> s.running[id].cancelled
    ensures 1 <= id <= s.nextID
  {
    assert Record(s, id);
  }

  lemma SwitchAlone(s: Loop, lim: Limits, id: ID)
    requires Good(s, lim) && id in s.running && s.index[id].request.kind.Switches()
    ensures s.running.Keys == {id} && s.running - {id} == map[]
  {
    assert forall x | x in s.running :: x == id;
  }

  lemma FinishEvolves(s: Loop, t: Loop, u: Loop, lim: Limits, id: ID)
    requires Good(s, lim) && Good(u, lim) && FinishedFrame(s, t, id) && FiledFrame(t, u, id) && !s.index[id].retired
    ensures Evolves(s, u)
  {
    hide Inv, Ages;
    assert forall x :: x in u.running <==> x in s.running && x != id;
    RunningRecord(s, lim, id);
    GoodQueue(s, lim);
    assert Ages(s.index[id], u.index[id]) by {
      FiledAges(s.index[id], t.index[id]);
    }
    forall x | x in s.index && x in u.index ensures Ages(s.index[x], u.index[x]) {
      AgesReflexive(s.index[x]);
    }
    forall x ensures Stage(s, x) <= Stage(u, x) {
      StageInIndex(s, lim, x);
      StageInIndex(u, lim, x);
    }
  }

  lemma AgesReflexive(a: Action)
    ensures Ages(a, a)
  {
  }

  lemma FiledAges(a: Action, b: Action)
    requires Ages(a, b) && !a.retired
    ensures Ages(a, b.(retired := true, request := Redacted(b.request)))
  {
  }

  // ---------------------------------------------------------------------
  // Progress, deadlines, configuration, shutdown
  // ---------------------------------------------------------------------

  lemma ProgressKeeps(s: Loop, lim: Limits, id: ID, phase: Phase)
    requires Good(s, lim)
    ensures Good(Progress(s, id, phase), lim) && Evolves(s, Progress(s, id, phase))
    ensures Touches(s, Progress(s, id, phase))
  {
    hide Inv, Evolves;
    TouchesKeeps(s, Progress(s, id, phase), lim);
  }

  lemma MarkOverdueKeeps(s: Loop, lim: Limits, now: Time)
    requires Good(s, lim)
    ensures Good(MarkOverdue(s, lim, now), lim) && Evolves(s, MarkOverdue(s, lim, now))
    ensures Touches(s, MarkOverdue(s, lim, now))
  {
    hide Inv, Evolves;
    var t := MarkOverdue(s, lim, now);
    assert t.running.Keys == s.running.Keys;
    TouchesKeeps(s, t, lim);
  }

  lemma {:induction false} StaleMembers(s: Loop, lim: Limits, now: Time, n: nat)
    requires Distinct(s.queue) && n <= |s.queue|
    ensures Distinct(Stale(s, lim, now, n))
    ensures forall x :: x in Stale(s, lim, now, n) <==> x in s.queue[..n] && WaitedTooLong(s, lim, x, now)
  {
    if n > 0 {
      StaleMembers(s, lim, now, n - 1);
      assert s.queue[..n] == s.queue[..n - 1] + [s.queue[n - 1]];
      assert s.queue[n - 1] !in s.queue[..n - 1];
      AppendMembers(Stale(s, lim, now, n - 1), s.queue[n - 1]);
    }
  }

  lemma ExpireKeeps(s: Loop, lim: Limits, now: Time)
    requires Good(s, lim)
    ensures Good(Expire(s, lim, now), lim) && Evolves(s, Expire(s, lim, now))
    ensures var ids := Stale(s, lim, now, |s.queue|);
            var t := DropAll(s, lim, ids, Failed, CodeDeadlineExceeded);
            && Dropped(s, t, ids, Failed) && Touches(t, Expire(s, lim, now)) && Expire(s, lim, now) == MarkOverdue(t, lim, now)
  {
    GoodQueue(s, lim);
    hide Inv, Evolves, DropAll, MarkOverdue, Dropped, Touches;
    var ids := Stale(s, lim, now, |s.queue|);
    StaleMembers(s, lim, now, |s.queue|);
    assert s.queue[..|s.queue|] == s.queue;
    DropAllKeeps(s, lim, ids, Failed, CodeDeadlineExceeded);
    var t := DropAll(s, lim, ids, Failed, CodeDeadlineExceeded);
    MarkOverdueKeeps(t, lim, now);
    EvolvesTransitive(s, t, MarkOverdue(t, lim, now), lim);
  }

  /** A configuration only ever changes under an idle loop. */
  lemma ChangeConfigurationKeeps(s: Loop, lim: Limits, next: Config)
    requires Good(s, lim)
    ensures var t := ChangeConfiguration(s, next).0;
            && Good(t, lim) && Evolves(s, t) && t == s.(daemon := t.daemon)
            && (t != s ==> s.queue == [] && s.running == map[])
  {
    var t := ChangeConfiguration(s, next).0;
    EvolvesReflexive(s);
    if t != s {
      hide Lines, Exclusive, Keys, Sequences;
      TouchesRecords(s, t);
      DaemonAnyRevision(s, t);
    }
  }

  lemma DaemonAnyRevision(s: Loop, t: Loop)
    requires t == s.(daemon := t.daemon)
    ensures Lines(s) ==> Lines(t)
    ensures Exclusive(s) ==> Exclusive(t)
    ensures Keys(s) ==> Keys(t)
    ensures Sequences(s) ==> Sequences(t)
  {
  }

  lemma InterruptRunningKeeps(s: Loop, lim: Limits)
    requires Good(s, lim) && s.queue == []
    ensures var t := InterruptRunning(s);
            && Good(t, lim) && Evolves(s, t) && Touches(s, t)
            && (forall id | id in t.running :: id in t.index && t.index[id].state.Terminal())
  {
    GoodQueue(s, lim);
    hide Inv, Evolves;
    InterruptRunningTouches(s);
    hide InterruptRunning;
    TouchesKeeps(s, InterruptRunning(s), lim);
  }

  lemma InterruptRunningTouches(s: Loop)
    ensures Touches(s, InterruptRunning(s))
    ensures forall id | id in s.running && id in s.index :: InterruptRunning(s).index[id].state.Terminal()
    ensures InterruptRunning(s).stop == Stopping
  {
    var t := InterruptRunning(s);
    assert t.running.Keys == s.running.Keys;
  }

  lemma NoMembersEmpty(ids: seq<ID>)
    requires forall x :: x !in ids
    ensures ids == []
  {
    FirstMember(ids);
  }

  lemma FirstMember(ids: seq<ID>)
    ensures ids == [] || exists x :: x in ids
  {
    assert ids == [] || ids[0] in ids;
  }

  lemma BeginShutdownKeeps(s: Loop, lim: Limits)
    requires Good(s, lim)
    ensures var t := BeginShutdown(s, lim);
            && Good(t, lim) && Evolves(s, t) && t.daemon == s.daemon && t.running.Keys == s.running.Keys
            && (forall id | id in t.running :: id in t.index && t.index[id].state.Terminal())
    ensures var u := DropAll(s, lim, s.queue, Interrupted, NoCode);
            Dropped(s, u, s.queue, Interrupted) && Touches(u, BeginShutdown(s, lim)) && u.queue == []
  {
    GoodQueue(s, lim);
    hide Inv, Evolves, DropAll, InterruptRunning;
    DropAllKeeps(s, lim, s.queue, Interrupted, NoCode);
    var u := DropAll(s, lim, s.queue, Interrupted, NoCode);
    NoMembersEmpty(u.queue);
    InterruptRunningKeeps(u, lim);
    EvolvesTransitive(s, u, InterruptRunning(u), lim);
  }

  // ---------------------------------------------------------------------
  // Any step
  // ---------------------------------------------------------------------

  lemma StopSignalKeeps(s: Loop, lim: Limits)
    requires Good(s, lim)
    ensures Good(s.(stop := StopRequested), lim) && Evolves(s, s.(stop := StopRequested))
  {
    hide Inv, Evolves;
    TouchesKeeps(s, s.(stop := StopRequested), lim);
  }

  lemma ShutdownThenFinish(s: Loop, lim: Limits, id: ID, out: Outcome, io: FinalizeAnswers)
    requires Good(s, lim)
    ensures var t := Finish(BeginShutdown(s, lim), lim, id, out, io);
            Good(t, lim) && Evolves(s, t) && t.daemon.config == s.daemon.config
  {
    BeginShutdownKeeps(s, lim);
    hide Inv, Evolves, BeginShutdown, DropAll, Touches, Dropped, Settle, Retire;
    var u := BeginShutdown(s, lim);
    FinishKeeps(u, lim, id, out, io);
    EvolvesTransitive(s, u, Finish(u, lim, id, out, io), lim);
    TerminalFinishKeepsDaemon(u, lim, id, out, io);
  }

  /** A completion for an action already settled touches nothing outside the loop. */
  lemma TerminalFinishKeepsDaemon(s: Loop, lim: Limits, id: ID, out: Outcome, io: FinalizeAnswers)
    requires Good(s, lim) && (id in s.index && id in s.running ==> s.index[id].state.Terminal())
    ensures Finish(s, lim, id, out, io).daemon == s.daemon
  {
    if id in s.index && id in s.running {
      RunningRecord(s, lim, id);
      hide Inv, Retire, Evolves, Settle;
      ReleasedKeeps(s, lim, id, out, io);
      RetireKeeps(Released(s, id, out, io), lim, id);
    }
  }

  /** The invariant is inductive, and no step lets an action grow younger. */
  lemma StepKeeps(s: Loop, lim: Limits, e: Event)
    requires Good(s, lim) && Known(s)
    ensures Good(Step(s, lim, e), lim) && Evolves(s, Step(s, lim, e)) && Known(Step(s, lim, e))
  {
    hide Inv, Evolves, Submit, Cancel, DispatchOne, Finish, Progress, Expire, ChangeConfiguration, BeginShutdown;
    EvolvesReflexive(s);
    match e {
      case SubmitEvent(r, env) =>
        if !s.stop.Stopping? {
          SubmitKeeps(s, lim, r, env);
        }
      case CancelEvent(id) => CancelKeeps(s, lim, id);
      case DispatchEvent(env) =>
        if !s.stop.Stopping? {
          DispatchOneKeeps(s, lim, env);
        }
      case FinishEvent(id, out, io) =>
        FinishKeeps(s, lim, id, out, io);
        ShutdownThenFinish(s, lim, id, out, io);
      case ProgressEvent(id, phase) => ProgressKeeps(s, lim, id, phase);
      case ExpireEvent(now) => ExpireKeeps(s, lim, now);
      case ConfigEvent(next) => ChangeConfigurationKeeps(s, lim, next);
      case StopEvent => StopSignalKeeps(s, lim);
      case ShutdownEvent => BeginShutdownKeeps(s, lim);
    }
    GoodIsKnown(Step(s, lim, e), lim);
  }
}
