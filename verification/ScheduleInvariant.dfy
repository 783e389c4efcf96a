/**
 The inductive invariant of the coordinator loop and its preservation by every step.
 */
module ScheduleInvariant {
  import opened Actions
  import opened Ambient
  import opened Schedule

  ghost predicate Distinct(ids: seq<ID>) {
    forall i, j | 0 <= i < j < |ids| :: ids[i] != ids[j]
  }

  /**
   The index is the disjoint union of the queue, the running set and the terminal
   history. `limbo` holds an action that one step is just moving between them.
   */
  ghost predicate Partition(s: Loop, limbo: set<ID>) {
    && Distinct(s.queue)
    && Distinct(s.terminals)
    && (forall id :: id in s.index <==> id in s.queue || id in s.running || id in s.terminals || id in limbo)
    && (forall id | id in s.queue :: id !in s.running && id !in s.terminals && id !in limbo)
    && (forall id | id in s.running :: id !in s.terminals && id !in limbo)
    && (forall id | id in s.terminals :: id !in limbo)
  }

  ghost predicate Record(s: Loop, id: ID)
    requires id in s.index
  {
    var a := s.index[id];
    && a.id == id
    && 1 <= id <= s.nextID
    && a.sequence <= s.nextSeq
    && (a.retired <==> id in s.terminals)
    && (id in s.queue ==> a.state.Queued? && a.sequence == 0)
    && (id in s.running ==> a.sequence > 0 && (a.state.Running? || a.state.Cancelled? || a.state.Interrupted?))
    && (id in s.running && a.state.Terminal() ==> s.running[id].cancelled)
    && (id in s.terminals ==> a.state.Terminal())
  }

  ghost predicate Records(s: Loop) {
    forall id | id in s.index :: Record(s, id)
  }

  /** busyLines is exactly the inverse of the running workers' lines. */
  ghost predicate Lines(s: Loop) {
    && (forall id | id in s.running :: id in s.index && s.running[id].line == s.index[id].line)
    && (forall id | id in s.running && s.running[id].line != "" ::
          s.running[id].line in s.busyLines && s.busyLines[s.running[id].line] == id)
    && (forall line | line in s.busyLines ::
          line != "" && s.busyLines[line] in s.running && s.running[s.busyLines[line]].line == line)
  }

  ghost predicate Exclusive(s: Loop) {
    && (forall a, b | a in s.running && b in s.running && a in s.index && s.index[a].request.kind.Switches() :: a == b)
    && (forall a, b | a in s.running && b in s.running && a in s.index && b in s.index
          && s.index[a].request.kind.PresetsRefresh? && s.index[b].request.kind.PresetsRefresh? :: a == b)
  }

  /** byKey and the index are two views of one bijection. */
  ghost predicate Keys(s: Loop) {
    && (forall k | k in s.byKey :: s.byKey[k] in s.index && s.index[s.byKey[k]].request.key == k)
    && (forall id | id in s.index :: s.index[id].request.key in s.byKey && s.byKey[s.index[id].request.key] == id)
  }

  ghost predicate Sequences(s: Loop) {
    forall a, b | a in s.index && b in s.index && s.index[a].sequence == s.index[b].sequence :: a == b || s.index[a].sequence == 0
  }

  ghost predicate Bounds(s: Loop, lim: Limits) {
    |s.queue| <= lim.queueLimit && |s.running| <= lim.parallel && |s.terminals| <= lim.history
  }

  /** Work pinned to a revision only runs under that revision. */
  ghost predicate RevisionHeld(s: Loop) {
    forall id | id in s.running && id in s.index && s.index[id].request.checkRevision ::
      s.index[id].request.configRevision == s.daemon.config.revision
  }

  ghost predicate Inv(s: Loop, lim: Limits, limbo: set<ID>) {
    && Partition(s, limbo) && Records(s) && Lines(s) && Exclusive(s) && Keys(s) && Sequences(s)
    && Bounds(s, lim) && RevisionHeld(s) && (s.stop.Stopping? ==> s.queue == [])
  }

  ghost predicate Good(s: Loop, lim: Limits) {
    ValidLimits(lim) && Inv(s, lim, {})
  }

  lemma GoodIsKnown(s: Loop, lim: Limits)
    requires Good(s, lim)
    ensures Known(s)
  {
  }

  lemma InitialGood(d: Daemon, lim: Limits)
    requires ValidLimits(lim)
    ensures Good(Initial(d), lim)
  {
  }

  // ---------------------------------------------------------------------
  // Removing from a list of ids
  // ---------------------------------------------------------------------

  lemma {:induction false} RemoveMembers(ids: seq<ID>, id: ID)
    requires Distinct(ids)
    ensures forall x :: x in Remove(ids, id) <==> x in ids && x != id
    ensures Distinct(Remove(ids, id))
    ensures |Remove(ids, id)| <= |ids|
    ensures id in ids ==> |Remove(ids, id)| == |ids| - 1
  {
    if ids != [] {
      var rest := ids[1..];
      assert ids == [ids[0]] + rest;
      RemoveMembers(rest, id);
      if ids[0] == id {
        assert id !in rest;
      } else {
        assert ids[0] !in rest;
      }
    }
  }

  lemma {:induction false} RemoveAt(ids: seq<ID>, i: nat)
    requires Distinct(ids) && i < |ids|
    ensures Remove(ids, ids[i]) == ids[..i] + ids[i + 1..]
  {
    if i > 0 {
      assert ids[1..][i - 1] == ids[i];
      RemoveAt(ids[1..], i - 1);
      assert ids[0] != ids[i];
      assert ids[1..][..i - 1] == ids[1..i] && ids[1..][i..] == ids[i + 1..];
      assert [ids[0]] + ids[1..i] == ids[..i];
    }
  }

  // ---------------------------------------------------------------------
  // Filing
  // ---------------------------------------------------------------------

  lemma AppendMembers(ids: seq<ID>, id: ID)
    ensures forall x :: x in ids + [id] <==> x in ids || x == id
    ensures Distinct(ids) && id !in ids ==> Distinct(ids + [id])
  {
  }

  lemma TailMembers(ids: seq<ID>)
    requires ids != [] && Distinct(ids)
    ensures forall x :: x in ids[1..] <==> x in ids && x != ids[0]
    ensures Distinct(ids[1..])
  {
    assert ids == [ids[0]] + ids[1..];
    assert forall i | 0 <= i < |ids| - 1 :: ids[1..][i] == ids[i + 1];
  }

  lemma FiledPartition(s: Loop, id: ID)
    requires Partition(s, {id}) && Records(s) && s.index[id].state.Terminal()
    ensures Partition(Filed(s, id), {}) && Records(Filed(s, id))
    ensures id !in s.terminals
  {
    var t := Filed(s, id);
    AppendMembers(s.terminals, id);
    assert forall x :: x in t.index <==> x in s.index;
    assert forall x | x in t.index && x != id :: t.index[x] == s.index[x];
    forall x | x in t.index ensures Record(t, x) {
      assert Record(s, x);
    }
  }

  /** An index update that keeps every action's line, request identity and dispatch number. */
  ghost predicate SameIdentity(s: Loop, t: Loop) {
    && (forall x :: x in t.index <==> x in s.index)
    && (forall x | x in t.index :: t.index[x].line == s.index[x].line && t.index[x].sequence == s.index[x].sequence
          && Redacted(t.index[x].request) == Redacted(s.index[x].request))
  }

  lemma SameIdentityKeeps(s: Loop, t: Loop)
    requires SameIdentity(s, t) && t.byKey == s.byKey && t.busyLines == s.busyLines
    requires t.running.Keys == s.running.Keys && (forall x | x in t.running :: t.running[x].line == s.running[x].line)
    requires t.daemon.config.revision == s.daemon.config.revision
    ensures Lines(s) ==> Lines(t)
    ensures Exclusive(s) ==> Exclusive(t)
    ensures Keys(s) ==> Keys(t)
    ensures Sequences(s) ==> Sequences(t)
    ensures RevisionHeld(s) ==> RevisionHeld(t)
  {
    assert forall x | x in t.index :: t.index[x].request.key == s.index[x].request.key
                                   && t.index[x].request.kind == s.index[x].request.kind
                                   && t.index[x].request.checkRevision == s.index[x].request.checkRevision
                                   && t.index[x].request.configRevision == s.index[x].request.configRevision by {
      forall x | x in t.index ensures t.index[x].request.key == s.index[x].request.key
                                   && t.index[x].request.kind == s.index[x].request.kind
                                   && t.index[x].request.checkRevision == s.index[x].request.checkRevision
                                   && t.index[x].request.configRevision == s.index[x].request.configRevision {
        var p, q := Redacted(t.index[x].request), Redacted(s.index[x].request);
        assert p.key == q.key && p.kind == q.kind;
      }
    }
    assert forall x :: x in t.running <==> x in s.running;
  }

  /** Forgetting an action that is not running disturbs nothing that is. */
  lemma ForgetKeeps(s: Loop, t: Loop)
    requires t.running == s.running && t.busyLines == s.busyLines && t.daemon == s.daemon
    requires forall x | x in t.index :: x in s.index && t.index[x] == s.index[x]
    requires forall x | x in s.running :: x in t.index
    ensures Lines(s) ==> Lines(t)
    ensures Exclusive(s) ==> Exclusive(t)
    ensures Sequences(s) ==> Sequences(t)
    ensures RevisionHeld(s) ==> RevisionHeld(t)
  {
  }

  lemma DropOldestPartition(s: Loop)
    requires Partition(s, {}) && Records(s) && s.terminals != []
    ensures Partition(DropOldest(s), {}) && Records(DropOldest(s))
    ensures s.terminals[0] in s.index && DropOldest(s).index == s.index - {s.terminals[0]}
    ensures forall x :: x in DropOldest(s).terminals <==> x in s.terminals && x != s.terminals[0]
    ensures forall x | x in s.running :: x in DropOldest(s).index
  {
    var t := DropOldest(s);
    var oldest := s.terminals[0];
    TailMembers(s.terminals);
    assert oldest in s.terminals && oldest in s.index;
    assert forall x :: x in t.index <==> x in s.index && x != oldest;
    forall x | x in t.index ensures Record(t, x) {
      assert Record(s, x);
    }
  }

  lemma DropOldestKeys(s: Loop)
    requires Keys(s) && s.terminals != [] && s.terminals[0] in s.index
    ensures Keys(DropOldest(s))
  {
    var t := DropOldest(s);
    var oldest := s.terminals[0];
    var key := s.index[oldest].request.key;
    assert t.byKey == s.byKey - {key};
    assert forall x :: x in t.index <==> x in s.index && x != oldest;
    assert forall k :: k in t.byKey <==> k in s.byKey && k != key;
  }

  /** What filing one action changes, and everything it leaves alone. */
  ghost predicate FiledFrame(s: Loop, t: Loop, id: ID) {
    && t.queue == s.queue && t.running == s.running && t.busyLines == s.busyLines
    && t.nextID == s.nextID && t.nextSeq == s.nextSeq && t.stop == s.stop && t.daemon == s.daemon
    && id in t.index && id in s.index
    && t.index[id] == s.index[id].(retired := true, request := Redacted(s.index[id].request))
    && (forall x | x in t.index :: x in s.index && (x != id ==> t.index[x] == s.index[x]))
    && (forall x | x in s.index && x !in t.index :: x in s.terminals)
    && id in t.terminals
    && (forall x | x in t.terminals :: x in s.terminals || x == id)
  }

  lemma FiledKeeps(s: Loop, lim: Limits, id: ID)
    requires Inv(s, lim, {id}) && id in s.index && s.index[id].state.Terminal()
    ensures id !in s.terminals
    ensures var t := Filed(s, id);
            Partition(t, {}) && Records(t) && Lines(t) && Exclusive(t) && Keys(t) && Sequences(t) && RevisionHeld(t)
  {
    hide Partition, Records, Lines, Exclusive, Keys, Sequences, RevisionHeld;
    var t := Filed(s, id);
    FiledPartition(s, id);
    SameIdentityKeeps(s, t);
  }

  /** A history within its bound evicts at most one entry per filing. */
  lemma RetireShape(s: Loop, lim: Limits, id: ID)
    requires ValidLimits(lim) && |s.terminals| <= lim.history
    requires id in s.index && !s.index[id].retired && s.index[id].state.Terminal()
    ensures var f := Filed(s, id);
            if |f.terminals| <= lim.history then Retire(s, lim, id) == f
            else f.terminals[0] == s.terminals[0] && Retire(s, lim, id) == DropOldest(f) && |DropOldest(f).terminals| == lim.history
  {
    var f := Filed(s, id);
    if |f.terminals| > lim.history {
      assert |DropOldest(f).terminals| == lim.history;
      assert Evict(f, lim.history) == Evict(DropOldest(f), lim.history) == DropOldest(f);
    }
  }

  lemma RetireKeeps(s: Loop, lim: Limits, id: ID)
    requires ValidLimits(lim) && Inv(s, lim, {id}) && id in s.index && !s.index[id].retired && s.index[id].state.Terminal()
    ensures Inv(Retire(s, lim, id), lim, {})
    ensures FiledFrame(s, Retire(s, lim, id), id)
  {
    hide Partition, Records, Lines, Exclusive, Keys, Sequences, RevisionHeld, Retire, Evict, DropOldest;
    var f := Filed(s, id);
    FiledKeeps(s, lim, id);
    AppendMembers(s.terminals, id);
    RetireShape(s, lim, id);
    if |f.terminals| > lim.history {
      DropOldestPartition(f);
      DropOldestKeys(f);
      DropOldestFrame(f);
      ForgetKeeps(f, DropOldest(f));
    }
  }

  lemma DropOldestFrame(s: Loop)
    requires s.terminals != []
    ensures var t := DropOldest(s);
            && t.queue == s.queue && t.running == s.running && t.busyLines == s.busyLines
            && t.nextID == s.nextID && t.nextSeq == s.nextSeq && t.stop == s.stop && t.daemon == s.daemon
  {
  }

  // ---------------------------------------------------------------------
  // How actions age
  // ---------------------------------------------------------------------

  /** Unborn 0, queued 1, running 2, filed 3, forgotten 4. */
  ghost function Stage(s: Loop, id: ID): nat {
    if id == 0 || id > s.nextID then 0
    else if id in s.queue then 1
    else if id in s.running then 2
    else if id in s.terminals then 3
    else 4
  }

  /** What later states may still change about an action. */
  ghost predicate Ages(a: Action, b: Action) {
    && b.id == a.id && b.line == a.line && b.queuedAt == a.queuedAt
    && Redacted(b.request) == Redacted(a.request)
    && (a.state.Terminal() ==> b.state == a.state && b.code == a.code && b.result == a.result)
    && (a.sequence > 0 ==> b.sequence == a.sequence && b.startedAt == a.startedAt)
    && (a.retired ==> b == a)
  }

  ghost predicate Evolves(s: Loop, t: Loop) {
    && s.nextID <= t.nextID && s.nextSeq <= t.nextSeq
    && (forall id :: Stage(s, id) <= Stage(t, id))
    && (forall id | id in s.index && id in t.index :: Ages(s.index[id], t.index[id]))
  }

  lemma StageInIndex(s: Loop, lim: Limits, id: ID)
    requires Good(s, lim)
    ensures id in s.index <==> 1 <= Stage(s, id) <= 3
  {
    if id in s.index {
      assert Record(s, id);
    }
  }

  lemma EvolvesTransitive(s: Loop, t: Loop, u: Loop, lim: Limits)
    requires Good(s, lim) && Good(t, lim) && Good(u, lim)
    requires Evolves(s, t) && Evolves(t, u)
    ensures Evolves(s, u)
  {
    hide Good, Stage;
    forall id ensures Stage(s, id) <= Stage(u, id) {
      assert Stage(s, id) <= Stage(t, id) <= Stage(u, id);
    }
    forall id | id in s.index && id in u.index ensures Ages(s.index[id], u.index[id]) {
      StageInIndex(s, lim, id);
      StageInIndex(t, lim, id);
      StageInIndex(u, lim, id);
      assert Stage(s, id) <= Stage(t, id) <= Stage(u, id);
      assert Ages(s.index[id], t.index[id]) && Ages(t.index[id], u.index[id]);
    }
  }

  // ---------------------------------------------------------------------
  // Dropping queued work
  // ---------------------------------------------------------------------

  lemma QueuedRecord(s: Loop, id: ID)
    requires Partition(s, {}) && Records(s) && id in s.queue
    ensures id in s.index && s.index[id].state.Queued? && s.index[id].sequence == 0 && !s.index[id].retired
    ensures id !in s.running && id !in s.terminals && 1 <= id <= s.nextID && s.index[id].id == id && Record(s, id)
  {
    assert Record(s, id);
  }

  lemma UnqueuePartition(s: Loop, id: ID, state: State, code: Code)
    requires Partition(s, {}) && Records(s) && id in s.queue && state.Terminal()
    ensures id in s.index
    ensures Partition(Unqueue(s, id, state, code), {id})
  {
    hide Records, Record;
    var t := Unqueue(s, id, state, code);
    RemoveMembers(s.queue, id);
    assert forall x :: x in t.index <==> x in s.index;
  }

  lemma UnqueueRecords(s: Loop, id: ID, state: State, code: Code)
    requires Partition(s, {}) && Records(s) && id in s.queue && state.Terminal()
    ensures id in s.index
    ensures var t := Unqueue(s, id, state, code);
            && Records(t) && |t.queue| < |s.queue|
            && !t.index[id].retired && t.index[id] == s.index[id].(state := state, code := code)
  {
    QueuedRecord(s, id);
    hide Partition;
    var t := Unqueue(s, id, state, code);
    RemoveMembers(s.queue, id) by {
      DistinctQueue(s);
    }
    forall x | x in t.index ensures Record(t, x) {
      assert Record(s, x);
    }
  }

  lemma DistinctQueue(s: Loop)
    requires Partition(s, {})
    ensures Distinct(s.queue)
  {
  }

  lemma UnqueueKeeps(s: Loop, lim: Limits, id: ID, state: State, code: Code)
    requires Inv(s, lim, {}) && id in s.queue && state.Terminal()
    ensures id in s.index
    ensures var t := Unqueue(s, id, state, code);
            && Inv(t, lim, {id})
            && !t.index[id].retired && t.index[id] == s.index[id].(state := state, code := code)
  {
    hide Partition, Records, Lines, Exclusive, Keys, Sequences, RevisionHeld;
    UnqueuePartition(s, id, state, code);
    UnqueueRecords(s, id, state, code);
    SameIdentityKeeps(s, Unqueue(s, id, state, code));
  }

  ghost predicate DropFrame(s: Loop, t: Loop, id: ID, state: State, code: Code) {
    && t.queue == Remove(s.queue, id) && t.running == s.running && t.busyLines == s.busyLines
    && t.nextID == s.nextID && t.nextSeq == s.nextSeq && t.stop == s.stop && t.daemon == s.daemon
    && id in s.index && id in t.index && id in t.terminals
    && t.index[id] == s.index[id].(state := state, code := code, retired := true, request := Redacted(s.index[id].request))
    && (forall x | x in t.index :: x in s.index && (x != id ==> t.index[x] == s.index[x]))
    && (forall x | x in s.index && x !in t.index :: x in s.terminals)
    && (forall x | x in t.terminals :: x in s.terminals || x == id)
  }

  lemma DropKeeps(s: Loop, lim: Limits, id: ID, state: State, code: Code)
    requires Good(s, lim) && id in s.queue && state.Terminal()
    ensures Good(Drop(s, lim, id, state, code), lim)
    ensures DropFrame(s, Drop(s, lim, id, state, code), id, state, code)
  {
    hide Partition, Records, Lines, Exclusive, Keys, Sequences, RevisionHeld, Retire;
    UnqueueKeeps(s, lim, id, state, code);
    RetireKeeps(Unqueue(s, id, state, code), lim, id);
  }

  lemma DropEvolves(s: Loop, t: Loop, lim: Limits, id: ID, state: State, code: Code)
    requires Good(s, lim) && Good(t, lim) && id in s.queue && DropFrame(s, t, id, state, code)
    ensures Evolves(s, t)
  {
    hide Partition, Records, Lines, Exclusive, Keys, Sequences, RevisionHeld, Bounds, Stage, Ages, Redacted;
    DropStages(s, t, id, state, code);
    QueuedRecord(s, id);
    forall x | x in s.index && x in t.index
      ensures Ages(s.index[x], t.index[x])
    {
      DropAges(s.index[x], t.index[x], state, code);
    }
  }

  lemma DropStages(s: Loop, t: Loop, id: ID, state: State, code: Code)
    requires Partition(s, {}) && Partition(t, {}) && id in s.queue && DropFrame(s, t, id, state, code)
    ensures forall x :: Stage(s, x) <= Stage(t, x)
  {
    RemoveMembers(s.queue, id);
    hide Ages, Redacted;
  }

  lemma DropAges(a: Action, b: Action, state: State, code: Code)
    requires b == a || (b == a.(state := state, code := code, retired := true, request := Redacted(a.request))
                        && !a.state.Terminal() && a.sequence == 0 && !a.retired)
    ensures Ages(a, b)
  {
  }
}
