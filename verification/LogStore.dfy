/**
 The event log's memory window and the cursor a reader follows through it. Models
 core/internal/logstore/store.go.
 */
module LogStore {
  import opened Wrappers

  const MEMORY_RECORDS := 500
  const MAX_TAIL_LINES := 2000
  const UINT64 := 0x1_0000_0000_0000_0000

  datatype Level = All | Debug | Info | Warn | Error {
    function Weight(): int {
      match this
      case All => 0
      case Debug => 10
      case Info => 20
      case Warn => 30
      case Error => 40
    }

    /** Whether an event of this level passes the threshold. */
    predicate PassedBy(threshold: Level) {
      !All? && Weight() >= threshold.Weight()
    }
  }

  datatype Record = Record(sequence: nat, at: int, line: string, event: string)

  /** A reader's filter; no Since and no Events keep everything. */
  datatype Query = Query(cursor: nat, since: Option<int>, limit: int, events: set<string>)

  datatype Page = Page(lines: seq<string>, cursor: nat, dropped: bool)

  predicate Wanted(q: Query, r: Record) {
    (q.since.Some? ==> r.at >= q.since.value) && (q.events != {} ==> r.event in q.events)
  }

  /** The lines a query wants from records [from, end) of everything ever emitted. */
  function Lines(q: Query, all: seq<Record>, from: nat, end: nat): seq<string>
    requires from <= end <= |all|
    decreases end
  {
    if from == end then []
    else Lines(q, all, from, end - 1) + if Wanted(q, all[end - 1]) then [all[end - 1].line] else []
  }

  function LimitOf(q: Query): (n: nat)
    ensures 0 < n <= MAX_TAIL_LINES
  {
    if q.limit <= 0 || q.limit > MAX_TAIL_LINES then MAX_TAIL_LINES else q.limit
  }

  /** The log: everything emitted, and how much of its end is still remembered. */
  datatype Log = Log(all: seq<Record>, kept: nat)

  predicate Valid(l: Log) {
    && l.kept <= |l.all| && l.kept <= MEMORY_RECORDS
    && (forall i | 0 <= i < |l.all| :: l.all[i].sequence == i + 1)
  }

  const NO_RECORDS: Log := Log([], 0)

  function Base(l: Log): int { |l.all| - l.kept }

  function Emit(l: Log, at: int, line: string, event: string): Log {
    Log(l.all + [Record(|l.all| + 1, at, line, event)], if l.kept < MEMORY_RECORDS then l.kept + 1 else MEMORY_RECORDS)
  }

  function Clear(l: Log): Log { l.(kept := 0) }

  /** Whether Tail reports a gap before its first record; the cursor arithmetic wraps at 64 bits. */
  predicate GapFlagged(l: Log, cursor: nat)
    requires Valid(l)
  {
    cursor > 0 && l.kept > 0 && Base(l) + 1 > (cursor + 1) % UINT64
  }

  /** The first record a page may still show. */
  function From(l: Log, cursor: nat): nat
    requires Valid(l)
  {
    if cursor >= |l.all| then |l.all| else if cursor >= Base(l) then cursor else Base(l)
  }

  function Tail(l: Log, q: Query): Page
    requires Valid(l)
  {
    var lines := Lines(q, l.all, From(l, q.cursor), |l.all|);
    if |lines| > LimitOf(q) then Page(lines[|lines| - LimitOf(q)..], |l.all|, true)
    else Page(lines, |l.all|, GapFlagged(l, q.cursor))
  }

  class Store {
    var threshold: Level
    var sequence: nat
    var records: seq<Record>
    ghost var all: seq<Record>

    ghost function View(): Log
      reads this
    {
      Log(all, |records|)
    }

    ghost predicate Inv()
      reads this
    {
      && Valid(View()) && sequence == |all| && records == all[|all| - |records|..]
    }

    constructor ()
      ensures Inv() && View() == NO_RECORDS && threshold == Info
    {
      threshold, sequence, records, all := Info, 0, [], [];
    }

    method EmitRecord(at: int, level: Level, event: string, line: string)
      requires Inv()
      modifies this
      ensures Inv() && threshold == old(threshold)
      ensures View() == if level.PassedBy(old(threshold)) then Emit(old(View()), at, line, event) else old(View())
    {
      if !level.PassedBy(threshold) {
        return;
      }
      sequence := sequence + 1;
      var record := Record(sequence, at, line, event);
      records := records + [record];
      all := all + [record];
      if |records| > MEMORY_RECORDS {
        records := records[|records| - MEMORY_RECORDS..];
      }
    }

    method ClearLog()
      requires Inv()
      modifies this
      ensures Inv() && View() == Clear(old(View())) && sequence == old(sequence) && threshold == old(threshold)
    {
      records := [];
    }

    /** The scan of the window. */
    method Select(q: Query) returns (lines: seq<string>)
      requires Inv()
      ensures lines == Lines(q, all, From(View(), q.cursor), |all|)
    {
      ghost var base, from := |all| - |records|, From(View(), q.cursor);
      lines := [];
      for i := 0 to |records|
        invariant lines == if base + i <= from then [] else Lines(q, all, from, base + i)
      {
        var record := records[i];
        assert record == all[base + i] && record.sequence == base + i + 1;
        if record.sequence <= q.cursor {
          continue;
        }
        if q.since.Some? && record.at < q.since.value {
          continue;
        }
        if q.events != {} && record.event !in q.events {
          continue;
        }
        lines := lines + [record.line];
      }
    }

    method TailPage(q: Query) returns (page: Page)
      requires Inv()
      ensures page == Tail(View(), q)
    {
      var limit := if q.limit <= 0 || q.limit > MAX_TAIL_LINES then MAX_TAIL_LINES else q.limit;
      var oldest := if |records| > 0 then records[0].sequence else 0;
      assert |records| > 0 ==> records[0] == all[|all| - |records|];
      var dropped := q.cursor > 0 && oldest > (q.cursor + 1) % UINT64;
      var lines := Select(q);
      if |lines| > limit {
        dropped := true;
        lines := lines[|lines| - limit..];
      }
      page := Page(lines, sequence, dropped);
    }
  }

  // ---------------------------------------------------------------------
  // One page
  // ---------------------------------------------------------------------

  lemma EmitKeeps(l: Log, at: int, line: string, event: string)
    requires Valid(l)
    ensures Valid(Emit(l, at, line, event)) && Valid(Clear(l))
  {
  }

  lemma {:induction false} LinesSplit(q: Query, all: seq<Record>, a: nat, b: nat, c: nat)
    requires a <= b <= c <= |all|
    ensures Lines(q, all, a, c) == Lines(q, all, a, b) + Lines(q, all, b, c)
    decreases c
  {
    if b < c {
      LinesSplit(q, all, a, b, c - 1);
    }
  }

  /**
   Where the reader's unseen records begin. A cursor beyond the newest sequence was
   handed out by an earlier process, so everything in this log is new to it.
   */
  function Unseen(l: Log, q: Query): nat {
    if q.cursor <= |l.all| then q.cursor else 0
  }

  /** Everything the reader asked for and has not seen. */
  function Owed(l: Log, q: Query): seq<string> { Lines(q, l.all, Unseen(l, q), |l.all|) }

  /** The part of it a page cannot show. */
  function Lost(l: Log, q: Query): seq<string>
    requires Valid(l)
  {
    Lines(q, l.all, Unseen(l, q), From(l, q.cursor))
  }

  /** A page not flagged shows everything owed that it did not lose, and moves the cursor to the newest sequence, back if need be. */
  lemma PageShowsTheRest(l: Log, q: Query)
    requires Valid(l) && !Tail(l, q).dropped
    ensures Lost(l, q) + Tail(l, q).lines == Owed(l, q)
    ensures Tail(l, q).cursor == |l.all|
  {
    LinesSplit(q, l.all, Unseen(l, q), From(l, q.cursor), |l.all|);
  }

  /**
   For every cursor: an unflagged page misses something the reader has not seen if and
   only if there is something, and the window is empty, as after a Clear; or the cursor
   comes from before a restart and is beyond the newest sequence; or the cursor is zero,
   which asks for the oldest remembered, and wanted records have already left the window.
   */
  lemma SilentLossExactlyWhen(l: Log, q: Query)
    requires Valid(l) && q.cursor < UINT64 && !Tail(l, q).dropped
    ensures Tail(l, q).lines != Owed(l, q) <==>
              || (Owed(l, q) != [] && (l.kept == 0 || q.cursor > |l.all|))
              || (q.cursor == 0 && Lines(q, l.all, 0, Base(l)) != [])
  {
    PageShowsTheRest(l, q);
    if l.kept == 0 || q.cursor > |l.all| {
      assert From(l, q.cursor) == |l.all|;
      assert Tail(l, q).lines == [];
    } else if q.cursor == 0 {
      assert From(l, q.cursor) == Base(l);
      assert Lost(l, q) == Lines(q, l.all, 0, Base(l));
    } else {
      assert From(l, q.cursor) == q.cursor;
      assert Lost(l, q) == [];
    }
  }

  /** A cursor from before a restart: two records of the new process are skipped, unflagged. */
  lemma RestartHidesRecords()
    ensures var l := Emit(Emit(NO_RECORDS, 0, "a", "x"), 1, "b", "x");
            var q := Query(7, None, 0, {});
            Valid(l) && Tail(l, q) == Page([], 2, false) && Owed(l, q) == ["a", "b"]
  {
    var l := Emit(Emit(NO_RECORDS, 0, "a", "x"), 1, "b", "x");
    var q := Query(7, None, 0, {});
    assert l.all == [Record(1, 0, "a", "x"), Record(2, 1, "b", "x")];
    assert Lines(q, l.all, 0, 0) == [] && Lines(q, l.all, 0, 1) == ["a"];
    assert Lines(q, l.all, 0, 2) == ["a", "b"] && Lines(q, l.all, 2, 2) == [];
  }

  /** Such a state: one record read, one more emitted, then cleared. */
  lemma ClearHidesARecord()
    ensures var l := Clear(Emit(Emit(NO_RECORDS, 0, "a", "x"), 1, "b", "x"));
            var q := Query(1, None, 0, {});
            Valid(l) && !Tail(l, q).dropped && Tail(l, q).lines == [] && Lines(q, l.all, 1, 2) == ["b"]
  {
    var l := Clear(Emit(Emit(NO_RECORDS, 0, "a", "x"), 1, "b", "x"));
    var q := Query(1, None, 0, {});
    assert l.all == [Record(1, 0, "a", "x"), Record(2, 1, "b", "x")];
    assert Lines(q, l.all, 1, 1) == [] && Lines(q, l.all, 1, 2) == ["b"];
    assert Lines(q, l.all, 2, 2) == [];
  }

  // ---------------------------------------------------------------------
  // A reader over a whole run
  // ---------------------------------------------------------------------

  datatype Event = EmitEvent(at: int, line: string, event: string) | ReadEvent

  /**
   A reader that follows the cursor with one fixed filter: `clean` until a page is
   flagged, `blind` once it read from cursor zero after records had left the window,
   `first` how many records had been emitted at its first read.
   */
  datatype Session = Session(log: Log, cursor: nat, got: seq<string>, clean: bool, blind: bool, first: Option<nat>)

  function Step(s: Session, q: Query, e: Event): Session
    requires Valid(s.log)
  {
    match e
    case EmitEvent(at, line, event) => s.(log := Emit(s.log, at, line, event))
    case ReadEvent =>
      var page := Tail(s.log, q.(cursor := s.cursor));
      s.(cursor := page.cursor, got := s.got + page.lines, clean := s.clean && !page.dropped,
      blind := s.blind || (s.cursor == 0 && Base(s.log) > 0),
      first := if s.first.None? then Some(|s.log.all|) else s.first)
  }

  function Run(s: Session, q: Query, es: seq<Event>): (t: Session)
    requires Valid(s.log)
    ensures Valid(t.log)
    decreases |es|
  {
    if es == [] then s else Step(Run(s, q, es[..|es| - 1]), q, es[|es| - 1])
  }

  /** Without Clear the window is never empty once something was emitted. */
  predicate NeverCleared(l: Log) {
    l.kept == if |l.all| < MEMORY_RECORDS then |l.all| else MEMORY_RECORDS
  }

  lemma {:induction false} LinesIgnoreLater(q: Query, r: Query, all: seq<Record>, more: seq<Record>, a: nat, b: nat)
    requires a <= b <= |all| && q == r.(cursor := q.cursor)
    ensures Lines(q, all + more, a, b) == Lines(r, all, a, b)
    decreases b
  {
    if a < b {
      LinesIgnoreLater(q, r, all, more, a, b - 1);
    }
  }

  /** Where the session's records begin: at its first cursor, or at its first read when that found the log shorter. */
  function Origin(s: Session, from: nat): nat {
    if s.first.Some? && s.first.value < from then s.first.value else from
  }

  /** What a clean session has seen so far is exactly the wanted records between its origin and its cursor. */
  predicate Follows(s: Session, q: Query, from: nat) {
    && Valid(s.log) && NeverCleared(s.log)
    && (s.first.None? ==> s.cursor == from && s.got == [])
    && (s.first.Some? ==>
          && Origin(s, from) <= s.cursor <= |s.log.all|
          && (s.clean && !s.blind ==> s.got == Lines(q, s.log.all, Origin(s, from), s.cursor)))
    && (s.blind ==> s.first.Some? && Origin(s, from) == 0)
  }

  lemma EmitFollows(s: Session, q: Query, at: int, line: string, event: string, from: nat)
    requires Follows(s, q, from)
    ensures Follows(Step(s, q, EmitEvent(at, line, event)), q, from)
  {
    EmitKeeps(s.log, at, line, event);
    if s.first.Some? {
      LinesIgnoreLater(q, q, s.log.all, [Record(|s.log.all| + 1, at, line, event)], Origin(s, from), s.cursor);
    }
  }

  lemma ReadFollows(s: Session, q: Query, from: nat)
    requires Follows(s, q, from) && from < UINT64 && |s.log.all| < UINT64
    ensures Follows(Step(s, q, ReadEvent), q, from)
  {
    var r, t, n := q.(cursor := s.cursor), Step(s, q, ReadEvent), |s.log.all|;
    if t.clean && !t.blind {
      if s.cursor > n {
        assert Tail(s.log, r).lines == [] && Lines(q, s.log.all, n, n) == [];
      } else {
        PageIsOwed(s.log, r);
        LinesIgnoreLater(r, q, s.log.all, [], s.cursor, n);
        assert s.log.all + [] == s.log.all;
        LinesSplit(q, s.log.all, Origin(t, from), s.cursor, n);
        assert s.first.None? ==> Lines(q, s.log.all, s.cursor, s.cursor) == [];
      }
    }
  }

  /** An unflagged page of a log never cleared, from a cursor in it that is not blind, is complete. */
  lemma PageIsOwed(l: Log, r: Query)
    requires Valid(l) && NeverCleared(l) && !Tail(l, r).dropped
    requires r.cursor <= |l.all| < UINT64 && (r.cursor == 0 ==> Base(l) <= 0)
    ensures Tail(l, r).lines == Lines(r, l.all, r.cursor, |l.all|)
  {
    SilentLossExactlyWhen(l, r);
    if r.cursor == 0 {
      assert Base(l) == 0 && Lines(r, l.all, 0, 0) == [];
    }
    if l.kept == 0 {
      assert |l.all| == 0;
    }
  }

  /**
   Absent Clear, over any run of emissions and reads and from any cursor: as long as no
   page was flagged and no read from zero came after records had left the window, the
   reader has received each wanted record after its origin exactly once and in order,
   up to the cursor it now holds. A session is blind only if its origin is zero: it
   began there, or its first read found an empty log.
   */
  lemma {:induction false} ReaderSeesEachOnce(l: Log, from: nat, q: Query, es: seq<Event>)
    requires Valid(l) && NeverCleared(l) && from < UINT64 && |l.all| + |es| < UINT64
    ensures var t := Run(Session(l, from, [], true, false, None), q, es);
            Follows(t, q, from) && |t.log.all| <= |l.all| + |es|
    decreases |es|
  {
    if es != [] {
      var n := |es| - 1;
      ReaderSeesEachOnce(l, from, q, es[..n]);
      var m := Run(Session(l, from, [], true, false, None), q, es[..n]);
      match es[n] {
        case EmitEvent(at, line, event) => EmitFollows(m, q, at, line, event, from);
        case ReadEvent => ReadFollows(m, q, from);
      }
    }
  }

  // ---------------------------------------------------------------------
  // What a threshold lets through, and what a reader then sees
  // ---------------------------------------------------------------------

  lemma ThresholdIs(threshold: Level)
    ensures !All.PassedBy(threshold) && Error.PassedBy(threshold)
    ensures Debug.PassedBy(threshold) <==> threshold in {All, Debug}
    ensures Info.PassedBy(threshold) <==> threshold in {All, Debug, Info}
    ensures Warn.PassedBy(threshold) <==> threshold in {All, Debug, Info, Warn}
  {
  }

  /** A reader that is up to date sees exactly the next event's line, if it wants it. */
  lemma NextReadShowsTheEvent(l: Log, at: int, line: string, event: string, q: Query)
    requires Valid(l) && 0 < q.cursor == |l.all| < UINT64 - 1
    ensures var page := Tail(Emit(l, at, line, event), q);
            && page.lines == (if (q.since.Some? ==> at >= q.since.value) && (q.events != {} ==> event in q.events) then [line] else [])
            && page.cursor == q.cursor + 1 && !page.dropped
  {
    var m := Emit(l, at, line, event);
    EmitKeeps(l, at, line, event);
    var n := |l.all|;
    assert m.all[n] == Record(n + 1, at, line, event);
    assert Lines(q, m.all, n, n) == [];
    assert From(m, q.cursor) == n;
  }
}
