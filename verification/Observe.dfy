/**
 The observation store: what readers are told about each account, whatever order the
 workers report in. Models core/internal/observe/store.go.
 */
module ObserveStore {
  import opened Wrappers

  datatype Triple = Triple(revision: nat, generation: nat, sequence: nat)

  /** Lexicographic order. */
  predicate Less(a: Triple, b: Triple) {
    || a.revision < b.revision
    || (a.revision == b.revision && a.generation < b.generation)
    || (a.revision == b.revision && a.generation == b.generation && a.sequence < b.sequence)
  }

  datatype Reading = Reading(link: string, auth: string, connectivity: string, identity: string, line: string, at: int)

  datatype Observation = Observation(account: string, triple: Triple, reading: Reading)

  datatype Drop = DropNone | DropNoAccount | DropObsoleteRevision | DropObsoleteBinding | DropLate

  datatype Note = Note(action: string, state: string, message: string)

  /** `observed` is the last accepted observation; an entry may exist before any. */
  datatype Entry = Entry(observed: Option<Observation>, running: string, note: Option<Note>)

  datatype State = State(revision: nat, accounts: map<string, Entry>)

  const FRESH := Entry(None, "", None)

  function EntryFor(s: State, a: string): Entry {
    if a in s.accounts then s.accounts[a] else FRESH
  }

  function Staleness(current: Triple, incoming: Triple): (d: Drop)
    ensures d == DropNone <==> !Less(incoming, current)
  {
    if incoming.revision < current.revision then DropObsoleteRevision
    else if incoming.revision > current.revision then DropNone
    else if incoming.generation < current.generation then DropObsoleteBinding
    else if incoming.generation > current.generation then DropNone
    else if incoming.sequence < current.sequence then DropLate
    else DropNone
  }

  function Verdict(s: State, o: Observation): Drop {
    if o.account == "" then DropNoAccount
    else if o.triple.revision < s.revision then DropObsoleteRevision
    else
      var e := EntryFor(s, o.account);
      if e.observed.None? then DropNone else Staleness(e.observed.value.triple, o.triple)
  }

  function Accept(s: State, o: Observation): State {
    if Verdict(s, o) != DropNone then s
    else s.(accounts := s.accounts[o.account := EntryFor(s, o.account).(observed := Some(o))])
  }

  function SetRevision(s: State, r: nat): State {
    if r > s.revision then s.(revision := r) else s
  }

  function ResetConfiguration(s: State, r: nat): State {
    if r > s.revision then State(r, map[]) else s
  }

  function ActionStarted(s: State, a: string, action: string): State {
    if a == "" then s
    else
      var e := EntryFor(s, a);
      if e.running == action && action != "" then s.(accounts := s.accounts[a := e])
      else s.(accounts := s.accounts[a := e.(running := action, note := None)])
  }

  function ActionFinished(s: State, a: string, note: Note): State {
    if a == "" then s
    else
      var e := EntryFor(s, a);
      if e.running != "" && e.running != note.action then s.(accounts := s.accounts[a := e])
      else s.(accounts := s.accounts[a := e.(running := "", note := Some(note))])
  }

  function Forget(s: State, a: string): State {
    s.(accounts := s.accounts - {a})
  }

  class Store {
    var revision: nat
    var accounts: map<string, Entry>

    ghost function View(): State
      reads this
    {
      State(revision, accounts)
    }

    constructor ()
      ensures View() == State(0, map[])
    {
      revision, accounts := 0, map[];
    }

    method RaiseRevision(r: nat)
      modifies this
      ensures View() == SetRevision(old(View()), r)
    {
      if r > revision {
        revision := r;
      }
    }

    method Reset(r: nat)
      modifies this
      ensures View() == ResetConfiguration(old(View()), r)
    {
      if r > revision {
        revision, accounts := r, map[];
      }
    }

    method AcceptObservation(o: Observation) returns (recorded: bool, drop: Drop)
      modifies this
      ensures View() == Accept(old(View()), o)
      ensures drop == Verdict(old(View()), o) && recorded == (drop == DropNone)
    {
      if o.account == "" {
        return false, DropNoAccount;
      }
      if o.triple.revision < revision {
        return false, DropObsoleteRevision;
      }
      var current := FRESH;
      if o.account in accounts {
        current := accounts[o.account];
        if current.observed.Some? {
          drop := Staleness(current.observed.value.triple, o.triple);
          if drop != DropNone {
            return false, drop;
          }
        }
      }
      accounts := accounts[o.account := current.(observed := Some(o))];
      return true, DropNone;
    }

    method Started(a: string, action: string)
      modifies this
      ensures View() == ActionStarted(old(View()), a, action)
    {
      if a == "" {
        return;
      }
      if a !in accounts {
        accounts := accounts[a := FRESH];
      }
      var e := accounts[a];
      if e.running == action && action != "" {
        assert accounts == old(accounts)[a := e];
        return;
      }
      accounts := accounts[a := e.(running := action, note := None)];
    }

    method Finished(a: string, note: Note)
      modifies this
      ensures View() == ActionFinished(old(View()), a, note)
    {
      if a == "" {
        return;
      }
      if a !in accounts {
        accounts := accounts[a := FRESH];
      }
      var e := accounts[a];
      if e.running != "" && e.running != note.action {
        assert accounts == old(accounts)[a := e];
        return;
      }
      accounts := accounts[a := e.(running := "", note := Some(note))];
    }

    method ForgetAccount(a: string)
      modifies this
      ensures View() == Forget(old(View()), a)
    {
      accounts := accounts - {a};
    }
  }

  // ---------------------------------------------------------------------
  // Confluence
  // ---------------------------------------------------------------------

  function AcceptAll(s: State, obs: seq<Observation>): State
    decreases |obs|
  {
    if obs == [] then s else Accept(AcceptAll(s, obs[..|obs| - 1]), obs[|obs| - 1])
  }

  /** Everything that may speak for an account: what is stored, and what arrives at or above the floor. */
  predicate Candidate(s: State, obs: seq<Observation>, a: string, o: Observation) {
    || EntryFor(s, a).observed == Some(o)
    || (o in obs && o.account == a && a != "" && o.triple.revision >= s.revision)
  }

  /** The entry holds a greatest candidate, and nothing but its observation moved. */
  ghost predicate HoldsGreatest(s: State, obs: seq<Observation>, t: State, a: string) {
    var before, after := EntryFor(s, a), EntryFor(t, a);
    && after.running == before.running && after.note == before.note
    && (after.observed.None? ==> forall o :: !Candidate(s, obs, a, o))
    && (after.observed.Some? ==>
          && Candidate(s, obs, a, after.observed.value)
          && forall o :: Candidate(s, obs, a, o) ==> !Less(after.observed.value.triple, o.triple))
  }

  lemma AcceptGreatest(s: State, obs: seq<Observation>, m: State, o: Observation, a: string)
    requires m.revision == s.revision && HoldsGreatest(s, obs, m, a)
    ensures HoldsGreatest(s, obs + [o], Accept(m, o), a)
  {
    var t := Accept(m, o);
    assert forall x :: Candidate(s, obs + [o], a, x) <==> Candidate(s, obs, a, x) || (x == o && o.account == a && a != "" && o.triple.revision >= s.revision);
    hide Candidate;
  }

  /** After any arrivals in any order, every account shows a lexicographic maximum of what may speak for it. */
  lemma {:induction false} ViewIsGreatest(s: State, obs: seq<Observation>, a: string)
    ensures AcceptAll(s, obs).revision == s.revision
    ensures HoldsGreatest(s, obs, AcceptAll(s, obs), a)
    decreases |obs|
  {
    if obs != [] {
      var n := |obs| - 1;
      ViewIsGreatest(s, obs[..n], a);
      AcceptGreatest(s, obs[..n], AcceptAll(s, obs[..n]), obs[n], a);
      assert obs == obs[..n] + [obs[n]];
    }
  }

  /** Distinct reports of one account never carry the same triple. */
  ghost predicate Distinct(s: State, obs: seq<Observation>) {
    forall a, o, p | Candidate(s, obs, a, o) && Candidate(s, obs, a, p) && o.triple == p.triple :: o == p
  }

  lemma SameMembers(obs: seq<Observation>, other: seq<Observation>)
    requires multiset(obs) == multiset(other)
    ensures forall o :: o in obs <==> o in other
  {
    forall o
      ensures o in obs <==> o in other
    {
      assert o in obs <==> o in multiset(obs);
      assert o in other <==> o in multiset(other);
    }
  }

  /** With distinct triples the order of arrival cannot be seen in any account. */
  lemma ArrivalOrderDoesNotMatter(s: State, obs: seq<Observation>, other: seq<Observation>, a: string)
    requires multiset(obs) == multiset(other) && Distinct(s, obs)
    ensures EntryFor(AcceptAll(s, obs), a) == EntryFor(AcceptAll(s, other), a)
  {
    SameMembers(obs, other);
    ViewIsGreatest(s, obs, a);
    ViewIsGreatest(s, other, a);
    assert forall o :: Candidate(s, obs, a, o) <==> Candidate(s, other, a, o);
    var x, y := EntryFor(AcceptAll(s, obs), a), EntryFor(AcceptAll(s, other), a);
    hide Candidate;
    assert x.observed.Some? <==> y.observed.Some?;
    if x.observed.Some? {
      assert !Less(x.observed.value.triple, y.observed.value.triple) && !Less(y.observed.value.triple, x.observed.value.triple);
    }
  }

  /** Without that, exactly the later of two equal triples stays: the order shows precisely when their contents differ. */
  lemma EqualTriplesLastWins(s: State, o: Observation, p: Observation)
    requires o.account == p.account && o.triple == p.triple && Verdict(s, o) == DropNone
    ensures EntryFor(AcceptAll(s, [o, p]), o.account).observed == Some(p)
    ensures AcceptAll(s, [o, p]) == AcceptAll(s, [p, o]) <==> o == p
  {
    assert [o, p][..1] == [o] && [p, o][..1] == [p] && [o][..0] == [] && [p][..0] == [];
    var t, u := AcceptAll(s, [o, p]), AcceptAll(s, [p, o]);
    assert AcceptAll(s, []) == s && AcceptAll(s, [o]) == Accept(s, o) && AcceptAll(s, [p]) == Accept(s, p);
    assert t == Accept(Accept(s, o), p) && u == Accept(Accept(s, p), o);
    assert EntryFor(t, o.account).observed == Some(p) && EntryFor(u, o.account).observed == Some(o);
  }

  // ---------------------------------------------------------------------
  // Whole runs of every operation
  // ---------------------------------------------------------------------

  datatype Event =
    | Arrive(o: Observation)
    | Raise(r: nat)
    | ResetTo(r: nat)
    | Start(a: string, action: string)
    | Finish(a: string, note: Note)
    | Drop(a: string)

  function Step(s: State, e: Event): State {
    match e
    case Arrive(o) => Accept(s, o)
    case Raise(r) => SetRevision(s, r)
    case ResetTo(r) => ResetConfiguration(s, r)
    case Start(a, action) => ActionStarted(s, a, action)
    case Finish(a, note) => ActionFinished(s, a, note)
    case Drop(a) => Forget(s, a)
  }

  function Run(s: State, es: seq<Event>): State
    decreases |es|
  {
    if es == [] then s else Step(Run(s, es[..|es| - 1]), es[|es| - 1])
  }

  const EMPTY := State(0, map[])

  /** The explanation of the last action is never shown beside a running one. */
  lemma {:induction false} NoNoteBesideARunningAction(es: seq<Event>, a: string)
    ensures var e := EntryFor(Run(EMPTY, es), a); e.running == "" || e.note.None?
    decreases |es|
  {
    if es != [] {
      NoNoteBesideARunningAction(es[..|es| - 1], a);
    }
  }

  /** Whether an event may change what is said about the account's actions. */
  predicate TouchesActions(e: Event, a: string) {
    match e
    case Arrive(_) => false
    case Raise(_) => false
    case ResetTo(_) => true
    case Start(x, _) => x == a
    case Finish(x, _) => x == a
    case Drop(x) => x == a
  }

  /** Routine observation, of this account or any other, never replaces the explanation of the last action. */
  lemma {:induction false} RoutineKeepsTheNote(s: State, es: seq<Event>, a: string)
    requires forall e <- es :: !TouchesActions(e, a)
    ensures EntryFor(Run(s, es), a).note == EntryFor(s, a).note && EntryFor(Run(s, es), a).running == EntryFor(s, a).running
    decreases |es|
  {
    if es != [] {
      var n := |es| - 1;
      assert es[n] in es && forall e <- es[..n] :: e in es;
      RoutineKeepsTheNote(s, es[..n], a);
    }
  }

  /** A cancelled action's late result never replaces the state of the one running after it. */
  lemma LateNoteIsIgnored(s: State, a: string, note: Note)
    requires a in s.accounts && EntryFor(s, a).running != "" && EntryFor(s, a).running != note.action
    ensures ActionFinished(s, a, note) == s
  {
    assert s.accounts[a := s.accounts[a]] == s.accounts;
  }

  /** Nothing is shown that was observed under a configuration below the floor. */
  predicate AtOrAboveFloor(s: State) {
    forall a <- s.accounts :: s.accounts[a].observed.Some? ==> s.accounts[a].observed.value.triple.revision >= s.revision
  }

  lemma StepKeepsFloor(s: State, e: Event)
    requires AtOrAboveFloor(s) && !e.Raise?
    ensures AtOrAboveFloor(Step(s, e))
  {
  }

  /** As long as the floor moves only by a reset, every reader sees answers to the current configuration only. */
  lemma {:induction false} OnlyCurrentAnswersAreShown(es: seq<Event>)
    requires forall e <- es :: !e.Raise?
    ensures AtOrAboveFloor(Run(EMPTY, es))
    decreases |es|
  {
    if es != [] {
      var n := |es| - 1;
      assert es[n] in es && forall e <- es[..n] :: e in es;
      OnlyCurrentAnswersAreShown(es[..n]);
      StepKeepsFloor(Run(EMPTY, es[..n]), es[n]);
    }
  }

  /** SetRevision keeps that exactly when it does not pass a stored observation. */
  lemma RaisingKeepsFloorExactlyWhen(s: State, r: nat)
    requires AtOrAboveFloor(s)
    ensures AtOrAboveFloor(SetRevision(s, r)) <==>
              forall a <- s.accounts :: s.accounts[a].observed.Some? ==> r <= s.accounts[a].observed.value.triple.revision
  {
    var t := SetRevision(s, r);
    if AtOrAboveFloor(t) {
      forall a | a in s.accounts && s.accounts[a].observed.Some?
        ensures r <= s.accounts[a].observed.value.triple.revision
      {
        assert a in t.accounts;
      }
    }
  }

  /** It does pass one here: an answer of revision 1 stays visible under floor 2. */
  lemma RaisingCanLeaveAnOldAnswer(reading: Reading)
    ensures var o := Observation("a", Triple(1, 1, 1), reading);
            var t := Run(EMPTY, [Arrive(o), Raise(2)]);
            t.revision == 2 && EntryFor(t, "a").observed == Some(o) && !AtOrAboveFloor(t)
  {
    var o := Observation("a", Triple(1, 1, 1), reading);
    var es := [Arrive(o), Raise(2)];
    assert es[..1] == [es[0]] && es[..1][..0] == [];
    assert Run(EMPTY, []) == EMPTY && Run(EMPTY, es[..1]) == Accept(EMPTY, o);
    var t := Run(EMPTY, es);
    assert t == SetRevision(Accept(EMPTY, o), 2);
    assert "a" in t.accounts;
  }

  predicate NotBack(s: State, t: State, a: string) {
    EntryFor(s, a).observed.Some? ==>
      EntryFor(t, a).observed.Some? && !Less(EntryFor(t, a).observed.value.triple, EntryFor(s, a).observed.value.triple)
  }

  /** Between resets the stored triple never goes back. */
  lemma {:induction false} NeverGoesBack(s: State, es: seq<Event>, a: string)
    requires forall e <- es :: !e.ResetTo? && e != Drop(a)
    ensures NotBack(s, Run(s, es), a) && s.revision <= Run(s, es).revision
    decreases |es|
  {
    if es != [] {
      var n := |es| - 1;
      assert es[n] in es && forall e <- es[..n] :: e in es;
      NeverGoesBack(s, es[..n], a);
      var m := Run(s, es[..n]);
      assert NotBack(m, Step(m, es[n]), a);
    }
  }

  /** An action that ends while it is the running one, or while none is, leaves its note and nothing running. */
  lemma FinishedLeavesItsNote(s: State, a: string, note: Note)
    requires a != "" && (EntryFor(s, a).running == "" || EntryFor(s, a).running == note.action)
    ensures var e := EntryFor(ActionFinished(s, a, note), a);
            e.note == Some(note) && e.running == "" && e.observed == EntryFor(s, a).observed
  {
  }

  /** A new action is shown running, without the last one's note; repeating it changes nothing more. */
  lemma StartedIsShown(s: State, a: string, action: string)
    requires a != "" && action != ""
    ensures var t := ActionStarted(s, a, action);
            && EntryFor(t, a).running == action && EntryFor(t, a).observed == EntryFor(s, a).observed
            && (EntryFor(s, a).running != action ==> EntryFor(t, a).note.None?)
            && ActionStarted(t, a, action) == t
  {
    var t := ActionStarted(s, a, action);
    assert t.accounts[a := t.accounts[a]] == t.accounts;
  }
}
