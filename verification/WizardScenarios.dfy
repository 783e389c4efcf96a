/**
 Two runs of the wizard, so that the theorems of WizardSafety are about something: a
 save that goes through, and a transaction whose lease was lost while it was being
 applied and which the next job's start rolls back.
 */
module WizardScenarios {
  import opened Wrappers
  import opened Wizard
  import opened WizardSafety

  lemma {:induction false} Then(s: State, evs: seq<Event>, t: State, ev: Event)
    requires Reaches(s, evs, t) && Enabled(t, ev)
    ensures Reaches(s, evs + [ev], Step(t, ev))
    decreases |evs|
  {
    if evs == [] {
      assert (evs + [ev])[1..] == [];
    } else {
      Then(Step(s, evs[0]), evs[1..], t, ev);
      assert (evs + [ev])[0] == evs[0] && (evs + [ev])[1..] == evs[1..] + [ev];
    }
  }

  /** Some run from the start reaches the state. */
  ghost predicate Reachable(c: Config, t: State) {
    exists evs :: Reaches(Initial(c), evs, t)
  }

  lemma Next(c: Config, s: State, ev: Event, t: State)
    requires Reachable(c, s) && Enabled(s, ev) && Step(s, ev) == t
    ensures Reachable(c, t)
  {
    var evs :| Reaches(Initial(c), evs, s);
    Then(Initial(c), evs, s, ev);
  }

  lemma Start(c: Config)
    ensures Reachable(c, Initial(c))
  {
    assert Reaches(Initial(c), [], Initial(c));
  }

  function Job(c: Config, name: string): Entry {
    Entry(name, "o", 7, c.revision, Starting, false, None, 0, None)
  }

  function Applied0(c: Config): Record { Record(0, AwaitingConfirm, c.revision, None) }

  function Document(c: Config): Config { Config(c.revision + 1, "account") }

  function Queued(c: Config): State {
    Initial(c).(entries := map[0 := Job(c, "a")], jobs := map["a" := 0], order := ["a"], active := Some("a"),
    pending := {Submitting(0, "a")}, nextEntry := 1)
  }

  lemma ToQueued(c: Config)
    ensures Enabled(Initial(c), BeginJobEvent("a", "o", 7)) && Step(Initial(c), BeginJobEvent("a", "o", 7)) == Queued(c)
  {
  }

  function Running(c: Config): State {
    Queued(c).(worker := Some(Starter("a")))
  }

  lemma ToRunning(c: Config)
    ensures Enabled(Queued(c), Dispatch(Starter("a"), "o")) && Step(Queued(c), Dispatch(Starter("a"), "o")) == Running(c)
  {
  }

  function Planned0(c: Config): State {
    Running(c).(entries := map[0 := Job(c, "a").(mark := Connecting)], device := Planning(0, "a"))
  }

  lemma ToPlanned0(c: Config)
    ensures Enabled(Running(c), StartEvent) && Step(Running(c), StartEvent) == Planned0(c)
  {
  }

  function Settling0(c: Config): State {
    Planned0(c).(disk := Some(Applied0(c)), copies := map[0 := Applied0(c)], nextGroup := 1, device := Settling(0, "a", Some(0)))
  }

  lemma ToSettling0(c: Config)
    ensures Enabled(Planned0(c), BeginEvent(Live)) && Step(Planned0(c), BeginEvent(Live)) == Settling0(c)
  {
  }

  function Ready0(c: Config): State {
    Settling0(c).(entries := map[0 := Job(c, "a").(mark := Ready, group := Some(0), expires := 100)], device := Free, worker := Some(Exited))
  }

  lemma ToReady0(c: Config)
    ensures Enabled(Settling0(c), SettleEvent(false, 100)) && Step(Settling0(c), SettleEvent(false, 100)) == Ready0(c)
  {
  }

  function Idle0(c: Config): State {
    Ready0(c).(worker := None)
  }

  lemma ToIdle0(c: Config)
    ensures Enabled(Ready0(c), WorkerSeen) && Step(Ready0(c), WorkerSeen) == Idle0(c)
  {
  }

  function Saving0(c: Config): State {
    Idle0(c).(entries := map[0 := Job(c, "a").(mark := Saving, group := Some(0), expires := 100)],
    pending := {Submitting(0, "a"), Asking("a", "o", c.revision, 9), Restoring(0, Ready)})
  }

  lemma ToSaving0(c: Config)
    ensures Enabled(Idle0(c), PrepareEvent("a", "o", c.revision, 9, 1)) && Step(Idle0(c), PrepareEvent("a", "o", c.revision, 9, 1)) == Saving0(c)
  {
  }

  function Checked0(c: Config): State {
    Saving0(c).(device := Checked(0, "a", Some(0), 9, true, c.revision))
  }

  lemma ToChecked0(c: Config)
    ensures Enabled(Saving0(c), SaveEvent("a", "o", c.revision, 9, 2)) && Step(Saving0(c), SaveEvent("a", "o", c.revision, 9, 2)) == Checked0(c)
  {
  }

  function Announced0(c: Config): State {
    Checked0(c).(disk := Some(Applied0(c).(prepared := Some(Document(c)))), copies := map[0 := Applied0(c).(prepared := Some(Document(c)))],
    device := Prepared(0, "a", Some(0), 9, Document(c)))
  }

  lemma ToAnnounced0(c: Config)
    ensures Enabled(Checked0(c), AnnounceEvent("account")) && Step(Checked0(c), AnnounceEvent("account")) == Announced0(c)
  {
  }

  function Written0(c: Config): State {
    Announced0(c).(history := [c, Document(c)], saved := map[0 := Document(c)], device := Written(0, "a", Some(0), 9, Document(c)))
  }

  lemma ToWritten0(c: Config)
    ensures Enabled(Announced0(c), UpdateEvent(true)) && Step(Announced0(c), UpdateEvent(true)) == Written0(c)
  {
  }

  function Kept0(c: Config): State {
    Written0(c).(disk := None, committed := {0}, device := Recording(0, "a", Some(0), 9, Document(c)))
  }

  lemma ToKept0(c: Config)
    ensures Enabled(Written0(c), ConfirmEvent(Forgotten(true))) && Step(Written0(c), ConfirmEvent(Forgotten(true))) == Kept0(c)
  {
  }

  function Lost(c: Config): State {
    Settling0(c).(entries := map[0 := Job(c, "a").(mark := Failed)], active := None)
  }

  lemma ToLost(c: Config)
    ensures Enabled(Settling0(c), SubmitFailed(0, "a")) && Step(Settling0(c), SubmitFailed(0, "a")) == Lost(c)
  {
  }

  function Orphan(c: Config): State {
    Lost(c).(entries := map[0 := Job(c, "a").(mark := Ready, group := Some(0), expires := 100)], device := Free, worker := Some(Exited))
  }

  lemma ToOrphan(c: Config)
    ensures Enabled(Lost(c), SettleEvent(false, 100)) && Step(Lost(c), SettleEvent(false, 100)) == Orphan(c)
  {
  }

  function OrphanIdle(c: Config): State {
    Orphan(c).(worker := None)
  }

  lemma ToOrphanIdle(c: Config)
    ensures Enabled(Orphan(c), WorkerSeen) && Step(Orphan(c), WorkerSeen) == OrphanIdle(c)
  {
  }

  function NextJob(c: Config): State {
    OrphanIdle(c).(entries := map[0 := Job(c, "a").(mark := Ready, group := Some(0), expires := 100), 1 := Job(c, "b")],
    jobs := map["a" := 0, "b" := 1], order := ["a", "b"], active := Some("b"),
    pending := {Submitting(0, "a"), Submitting(1, "b")}, nextEntry := 2)
  }

  lemma ToNextJob(c: Config)
    ensures Enabled(OrphanIdle(c), BeginJobEvent("b", "o", 7)) && Step(OrphanIdle(c), BeginJobEvent("b", "o", 7)) == NextJob(c)
  {
  }

  function NextRunning(c: Config): State {
    NextJob(c).(worker := Some(Starter("b")))
  }

  lemma ToNextRunning(c: Config)
    ensures Enabled(NextJob(c), Dispatch(Starter("b"), "o")) && Step(NextJob(c), Dispatch(Starter("b"), "o")) == NextRunning(c)
  {
  }

  function NextPlanned(c: Config): State {
    NextRunning(c).(entries := map[0 := Job(c, "a").(mark := Ready, group := Some(0), expires := 100), 1 := Job(c, "b").(mark := Connecting)],
    device := Planning(1, "b"))
  }

  lemma NextStarts(c: Config)
    ensures var s := NextRunning(c); Present(s, "b") && s.jobs["b"] == 1 && EntryOf(s, "b") == Job(c, "b") && s.active == Some("b")
    ensures NextPlanned(c) == WithEntry(NextRunning(c), 1, Job(c, "b").(mark := Connecting)).(device := Planning(1, "b"))
  {
  }

  lemma ToNextPlanned(c: Config)
    ensures Enabled(NextRunning(c), StartEvent) && Step(NextRunning(c), StartEvent) == NextPlanned(c)
  {
    NextStarts(c);
    assert NextRunning(c).device.Free? && NextRunning(c).worker == Some(Starter("b")) && HasConfig(NextRunning(c));
    hide NextRunning, NextPlanned;
  }

  function NextRefused(c: Config): State {
    NextPlanned(c).(device := Failing(1, "b", None))
  }

  lemma ToNextRefused(c: Config)
    ensures Enabled(NextPlanned(c), BeginEvent(Declined)) && Step(NextPlanned(c), BeginEvent(Declined)) == NextRefused(c)
  {
  }

  function OrphanUndone(c: Config): State {
    NextRefused(c).(disk := None, undone := {0}, device := Publishing(1, "b", None, Failed, Worker))
  }

  lemma ToOrphanUndone(c: Config)
    ensures Enabled(NextRefused(c), StartRolls(Cleared(true), true, Failed)) && Step(NextRefused(c), StartRolls(Cleared(true), true, Failed)) == OrphanUndone(c)
  {
  }

  /** A job is started, applied, saved and confirmed. */
  lemma SomeRunConfirms(c: Config) returns (evs: seq<Event>, t: State)
    ensures Reaches(Initial(c), evs, t)
    ensures t.committed == {0} && t.saved == map[0 := Document(c)] && t.history == [c, Document(c)] && t.undone == {}
  {
    SomeRunConfirmsReached(c);
    t := Kept0(c);
    evs :| Reaches(Initial(c), evs, t);
  }

  lemma SomeRunConfirmsReached(c: Config)
    ensures Reachable(c, Kept0(c))
  {
    hide *;
    Start(c);
    ToQueued(c);
    Next(c, Initial(c), BeginJobEvent("a", "o", 7), Queued(c));
    ToRunning(c);
    Next(c, Queued(c), Dispatch(Starter("a"), "o"), Running(c));
    ToPlanned0(c);
    Next(c, Running(c), StartEvent, Planned0(c));
    ToSettling0(c);
    Next(c, Planned0(c), BeginEvent(Live), Settling0(c));
    ToReady0(c);
    Next(c, Settling0(c), SettleEvent(false, 100), Ready0(c));
    ToIdle0(c);
    Next(c, Ready0(c), WorkerSeen, Idle0(c));
    ToSaving0(c);
    Next(c, Idle0(c), PrepareEvent("a", "o", c.revision, 9, 1), Saving0(c));
    ToChecked0(c);
    Next(c, Saving0(c), SaveEvent("a", "o", c.revision, 9, 2), Checked0(c));
    ToAnnounced0(c);
    Next(c, Checked0(c), AnnounceEvent("account"), Announced0(c));
    ToWritten0(c);
    Next(c, Announced0(c), UpdateEvent(true), Written0(c));
    ToKept0(c);
    Next(c, Written0(c), ConfirmEvent(Forgotten(true)), Kept0(c));
  }

  /** Job a loses its lease while its change is applied; job b finds the file, is refused, and rolls it back. */
  lemma AnotherJobRollsBackTheOrphan(c: Config) returns (evs: seq<Event>, t: State)
    ensures Reaches(Initial(c), evs, t)
    ensures t.undone == {0} && t.disk.None? && t.active == Some("b") && t.committed == {} && t.saved == map[]
  {
    AnotherJobRollsBackTheOrphanReached(c);
    t := OrphanUndone(c);
    evs :| Reaches(Initial(c), evs, t);
  }

  lemma AnotherJobRollsBackTheOrphanReached(c: Config)
    ensures Reachable(c, OrphanUndone(c))
  {
    hide *;
    Start(c);
    ToQueued(c);
    Next(c, Initial(c), BeginJobEvent("a", "o", 7), Queued(c));
    ToRunning(c);
    Next(c, Queued(c), Dispatch(Starter("a"), "o"), Running(c));
    ToPlanned0(c);
    Next(c, Running(c), StartEvent, Planned0(c));
    ToSettling0(c);
    Next(c, Planned0(c), BeginEvent(Live), Settling0(c));
    ToLost(c);
    Next(c, Settling0(c), SubmitFailed(0, "a"), Lost(c));
    ToOrphan(c);
    Next(c, Lost(c), SettleEvent(false, 100), Orphan(c));
    ToOrphanIdle(c);
    Next(c, Orphan(c), WorkerSeen, OrphanIdle(c));
    ToNextJob(c);
    Next(c, OrphanIdle(c), BeginJobEvent("b", "o", 7), NextJob(c));
    ToNextRunning(c);
    Next(c, NextJob(c), Dispatch(Starter("b"), "o"), NextRunning(c));
    ToNextPlanned(c);
    Next(c, NextRunning(c), StartEvent, NextPlanned(c));
    ToNextRefused(c);
    Next(c, NextPlanned(c), BeginEvent(Declined), NextRefused(c));
    ToOrphanUndone(c);
    Next(c, NextRefused(c), StartRolls(Cleared(true), true, Failed), OrphanUndone(c));
  }

  function Abandoned0(c: Config): State {
    Planned0(c).(disk := Some(Applied0(c).(phase := BackedUp)), nextGroup := 1, device := Failing(0, "a", None))
  }

  lemma ToAbandoned0(c: Config)
    ensures Enabled(Planned0(c), BeginEvent(Abandoned(BackedUp))) && Step(Planned0(c), BeginEvent(Abandoned(BackedUp))) == Abandoned0(c)
  {
  }

  function Unread0(c: Config): State {
    Abandoned0(c).(device := Publishing(0, "a", None, Failed, Worker))
  }

  lemma ToUnread0(c: Config)
    ensures Enabled(Abandoned0(c), StartRolls(Unread, false, Failed)) && Step(Abandoned0(c), StartRolls(Unread, false, Failed)) == Unread0(c)
  {
  }

  function Stranded0(c: Config): State {
    Unread0(c).(entries := map[0 := Job(c, "a").(mark := Failed)], active := None, device := Free, worker := Some(Exited),
    ends := [End("a", None, Failed, false, false)])
  }

  lemma ToStranded0(c: Config)
    ensures Enabled(Unread0(c), PublishEvent) && Step(Unread0(c), PublishEvent) == Stranded0(c)
  {
  }

  /** BeginGroup fails half-way and its record cannot be read back: the job fails, nothing is blocked, the record stays. */
  lemma AnUnreadableRecordStays(c: Config)
    ensures Reachable(c, Stranded0(c)) && Stranded0(c).disk.Some? && !Stranded0(c).blocked && Stranded0(c).active.None?
  {
    AnUnreadableRecordReached(c);
  }

  lemma AnUnreadableRecordReached(c: Config)
    ensures Reachable(c, Stranded0(c))
  {
    hide *;
    Start(c);
    ToQueued(c);
    Next(c, Initial(c), BeginJobEvent("a", "o", 7), Queued(c));
    ToRunning(c);
    Next(c, Queued(c), Dispatch(Starter("a"), "o"), Running(c));
    ToPlanned0(c);
    Next(c, Running(c), StartEvent, Planned0(c));
    ToAbandoned0(c);
    Next(c, Planned0(c), BeginEvent(Abandoned(BackedUp)), Abandoned0(c));
    ToUnread0(c);
    Next(c, Abandoned0(c), StartRolls(Unread, false, Failed), Unread0(c));
    ToStranded0(c);
    Next(c, Unread0(c), PublishEvent, Stranded0(c));
  }
}
