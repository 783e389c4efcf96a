/**
 The compare-and-set configuration repository over an atomic file write that may fail
 at any step. Models core/internal/config/repository.go and store.go.
 */
module ConfigRepository {
  import opened Wrappers
  import opened Text
  import opened ConfigRules
  import opened ConfigValidate

  /** The steps of one write, in order. Any of them may fail. */
  datatype Stage = Marshal | MakeDir | CreateTemp | Chmod | WriteTemp | SyncTemp | CloseTemp | Rename | AfterRename | SyncDir

  type Faults = Stage -> bool

  datatype Progress = NotCommitted | Visible | Durable

  predicate FailsBefore(faults: Faults) {
    || faults(Marshal) || faults(MakeDir) || faults(CreateTemp) || faults(Chmod) || faults(WriteTemp)
    || faults(SyncTemp) || faults(CloseTemp) || faults(Rename)
  }

  /** How far a write gets: nothing is visible unless every step up to the rename worked. */
  function Outcome(faults: Faults): Progress {
    if FailsBefore(faults) then NotCommitted
    else if faults(AfterRename) || faults(SyncDir) then Visible
    else Durable
  }

  const MAX_REVISION: nat := 0xFFFF_FFFF_FFFF_FFFF

  /** One edit: it may refuse. */
  type Change = Config -> Option<Config>

  datatype Store = Store(current: Config, persisted: bool, file: Option<Config>)

  /** The document an accepted change leads to, before validation. */
  function Candidate(reg: Registry, current: Config, edited: Config): Config {
    RepairSelection(Normalize(reg, edited.(schema := SCHEMA_VERSION))).(revision := current.revision + 1)
  }

  predicate Accepts(reg: Registry, s: Store, expected: nat, change: Change) {
    && expected == s.current.revision && s.current.revision != MAX_REVISION
    && change(s.current).Some? && ValidDocument(reg, Candidate(reg, s.current, change(s.current).value))
  }

  function Update(reg: Registry, s: Store, expected: nat, change: Change, faults: Faults): Store {
    if !Accepts(reg, s, expected, change) || Outcome(faults).NotCommitted? then s
    else
      var next := Candidate(reg, s.current, change(s.current).value);
      Store(next, true, Some(next))
  }

  /** What is at the path when the daemon starts. */
  datatype OnDisk = Absent | Undecodable | Document(raw: Config)

  /**
   Open: the file's document, normalised in memory and validated, the file itself left
   alone; the normalised defaults when there is no file; nothing when it cannot be used.
   */
  function Open(reg: Registry, disk: OnDisk, defaults: Config): Option<Store> {
    match disk
    case Absent => Some(Store(Normalize(reg, defaults), false, None))
    case Undecodable => None
    case Document(raw) =>
      if ValidDocument(reg, Normalize(reg, raw)) then Some(Store(Normalize(reg, raw), true, Some(raw))) else None
  }

  method OpenRepository(reg: Registry, disk: OnDisk, defaults: Config) returns (r: Repository?)
    ensures r != null <==> Open(reg, disk, defaults).Some?
    ensures r != null ==> fresh(r) && r.reg == reg && r.temps == 0 && Some(r.View()) == Open(reg, disk, defaults)
  {
    match disk {
      case Absent =>
        r := new Repository(reg, Normalize(reg, defaults), false, None);
      case Undecodable =>
        r := null;
      case Document(raw) =>
        var loaded := Normalize(reg, raw);
        var problems := Validate(reg, loaded);
        if problems != [] {
          return null;
        }
        r := new Repository(reg, loaded, true, Some(raw));
    }
  }

  class Repository {
    var current: Config
    var persisted: bool
    var file: Option<Config>
    var temps: nat
    const reg: Registry

    ghost function View(): Store
      reads this
    {
      Store(current, persisted, file)
    }

    constructor (reg: Registry, current: Config, persisted: bool, file: Option<Config>)
      ensures this.reg == reg && temps == 0 && View() == Store(current, persisted, file)
    {
      this.reg, this.current, this.persisted, this.file, this.temps := reg, current, persisted, file, 0;
    }

    /** Write a temporary file, sync it, rename it over the target, sync the directory. */
    method WriteAtomic(data: Config, faults: Faults) returns (progress: Progress)
      requires !faults(Marshal)
      modifies this`file, this`temps
      ensures progress == Outcome(faults)
      ensures temps == old(temps)
      ensures file == if progress.NotCommitted? then old(file) else Some(data)
    {
      if faults(MakeDir) {
        return NotCommitted;
      }
      if faults(CreateTemp) {
        return NotCommitted;
      }
      temps := temps + 1;
      if faults(Chmod) || faults(WriteTemp) || faults(SyncTemp) || faults(CloseTemp) || faults(Rename) {
        temps := temps - 1;
        return NotCommitted;
      }
      file, temps := Some(data), temps - 1;
      if faults(AfterRename) || faults(SyncDir) {
        return Visible;
      }
      return Durable;
    }

    method UpdateConfig(expected: nat, change: Change, faults: Faults) returns (saved: Option<Config>)
      modifies this
      ensures View() == Update(reg, old(View()), expected, change, faults)
      ensures temps == old(temps)
      ensures saved.Some? <==> Accepts(reg, old(View()), expected, change) && Outcome(faults).Durable?
      ensures saved.Some? ==> saved == Some(current)
    {
      hide ValidDocument, Normalize, RepairSelection;
      if expected != current.revision || current.revision == MAX_REVISION {
        return None;
      }
      var edited := change(current);
      if edited.None? {
        return None;
      }
      var next := edited.value.(schema := SCHEMA_VERSION);
      next := Normalize(reg, next);
      next := RepairSelection(next);
      next := next.(revision := current.revision + 1);
      var problems := Validate(reg, next);
      if problems != [] || faults(Marshal) {
        return None;
      }
      var progress := WriteAtomic(next, faults);
      if !progress.NotCommitted? {
        current, persisted := next, true;
      }
      return if progress.Durable? then Some(next) else None;
    }
  }

  // ---------------------------------------------------------------------
  // What every run keeps
  // ---------------------------------------------------------------------

  predicate GoodDocument(reg: Registry, c: Config) {
    ValidDocument(reg, c) && Normal(reg, c) && Resolved(c) && RepairSelection(c) == c
  }

  lemma RevisionIsNotNormalised(reg: Registry, c: Config, n: nat)
    ensures Normalize(reg, c.(revision := n)) == Normalize(reg, c).(revision := n)
    ensures RepairSelection(c.(revision := n)) == RepairSelection(c).(revision := n)
    ensures Resolved(c.(revision := n)) == Resolved(c)
  {
    assert CampusIDs(c.(revision := n)) == CampusIDs(c) && HotspotIDs(c.(revision := n)) == HotspotIDs(c);
    assert Normalize(reg, c.(revision := n)).campus == Normalize(reg, c).campus;
    assert Normalize(reg, c.(revision := n)).hotspots == Normalize(reg, c).hotspots;
    hide NormalizeCampus, NormalizeHotspot, NormalizeSchool, Folded, FilterExtra, RepairPointer, TrimSpace, NormalizeSelection;
  }

  lemma CandidateIsCanonical(reg: Registry, current: Config, edited: Config)
    ensures var c := Candidate(reg, current, edited);
            Normal(reg, c) && Resolved(c) && RepairSelection(c) == c && c.revision == current.revision + 1 && c.schema == SCHEMA_VERSION
  {
    var n := Normalize(reg, edited.(schema := SCHEMA_VERSION));
    var r := RepairSelection(n);
    NormalizeIsIdempotent(reg, edited.(schema := SCHEMA_VERSION));
    RepairKeepsNormal(reg, n);
    RepairIsIdempotent(n);
    RepairMeans(n);
    RevisionIsNotNormalised(reg, r, current.revision + 1);
    hide Resolved;
  }

  /** A candidate that was already canonical and at the next revision is written exactly as it is. */
  lemma PreparedDocumentIsWritten(reg: Registry, before: Config, edited: Config)
    ensures var prepared := Candidate(reg, before, edited);
            Candidate(reg, before, prepared) == prepared
  {
    var p := Candidate(reg, before, edited);
    CandidateIsCanonical(reg, before, edited);
    assert p.(schema := SCHEMA_VERSION) == p;
    assert RepairSelection(Normalize(reg, p)).(revision := before.revision + 1) == p;
    hide Normalize, RepairSelection;
  }

  /**
   One update of any store: it changes nothing, or it makes visible a valid, canonical,
   repaired document, the one now in memory, exactly one revision on.
   */
  lemma UpdateIsAllOrNothing(reg: Registry, s: Store, expected: nat, change: Change, faults: Faults)
    ensures var t := Update(reg, s, expected, change, faults);
            || t == s
            || (&& t.persisted && t.file == Some(t.current) && GoodDocument(reg, t.current)
                && expected == s.current.revision && s.current.revision != MAX_REVISION
                && t.current.revision == s.current.revision + 1)
  {
    if change(s.current).Some? {
      CandidateIsCanonical(reg, s.current, change(s.current).value);
    }
    hide ValidDocument, Normal, Resolved, RepairSelection, Normalize;
  }

  datatype Attempt = Attempt(expected: nat, change: Change, faults: Faults)

  function Run(reg: Registry, s: Store, attempts: seq<Attempt>): Store
    decreases |attempts|
  {
    if attempts == [] then s
    else
      var n := |attempts| - 1;
      Update(reg, Run(reg, s, attempts[..n]), attempts[n].expected, attempts[n].change, attempts[n].faults)
  }

  /** Whether the last attempt of a run changed what readers see. */
  predicate LastVisible(reg: Registry, s: Store, attempts: seq<Attempt>)
    requires attempts != []
  {
    Run(reg, s, attempts) != Run(reg, s, attempts[..|attempts| - 1])
  }

  lemma LastStep(reg: Registry, s: Store, attempts: seq<Attempt>)
    requires attempts != []
    ensures var m, t := Run(reg, s, attempts[..|attempts| - 1]), Run(reg, s, attempts);
            if LastVisible(reg, s, attempts) then
              && t.persisted && t.file == Some(t.current) && GoodDocument(reg, t.current)
              && attempts[|attempts| - 1].expected == m.current.revision && m.current.revision != MAX_REVISION
              && t.current.revision == m.current.revision + 1
            else t == m
  {
    var n := |attempts| - 1;
    UpdateIsAllOrNothing(reg, Run(reg, s, attempts[..n]), attempts[n].expected, attempts[n].change, attempts[n].faults);
    hide GoodDocument, Update;
  }

  /** How many attempts of a run became visible. */
  function Commits(reg: Registry, s: Store, attempts: seq<Attempt>): nat
    decreases |attempts|
  {
    if attempts == [] then 0
    else Commits(reg, s, attempts[..|attempts| - 1]) + if LastVisible(reg, s, attempts) then 1 else 0
  }

  /** The revision counts the visible commits, from any store, and never wraps. */
  lemma {:induction false} RevisionCountsCommits(reg: Registry, s: Store, attempts: seq<Attempt>)
    ensures var t := Run(reg, s, attempts);
            && t.current.revision == s.current.revision + Commits(reg, s, attempts)
            && (s.current.revision <= MAX_REVISION ==> t.current.revision <= MAX_REVISION)
    decreases |attempts|
  {
    if attempts != [] {
      RevisionCountsCommits(reg, s, attempts[..|attempts| - 1]);
      LastStep(reg, s, attempts);
    }
    hide GoodDocument;
  }

  lemma {:induction false} RunSplits(reg: Registry, s: Store, a: seq<Attempt>, b: seq<Attempt>)
    ensures Run(reg, s, a + b) == Run(reg, Run(reg, s, a), b)
    decreases |b|
  {
    if b == [] {
      assert a + b == a;
    } else {
      var n := |b| - 1;
      assert (a + b)[..|a + b| - 1] == a + b[..n];
      RunSplits(reg, s, a, b[..n]);
    }
  }

  /**
   Two writers that read the same revision cannot both change the file, whatever runs
   between them and wherever their writes fail; the second is refused outright. This
   holds of any store.
   */
  lemma SameRevisionWinsOnce(reg: Registry, s: Store, first: Attempt, between: seq<Attempt>, second: Attempt)
    requires first.expected == second.expected
    requires LastVisible(reg, s, [first])
    ensures var t := Run(reg, s, [first] + between);
            Update(reg, t, second.expected, second.change, second.faults) == t && !Accepts(reg, t, second.expected, second.change)
  {
    assert [first][..0] == [];
    LastStep(reg, s, [first]);
    RunSplits(reg, s, [first], between);
    RevisionCountsCommits(reg, Run(reg, s, [first]), between);
    hide GoodDocument;
  }

  // ---------------------------------------------------------------------
  // Memory and file, from Open on
  // ---------------------------------------------------------------------

  /** Until something becomes visible a run changes nothing; afterwards memory is the file, and the file is good. */
  lemma {:induction false} RunFromAnywhere(reg: Registry, s: Store, attempts: seq<Attempt>)
    ensures var t := Run(reg, s, attempts);
            if Commits(reg, s, attempts) == 0 then t == s
            else t.persisted && t.file == Some(t.current) && GoodDocument(reg, t.current)
    decreases |attempts|
  {
    if attempts != [] {
      RunFromAnywhere(reg, s, attempts[..|attempts| - 1]);
      LastStep(reg, s, attempts);
    }
    hide GoodDocument;
  }

  /** What memory holds is canonical at all times, and valid once there is a file. */
  lemma MemoryIsCanonical(reg: Registry, disk: OnDisk, defaults: Config, attempts: seq<Attempt>)
    requires Open(reg, disk, defaults).Some?
    ensures var t := Run(reg, Open(reg, disk, defaults).value, attempts);
            && Normal(reg, t.current)
            && (t.persisted ==> ValidDocument(reg, t.current))
            && (t.persisted <==> t.file.Some?)
  {
    var s := Open(reg, disk, defaults).value;
    RunFromAnywhere(reg, s, attempts);
    if disk.Document? {
      NormalizeIsIdempotent(reg, disk.raw);
    }
    NormalizeIsIdempotent(reg, defaults);
    hide ValidDocument, Normalize, Normal, Resolved, RepairSelection;
  }

  /**
   When memory and the visible file agree, over every run from every start: exactly when
   some attempt became visible or the file found at the start was already canonical.
   Otherwise the file is still what was found, and memory its normal form.
   */
  lemma MemoryMatchesFileExactlyWhen(reg: Registry, disk: OnDisk, defaults: Config, attempts: seq<Attempt>)
    requires Open(reg, disk, defaults).Some?
    ensures var s := Open(reg, disk, defaults).value;
            var t := Run(reg, s, attempts);
            && (t.file == Some(t.current) <==> Commits(reg, s, attempts) > 0 || (disk.Document? && Canonical(reg, disk.raw)))
            && (Commits(reg, s, attempts) == 0 && disk.Document? ==> t.file == Some(disk.raw) && t.current == Normalize(reg, disk.raw))
            && (Commits(reg, s, attempts) == 0 && disk.Absent? ==> t.file == None && t.current == Normalize(reg, defaults))
            && (Commits(reg, s, attempts) > 0 ==> GoodDocument(reg, t.current))
  {
    RunFromAnywhere(reg, Open(reg, disk, defaults).value, attempts);
    if disk.Document? {
      NormalIsCanonical(reg, disk.raw);
    }
    hide ValidDocument, GoodDocument, Normalize, Canonical;
  }

  const TUNING := Tuning("200", "1", "srun_bx1", 0, 1, 10, 60, 60, 3, 2)

  /** A file a person edited: the client interface has a space before it, and everything else is valid. */
  const HAND_EDITED :=
    Config(SCHEMA_VERSION, 4, true, false, "default", " wlan0", "INFO", "internet", Selection("", "", "", ""), [], [], map[], TUNING)

  const TRIMMED := HAND_EDITED.(staIface := "wlan0")

  /** Two client interfaces that differ only by the space around them. */
  lemma OnlySpaceDiffers(reg: Registry, c: Config, iface: string)
    requires TrimSpace(iface) == TrimSpace(c.staIface)
    ensures Normalize(reg, c.(staIface := iface)) == Normalize(reg, c)
  {
    hide TrimSpace, NormalizeCampus, NormalizeHotspot, NormalizeSchool, NormalizeSelection, Folded, FilterExtra;
    var d := c.(staIface := iface);
    assert Normalize(reg, d).campus == Normalize(reg, c).campus;
    assert Normalize(reg, d).hotspots == Normalize(reg, c).hotspots;
  }

  lemma TrimmedIsCanonical(reg: Registry)
    ensures Canonical(reg, TRIMMED) && !Canonical(reg, HAND_EDITED)
  {
    assert IsSpace(HAND_EDITED.staIface[0]);
  }

  lemma TuningIsValid()
    ensures ValidTuning(TUNING)
  {
    hide Fits;
    ShortFits("200");
    ShortFits("1");
    ShortFits("srun_bx1");
  }

  lemma EmptyIsValid(reg: Registry, c: Config)
    requires c.campus == [] && c.hotspots == [] && c.extra == map[] && c.selection == Selection("", "", "", "")
    ensures ValidAccounts(reg, c) && ValidHotspots(c) && Resolved(c) && ValidExtra(c.extra)
  {
  }

  lemma TrimmedIsValid(reg: Registry)
    ensures ValidDocument(reg, TRIMMED)
  {
    hide Fits, ValidTuning, ValidAccounts, ValidHotspots, Resolved, ValidExtra;
    ShortFits("default");
    ShortFits("wlan0");
    TuningIsValid();
    EmptyIsValid(reg, TRIMMED);
  }

  lemma HandEditedLoads(reg: Registry)
    ensures Normalize(reg, HAND_EDITED) == TRIMMED && ValidDocument(reg, TRIMMED)
  {
    hide Normalize, ValidDocument, Canonical;
    assert " wlan0"[1..] == "wlan0" && TrimSpace(" wlan0") == TrimSpace("wlan0");
    OnlySpaceDiffers(reg, TRIMMED, " wlan0");
    assert TRIMMED.(staIface := " wlan0") == HAND_EDITED;
    TrimmedIsCanonical(reg);
    NormalIsCanonical(reg, TRIMMED);
    TrimmedIsValid(reg);
  }

  lemma {:induction false} ByteLengthBounds(s: string)
    ensures |s| <= ByteLength(s) <= 4 * |s|
  {
    if s != "" {
      ByteLengthBounds(s[1..]);
    }
  }

  lemma ShortFits(s: string)
    requires 0 < |s| <= 64
    ensures Fits(s, MAX_NAME, true) && Fits(s, MAX_NAME, false)
  {
    ByteLengthBounds(s);
  }

  lemma WrongRevisionChangesNothing(reg: Registry, s: Store, attempt: Attempt)
    requires attempt.expected != s.current.revision
    ensures Run(reg, s, [attempt]) == s
  {
    assert [attempt][..0] == [];
    assert Run(reg, s, []) == s;
  }

  /** From it, a refused update leaves memory and the visible file different. */
  lemma MemoryCanDifferFromFile(reg: Registry, defaults: Config, change: Change, faults: Faults)
    ensures var start := Open(reg, Document(HAND_EDITED), defaults);
            && start.Some?
            && var t := Run(reg, start.value, [Attempt(3, change, faults)]);
               t.persisted && t.file == Some(HAND_EDITED) && t.current == TRIMMED && t.file != Some(t.current)
  {
    hide Normalize, ValidDocument, Run;
    HandEditedLoads(reg);
    WrongRevisionChangesNothing(reg, Open(reg, Document(HAND_EDITED), defaults).value, Attempt(3, change, faults));
    assert HAND_EDITED.staIface != TRIMMED.staIface;
  }

  // ---------------------------------------------------------------------
  // An update that meets its conditions goes through
  // ---------------------------------------------------------------------

  /**
   With the revision just read, room for one more, an edit that is made, a valid outcome
   and no fault, the outcome is durable: it is in memory and on file. Missing any of the
   first four, or with a fault up to the rename, nothing changes.
   */
  lemma UpdateGoesThroughExactlyWhen(reg: Registry, s: Store, expected: nat, change: Change, faults: Faults)
    ensures var t := Update(reg, s, expected, change, faults);
            if expected == s.current.revision && expected < MAX_REVISION && change(s.current).Some?
               && ValidDocument(reg, Candidate(reg, s.current, change(s.current).value))
               && (forall stage | stage !in {AfterRename, SyncDir} :: !faults(stage)) && s.current.revision <= MAX_REVISION then
              t == Store(Candidate(reg, s.current, change(s.current).value), true, Some(Candidate(reg, s.current, change(s.current).value)))
            else s.current.revision <= MAX_REVISION ==> t == s
  {
    StagesAre(faults);
    hide ValidDocument, Candidate;
  }

  lemma StagesAre(faults: Faults)
    ensures FailsBefore(faults) <==> exists stage | stage !in {AfterRename, SyncDir} :: faults(stage)
  {
    if stage :| stage !in {AfterRename, SyncDir} && faults(stage) {
      match stage {
        case Marshal =>
        case MakeDir =>
        case CreateTemp =>
        case Chmod =>
        case WriteTemp =>
        case SyncTemp =>
        case CloseTemp =>
        case Rename =>
        case AfterRename =>
        case SyncDir =>
      }
    }
  }

  /** What is written is the edit itself, one revision on, whenever the edit is canonical and its pointers need no repair. */
  lemma CanonicalEditIsWritten(reg: Registry, before: Config, edited: Config)
    requires Canonical(reg, edited) && RepairSelection(edited) == edited && edited.schema == SCHEMA_VERSION
    ensures Candidate(reg, before, edited) == edited.(revision := before.revision + 1)
  {
    NormalIsCanonical(reg, edited);
    assert edited.(schema := SCHEMA_VERSION) == edited;
    hide Normalize, RepairSelection, Canonical;
  }
}
