/**
 The daemon around the coordinator: the configuration in force, the manual
 pause record, and the closures the coordinator calls on its own loop
 (line resolver, Check, Admit, Finalize).
 Models core/internal/daemon/daemon.go, manual_pause.go and switch.go.
 */
module Ambient {
  import opened Actions

  datatype Uplink = Wired(iface: string) | Wireless

  /** The part of the configuration these closures read. */
  datatype Config = Config(
    revision: nat,
    staIface: string,
    accounts: map<string, Uplink>,
    hotspots: set<string>,
    activeCampus: string,
    activeHotspot: string)

  datatype PauseRecord = PauseRecord(revision: nat, accounts: seq<string>)

  datatype Daemon = Daemon(config: Config, pauses: PauseRecord)

  datatype Verdict = Pass | Refuse(code: Code)

  datatype Outcome = Outcome(state: State, code: Code, result: string, deferred: bool)

  // ---------------------------------------------------------------------
  // Line resolver
  // ---------------------------------------------------------------------

  const WIRELESS_LINE: string := "wireless"

  function LineOf(cfg: Config, r: Request): string {
    if r.kind.WifiSetup() then WIRELESS_LINE
    else if r.kind.PresetsRefresh? || r.kind.Discovery() then
      if r.probeMode == "wifi" || r.iface == cfg.staIface then WIRELESS_LINE else "iface:" + r.iface
    else if r.kind.SwitchHotspot? || r.kind.QuietHotspot? || r.kind.QuietCampus? then WIRELESS_LINE
    else if r.accountID !in cfg.accounts then "account:" + r.accountID
    else match cfg.accounts[r.accountID]
      case Wired(iface) => "iface:" + iface
      case Wireless => WIRELESS_LINE
  }

  /** What a request occupies, named without strings. */
  datatype Resource = Radio | Port(iface: string) | Stray(account: string)

  function Occupies(cfg: Config, r: Request): Resource {
    if r.kind.WifiSetup() || r.kind.SwitchHotspot? || r.kind.QuietHotspot? || r.kind.QuietCampus? then Radio
    else if r.kind.PresetsRefresh? || r.kind.Discovery() then
      if r.probeMode == "wifi" || r.iface == cfg.staIface then Radio else Port(r.iface)
    else if r.accountID !in cfg.accounts then Stray(r.accountID)
    else if cfg.accounts[r.accountID].Wired? then Port(cfg.accounts[r.accountID].iface) else Radio
  }

  lemma PrefixedKey(cfg: Config, r: Request)
    ensures LineOf(cfg, r) != ""
    ensures match Occupies(cfg, r)
            case Radio => LineOf(cfg, r) == "wireless" && LineOf(cfg, r)[0] == 'w'
            case Port(i) => LineOf(cfg, r) == "iface:" + i && LineOf(cfg, r)[0] == 'i' && LineOf(cfg, r)[6..] == i
            case Stray(a) => LineOf(cfg, r) == "account:" + a && LineOf(cfg, r)[0] == 'a' && LineOf(cfg, r)[8..] == a
  {
  }

  /** Two requests serialise against each other exactly when they occupy the same resource. */
  lemma LinesMatchResources(cfg: Config, a: Request, b: Request)
    ensures LineOf(cfg, a) == LineOf(cfg, b) <==> Occupies(cfg, a) == Occupies(cfg, b)
  {
    PrefixedKey(cfg, a);
    PrefixedKey(cfg, b);
  }

  // ---------------------------------------------------------------------
  // Manual pauses
  // ---------------------------------------------------------------------

  function PausedAccounts(d: Daemon): seq<string> {
    if d.pauses.revision == d.config.revision then d.pauses.accounts else []
  }

  predicate Paused(d: Daemon, account: string) {
    account in PausedAccounts(d)
  }

  function Without(ids: seq<string>, id: string): (rest: seq<string>)
    ensures forall x :: x in rest <==> x in ids && x != id
  {
    if ids == [] then []
    else if ids[0] == id then Without(ids[1..], id)
    else [ids[0]] + Without(ids[1..], id)
  }

  /** manualPauses.set: `writes` says whether the runtime record could be stored. */
  function SetPause(d: Daemon, account: string, paused: bool, writes: bool): (r: (Daemon, bool))
    ensures r.0.config == d.config
    ensures r.1 ==> Paused(r.0, account) == paused
    ensures !r.1 ==> r.0 == d && !writes
    ensures forall other | other != account :: Paused(r.0, other) == Paused(d, other)
  {
    var ids := PausedAccounts(d);
    if (account in ids) == paused then (d, true)
    else if !writes then (d, false)
    else
      var next := if paused then ids + [account] else Without(ids, account);
      (d.(pauses := PauseRecord(d.config.revision, next)), true)
  }

  // ---------------------------------------------------------------------
  // Check, Admit, Finalize
  // ---------------------------------------------------------------------

  /** The Check closure; the update guard and the wizard lease answer from outside. */
  function Check(d: Daemon, guard: Verdict, wizard: Verdict, r: Request): (v: Verdict)
    ensures v.Pass? ==> r.checkRevision ==> r.configRevision == d.config.revision
    ensures v.Pass? ==> r.kind.Manual() || !Paused(d, r.accountID)
  {
    if guard.Refuse? then guard
    else if r.checkRevision && r.configRevision != d.config.revision then Refuse(CodeConflict)
    else if !r.kind.Manual() && Paused(d, r.accountID) then Refuse(CodeBusy)
    else wizard
  }

  /** admitManualLogout: the pause is recorded before anything is cancelled. */
  function Admit(d: Daemon, r: Request, clears: bool, writes: bool): (res: (Daemon, Verdict))
    ensures res.0.config == d.config
    ensures res.1.Refuse? ==> res.0 == d
    ensures res.1.Pass? && r.kind.Logout? ==> Paused(res.0, r.accountID) && r.accountID in d.config.accounts
    ensures !r.kind.Logout? ==> res == (d, Pass)
  {
    if !r.kind.Logout? then (d, Pass)
    else if r.accountID !in d.config.accounts then (d, Refuse(CodeNotFound))
    else if d.config.activeCampus == r.accountID && !clears then (d, Refuse(CodeInternal))
    else
      var (next, stored) := SetPause(d, r.accountID, true, writes);
      if stored then (next, Pass) else (d, Refuse(CodeInternal))
  }

  datatype Commit = NotVisible | VisibleOnly | Durable

  /** How the file system answers the writes made while finalizing. */
  datatype FinalizeAnswers = FinalizeAnswers(quietRecord: bool, commit: Commit, returnRecord: bool, pauseRecord: bool)

  predicate CommitsSelection(k: Kind) {
    k.SwitchCampus? || k.SwitchHotspot?
  }

  predicate LiftsPause(k: Kind) {
    k.Login? || k.Relogin? || k.SwitchCampus?
  }

  function FinishSwitch(d: Daemon, r: Request, out: Outcome, io: FinalizeAnswers): (Daemon, Outcome) {
    var saveFailed := out.(state := Failed, code := CodeRecoveryRequired);
    var recordFailed := out.(state := Failed, code := CodeInternal);
    if r.kind.QuietHotspot? || r.kind.QuietCampus? then
      (d, if io.quietRecord then out else recordFailed)
    else if !CommitsSelection(r.kind) then (d, out)
    else if r.checkRevision && r.configRevision != d.config.revision then (d, saveFailed)
    else if !io.quietRecord then (d, recordFailed)
    else if r.kind.SwitchCampus? && r.accountID !in d.config.accounts then (d, saveFailed)
    else if r.kind.SwitchHotspot? && r.hotspotID !in d.config.hotspots then (d, saveFailed)
    else
      var chosen := if r.kind.SwitchCampus? then d.config.(activeCampus := r.accountID)
                    else d.config.(activeHotspot := r.hotspotID);
      var kept := if r.kind.SwitchHotspot? && !io.returnRecord then recordFailed else out;
      if chosen == d.config then (d, kept)
      else
        var next := if io.commit.NotVisible? then d
                    else d.(config := chosen.(revision := d.config.revision + 1));
        (next, if io.commit.Durable? then kept else saveFailed)
  }

  /** finishUserAction, called only for an outcome that succeeded. */
  function Finalize(d: Daemon, r: Request, out: Outcome, io: FinalizeAnswers): (res: (Daemon, Outcome))
    ensures out.state.Succeeded? ==> res.1.state.Succeeded? || res.1.state.Failed?
    ensures res.0.config.revision == d.config.revision
            || (CommitsSelection(r.kind) && res.0.config.revision == d.config.revision + 1)
    ensures res.0.config.revision == d.config.revision ==> res.0.config == d.config
  {
    var (d1, out1) := FinishSwitch(d, r, out, io);
    if !out1.state.Succeeded? || !LiftsPause(r.kind) then (d1, out1)
    else
      var (d2, stored) := SetPause(d1, r.accountID, false, io.pauseRecord);
      (d2, if stored then out1 else out1.(state := Failed, code := CodeInternal))
  }

  /**
   A pause outlives every finalization except one that moves the revision or
   completes a login, relogin or campus switch of that very account.
   */
  lemma FinalizeKeepsPause(d: Daemon, r: Request, out: Outcome, io: FinalizeAnswers, account: string)
    requires Paused(d, account) && out.state.Succeeded?
    ensures var (next, result) := Finalize(d, r, out, io);
            || next.config.revision != d.config.revision
            || (LiftsPause(r.kind) && r.accountID == account && result.state.Succeeded?)
            || Paused(next, account)
  {
    var (d1, out1) := FinishSwitch(d, r, out, io);
    if d1.config.revision == d.config.revision {
      assert d1 == d;
    }
  }

  /** A switch that ends in success leaves its choice selected, in the same configuration or one revision on, nothing else changed. */
  lemma SwitchCommitsSelection(d: Daemon, r: Request, out: Outcome, io: FinalizeAnswers)
    requires CommitsSelection(r.kind) && out.state.Succeeded?
    requires Finalize(d, r, out, io).1.state.Succeeded?
    ensures var after := Finalize(d, r, out, io).0.config;
            && (r.kind.SwitchCampus? ==> after.activeCampus == r.accountID && r.accountID in d.config.accounts)
            && (r.kind.SwitchHotspot? ==> after.activeHotspot == r.hotspotID && r.hotspotID in d.config.hotspots)
            && (r.checkRevision ==> r.configRevision == d.config.revision)
            && (after == d.config
                || (after.revision == d.config.revision + 1
                    && after == d.config.(activeCampus := after.activeCampus, activeHotspot := after.activeHotspot, revision := after.revision)
                    && (r.kind.SwitchCampus? ==> after.activeHotspot == d.config.activeHotspot)
                    && (r.kind.SwitchHotspot? ==> after.activeCampus == d.config.activeCampus)))
  {
  }
}
