/**
 The vocabulary of the action coordinator: kinds, states, requests and the
 fingerprint that makes a resubmission recognisable.
 Models core/internal/application/action.go.
 */
module Actions {
  import opened Text

  datatype Kind =
    | Login | Logout | Relogin | SwitchCampus | SwitchHotspot
    | Maintain | ForcedLogout | QuietHotspot | QuietCampus | PresetsRefresh
    | DetectACID | DetectEnvironment | DetectOperators | DetectIdentity | DetectVerify
    | WifiSetupStart | WifiSetupCancel
  {
    function Name(): string {
      match this
      case Login => "manual_login"
      case Logout => "manual_logout"
      case Relogin => "relogin"
      case SwitchCampus => "switch_campus"
      case SwitchHotspot => "switch_hotspot"
      case Maintain => "maintain"
      case ForcedLogout => "forced_logout"
      case QuietHotspot => "quiet_hotspot"
      case QuietCampus => "quiet_campus"
      case PresetsRefresh => "presets_refresh"
      case DetectACID => "detect_acid"
      case DetectEnvironment => "detect_environment"
      case DetectOperators => "detect_operators"
      case DetectIdentity => "detect_identity"
      case DetectVerify => "detect_verify"
      case WifiSetupStart => "wifi_setup_start"
      case WifiSetupCancel => "wifi_setup_cancel"
    }

    predicate WifiSetup() {
      WifiSetupStart? || WifiSetupCancel?
    }

    predicate Discovery() {
      DetectACID? || DetectEnvironment? || DetectOperators? || DetectIdentity? || DetectVerify?
    }

    /** Kinds that own the whole dispatch table while they run. */
    predicate Switches() {
      Logout? || SwitchCampus? || SwitchHotspot? || QuietHotspot? || QuietCampus? || WifiSetup()
    }

    /** Kinds a user asked for directly. */
    predicate Manual() {
      !Maintain? && !ForcedLogout? && !QuietHotspot? && !QuietCampus? && !PresetsRefresh?
    }

    /** policy.Priority: periodic 1, maintenance 2, quiet boundary 3, user action 4. */
    function Priority(): nat {
      match this
      case PresetsRefresh => 1
      case Maintain => 2
      case ForcedLogout | QuietHotspot | QuietCampus => 3
      case _ => 4
    }
  }

  datatype State = Queued | Running | Succeeded | Failed | Cancelled | Interrupted {
    predicate Terminal() {
      Succeeded? || Failed? || Cancelled? || Interrupted?
    }
  }

  datatype Phase = NoPhase | WaitingLink | ChallengePhase | LoginPhase | VerifyPhase | LogoutPhase | SwitchPhase | FetchPhase

  datatype Code =
    | NoCode | CodeConflict | CodeBusy | CodeNotFound | CodeCancelled
    | CodeDeadlineExceeded | CodeInternal | CodeRecoveryRequired
    | CodeTransportFailure | CodeDNSFailure | CodeBindingChanged | CodeBindingUnavailable
    | CodeAuthRejected | CodeOnlineIdentityMismatch | CodeProtocolInvalid | CodeInvalidConfig
    | CodeUnsupportedCapability | CodeOther(name: string)

  predicate IsHex(s: string) {
    forall i | 0 <= i < |s| :: '0' <= s[i] <= '9' || 'a' <= s[i] <= 'f'
  }

  /** The hexadecimal rendering of a SHA-256 value. */
  type Digest = s: string | |s| == 64 && IsHex(s) witness seq(64, _ => '0')

  datatype Request = Request(
    kind: Kind,
    accountID: string,
    hotspotID: string,
    iface: string,
    probeURL: string,
    probeSSID: string,
    probeMode: string,
    probeSchool: string,
    probeACID: string,
    owner: string,
    setupJob: string,
    privateJSON: string,
    privateDigest: Digest,
    key: string,
    ignoreQuiet: bool,
    checkRevision: bool,
    configRevision: nat)

  // ---------------------------------------------------------------------
  // Fingerprint
  // ---------------------------------------------------------------------

  function RevisionField(r: Request): string {
    (if r.checkRevision then "true" else "false") + ":" + Decimal(r.configRevision)
  }

  function Fields(r: Request): (fields: seq<string>) {
    [r.kind.Name(), r.accountID, r.hotspotID, if r.ignoreQuiet then "1" else "0", r.iface, RevisionField(r),
     r.probeURL, r.probeSSID, r.probeMode, r.probeSchool, r.probeACID, r.owner, r.privateDigest, r.setupJob]
  }

  function Fingerprint(r: Request): string {
    Join(Fields(r))
  }

  /** Two requests asking for the same work: everything but the key, and the private draft by digest only. */
  predicate SameWork(a: Request, b: Request) {
    a.(key := "", privateJSON := "") == b.(key := "", privateJSON := "")
  }

  /** What `retire` leaves of a request. */
  function Redacted(r: Request): Request {
    r.(privateJSON := "")
  }

  lemma RedactionKeepsFingerprint(r: Request)
    ensures Fingerprint(Redacted(r)) == Fingerprint(r)
    ensures Redacted(r).key == r.key && SameWork(Redacted(r), r)
  {
    assert Fields(Redacted(r)) == Fields(r);
  }

  /** Length and first byte already tell the kind names apart. */
  function NameShape(k: Kind): (nat, char) {
    match k
    case Login => (12, 'm')
    case Logout => (13, 'm')
    case Relogin => (7, 'r')
    case SwitchCampus => (13, 's')
    case SwitchHotspot => (14, 's')
    case Maintain => (8, 'm')
    case ForcedLogout => (13, 'f')
    case QuietHotspot => (13, 'q')
    case QuietCampus => (12, 'q')
    case PresetsRefresh => (15, 'p')
    case DetectACID => (11, 'd')
    case DetectEnvironment => (18, 'd')
    case DetectOperators => (16, 'd')
    case DetectIdentity => (15, 'd')
    case DetectVerify => (13, 'd')
    case WifiSetupStart => (16, 'w')
    case WifiSetupCancel => (17, 'w')
  }

  lemma NameHasShape(k: Kind)
    ensures |k.Name()| == NameShape(k).0 && k.Name()[0] == NameShape(k).1
  {
    match k
    case _ =>
  }

  lemma KindNames(a: Kind, b: Kind)
    ensures a.Name() == b.Name() ==> a == b
  {
    NameHasShape(a);
    NameHasShape(b);
  }

  lemma NameNulFree(k: Kind)
    ensures NulFree(k.Name())
  {
    match k
    case _ =>
  }

  lemma RevisionFieldInjective(a: Request, b: Request)
    ensures RevisionField(a) == RevisionField(b) ==> a.checkRevision == b.checkRevision && a.configRevision == b.configRevision
    ensures NulFree(RevisionField(a))
  {
    var x, y := RevisionField(a), RevisionField(b);
    if x == y {
      assert x[0] == (if a.checkRevision then 't' else 'f');
      assert y[0] == (if b.checkRevision then 't' else 'f');
      var n := if a.checkRevision then 5 else 6;
      assert Decimal(a.configRevision) == x[n..] == y[n..] == Decimal(b.configRevision);
      DecimalInjective(a.configRevision, b.configRevision);
    }
  }

  lemma SameFieldsSameWork(a: Request, b: Request)
    requires Fields(a) == Fields(b)
    ensures SameWork(a, b)
  {
    var x, y := Fields(a), Fields(b);
    assert forall i | 0 <= i < 14 :: x[i] == y[i];
    assert x[0] == y[0] && x[1] == y[1] && x[2] == y[2] && x[3] == y[3] && x[4] == y[4] && x[5] == y[5] && x[6] == y[6];
    assert x[7] == y[7] && x[8] == y[8] && x[9] == y[9] && x[10] == y[10] && x[11] == y[11] && x[12] == y[12] && x[13] == y[13];
    KindNames(a.kind, b.kind);
    RevisionFieldInjective(a, b);
    assert "0" != "1";
  }

  /** Every free-text field of the request is free of the separator. */
  predicate TextNulFree(r: Request) {
    NulFree(r.accountID) && NulFree(r.hotspotID) && NulFree(r.iface) && NulFree(r.probeURL) && NulFree(r.probeSSID)
    && NulFree(r.probeMode) && NulFree(r.probeSchool) && NulFree(r.probeACID) && NulFree(r.owner) && NulFree(r.setupJob)
  }

  lemma FieldsNulFree(r: Request)
    ensures AllNulFree(Fields(r)) <==> TextNulFree(r)
  {
    var f := Fields(r);
    NameNulFree(r.kind);
    RevisionFieldInjective(r, r);
    assert NulFree(f[0]) && NulFree(f[3]) && NulFree(f[5]) && NulFree(f[12]);
    if AllNulFree(f) {
      assert NulFree(f[1]) && NulFree(f[2]) && NulFree(f[4]) && NulFree(f[6]) && NulFree(f[7]);
      assert NulFree(f[8]) && NulFree(f[9]) && NulFree(f[10]) && NulFree(f[11]) && NulFree(f[13]);
    }
  }

  /**
   Injectivity on NUL-free requests, against every other request: a fingerprint
   equal to that of a NUL-free request can only come from the same work.
   */
  lemma FingerprintIdentifiesWork(a: Request, b: Request)
    requires TextNulFree(a)
    ensures Fingerprint(a) == Fingerprint(b) <==> SameWork(a, b)
  {
    if SameWork(a, b) {
      assert Fields(a) == Fields(b);
    }
    if Fingerprint(a) == Fingerprint(b) {
      FieldsNulFree(a);
      TotalNulsZero(Fields(a));
      TotalNulsZero(Fields(b));
      NulsOfJoin(Fields(a));
      NulsOfJoin(Fields(b));
      JoinInjective(Fields(a), Fields(b));
      SameFieldsSameWork(a, b);
    }
  }

  // ---------------------------------------------------------------------
  // Validation
  // ---------------------------------------------------------------------

  predicate ContainsAny(s: string, chars: string) {
    exists i | 0 <= i < |s| :: s[i] in chars
  }

  /** Request.Validate, true when it returns no error. Every refusal carries the same code. */
  predicate Validates(r: Request) {
    && |r.privateJSON| <= 16384
    && (r.privateJSON == "" || r.kind.DetectIdentity? || r.kind.DetectVerify? || r.kind.WifiSetupStart?)
    && (if r.kind.WifiSetup()
        then |r.setupJob| == 32 && IsHex(r.setupJob) && r.accountID == "" && r.hotspotID == "" && !r.ignoreQuiet
        else r.setupJob == "")
    && (if r.kind.PresetsRefresh? || r.kind.Discovery()
        then r.iface != "" && |r.iface| <= 64 && !ContainsAny(r.iface, "\0\r\n\t /\\")
             && r.accountID == "" && r.hotspotID == "" && !r.ignoreQuiet
        else r.iface == "")
    && (if r.kind.Discovery()
        then (r.kind.DetectEnvironment? || r.probeURL != "") && |r.probeURL| <= 2048 && |r.probeSSID| <= 32
             && |r.probeSchool| <= 128 && |r.probeACID| <= 64
             && !ContainsAny(r.probeURL + r.probeSSID + r.probeMode + r.probeSchool + r.probeACID, "\0\r\n")
        else r.probeURL == "" && r.probeSSID == "" && r.probeMode == "" && r.probeSchool == "" && r.probeACID == "")
    && (r.accountID != "" || r.kind.SwitchHotspot? || r.kind.PresetsRefresh? || r.kind.Discovery() || r.kind.WifiSetup())
    && ((r.kind.SwitchHotspot? || r.kind.QuietHotspot? || r.kind.QuietCampus?) ==> r.hotspotID != "")
    && r.key != ""
  }

  lemma {:induction false} NulFreeConcat(a: string, b: string)
    ensures NulFree(a + b) <==> NulFree(a) && NulFree(b)
  {
    if NulFree(a + b) {
      assert a == (a + b)[..|a|] && b == (a + b)[|a|..];
    }
  }

  lemma NoneOfMeansNulFree(s: string, chars: string)
    requires NUL in chars && !ContainsAny(s, chars)
    ensures NulFree(s)
  {
  }

  lemma ProbesNulFree(r: Request)
    requires !ContainsAny(r.probeURL + r.probeSSID + r.probeMode + r.probeSchool + r.probeACID, "\0\r\n")
    ensures NulFree(r.probeURL) && NulFree(r.probeSSID) && NulFree(r.probeMode) && NulFree(r.probeSchool) && NulFree(r.probeACID)
  {
    assert "\0\r\n"[0] == NUL;
    NoneOfMeansNulFree(r.probeURL + r.probeSSID + r.probeMode + r.probeSchool + r.probeACID, "\0\r\n");
    NulFreeConcat(r.probeURL + r.probeSSID + r.probeMode + r.probeSchool, r.probeACID);
    NulFreeConcat(r.probeURL + r.probeSSID + r.probeMode, r.probeSchool);
    NulFreeConcat(r.probeURL + r.probeSSID, r.probeMode);
    NulFreeConcat(r.probeURL, r.probeSSID);
  }

  /** What Validate already rules out: only the two ids and the owner can still hold a NUL. */
  lemma ValidatedText(r: Request)
    requires Validates(r)
    ensures TextNulFree(r) <==> NulFree(r.accountID) && NulFree(r.hotspotID) && NulFree(r.owner)
  {
    if r.kind.Discovery() {
      ProbesNulFree(r);
    }
    assert NulFree(r.iface) by {
      if r.iface != "" {
        assert "\0\r\n\t /\\"[0] == NUL;
        NoneOfMeansNulFree(r.iface, "\0\r\n\t /\\");
      }
    }
    assert NulFree(r.setupJob);
  }

  lemma AroundPair(f: seq<string>, k: nat)
    requires k + 1 < |f|
    ensures f == f[..k] + [f[k], f[k + 1]] + f[k + 2..]
  {
  }

  /** Changing two neighbouring fields without changing their joined text keeps the whole record. */
  lemma MoveNul(f: seq<string>, g: seq<string>, k: nat, x: string, y: string, z: string)
    requires |f| == |g| && k + 1 < |f|
    requires f[..k] == g[..k] && f[k + 2..] == g[k + 2..]
    requires f[k] == x + [NUL] + y && f[k + 1] == z && g[k] == x && g[k + 1] == y + [NUL] + z
    ensures Join(f) == Join(g)
  {
    ShiftNul(f[..k], x, y, z, f[k + 2..]);
    AroundPair(f, k);
    AroundPair(g, k);
  }

  lemma AccountNulCollides(r: Request) returns (other: Request)
    requires !NulFree(r.accountID)
    ensures !SameWork(r, other) && Fingerprint(other) == Fingerprint(r)
  {
    var x, y := SplitAtNul(r.accountID);
    other := r.(accountID := x, hotspotID := y + [NUL] + r.hotspotID);
    MoveNul(Fields(r), Fields(other), 1, x, y, r.hotspotID);
    assert |x| < |r.accountID|;
  }

  lemma HotspotNulCollides(r: Request) returns (other: Request)
    requires !NulFree(r.hotspotID)
    ensures !SameWork(r, other) && Fingerprint(other) == Fingerprint(r)
  {
    var x, y := SplitAtNul(r.hotspotID);
    other := r.(accountID := r.accountID + [NUL] + x, hotspotID := y);
    MoveNul(Fields(other), Fields(r), 1, r.accountID, x, y);
    assert |y| < |r.hotspotID|;
  }

  lemma OwnerNulCollides(r: Request) returns (other: Request)
    requires !NulFree(r.owner)
    ensures !SameWork(r, other) && Fingerprint(other) == Fingerprint(r)
  {
    var x, y := SplitAtNul(r.owner);
    other := r.(probeACID := r.probeACID + [NUL] + x, owner := y);
    MoveNul(Fields(other), Fields(r), 10, r.probeACID, x, y);
    assert |y| < |r.owner|;
  }

  /**
   The comment on `fingerprint` says no two different requests can collide. That
   holds of a validated request exactly when its account id, hotspot id and
   owner hold no NUL byte.
   */
  lemma CollisionExactlyWhenNul(r: Request)
    requires Validates(r)
    ensures (exists other :: !SameWork(r, other) && Fingerprint(other) == Fingerprint(r))
            <==> !(NulFree(r.accountID) && NulFree(r.hotspotID) && NulFree(r.owner))
  {
    ValidatedText(r);
    if TextNulFree(r) {
      forall other | Fingerprint(other) == Fingerprint(r) ensures SameWork(r, other) {
        FingerprintIdentifiesWork(r, other);
      }
    } else if !NulFree(r.accountID) {
      var other := AccountNulCollides(r);
    } else if !NulFree(r.hotspotID) {
      var other := HotspotNulCollides(r);
    } else {
      var other := OwnerNulCollides(r);
    }
  }

  function PlainLogin(account: string, hotspot: string): Request {
    Request(Login, account, hotspot, "", "", "", "", "", "", "", "", "", seq(64, _ => '0'), "click", false, false, 0)
  }

  /** Two different logins that both pass Validate and share a fingerprint. */
  lemma TwoValidatedLoginsCollide()
    ensures var a, b := PlainLogin("a\0b", "c"), PlainLogin("a", "b\0c");
            Validates(a) && Validates(b) && !SameWork(a, b) && Fingerprint(a) == Fingerprint(b)
  {
    var a, b := PlainLogin("a\0b", "c"), PlainLogin("a", "b\0c");
    assert "a" + [NUL] + "b" == "a\0b" && "b" + [NUL] + "c" == "b\0c";
    MoveNul(Fields(a), Fields(b), 1, "a", "b", "c");
    assert |a.accountID| != |b.accountID|;
  }

  // ---------------------------------------------------------------------
  // The record of one submission
  // ---------------------------------------------------------------------

  type ID = nat
  type Time = int

  /**
   `id` is both the identifier and the submission ordinal: the source renders the
   ordinal in decimal behind a prefix that is constant for the process.
   */
  datatype Action = Action(
    id: ID,
    request: Request,
    line: string,
    state: State,
    phase: Phase,
    code: Code,
    result: string,
    deferred: bool,
    queuedAt: Time,
    startedAt: Time,
    sequence: nat,
    retired: bool)
  {
    /** Action.transition: a terminal state is never left. */
    function Transition(next: State, at: Time): (a: Action)
      ensures state.Terminal() ==> a == this
      ensures !state.Terminal() ==> a.state == next && a.startedAt == (if next.Running? then at else startedAt)
    {
      if state.Terminal() then this
      else this.(state := next, startedAt := if next.Running? then at else startedAt)
    }
  }

  function FormatID(instance: string, n: nat): string {
    instance + "-a" + Decimal(n)
  }

  /** Distinct ordinals render as distinct identifiers. */
  lemma FormatIDInjective(instance: string, m: nat, n: nat)
    requires FormatID(instance, m) == FormatID(instance, n)
    ensures m == n
  {
    var k := |instance| + 2;
    assert Decimal(m) == FormatID(instance, m)[k..] == FormatID(instance, n)[k..] == Decimal(n);
    DecimalInjective(m, n);
  }
}
