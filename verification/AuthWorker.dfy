/**
 One authentication attempt against an adversarial gateway. Every effect is noted
 in a trace, and the gateway, the line, the probes and the context are arbitrary
 functions of everything that happened before. Models
 core/internal/application/authworker.go, terminal.go and connectivity.go.
 */
module AuthWorker {
  import opened Wrappers
  import Actions
  import opened GatewayIdentity

  type Code = Actions.Code

  /** The answer to Online: the query failed, or it established an identity. */
  datatype Heard = Silence(code: Code) | Told(identity: Identity)

  /** The answer to a login or logout request. `Taken` is the gateway's "already online". */
  datatype Reply = Broken(code: Code) | Accepted | Rejected | Taken

  datatype Level = UnknownLevel | OfflineLevel | PortalReachable | InternetReachable | Limited

  datatype Probe = ProbeFailed(code: Code) | Measured(level: Level)

  datatype Event =
    | Asked(heard: Heard)
    | Challenged(issued: Option<string>)
    | Reread(moved: Option<Code>)
    | LoginSent(token: string, name: string, reply: Reply)
    | LogoutSent(name: string, reply: Reply)
    | Probed(system: bool, probe: Probe)
    | Associated(wrong: Option<Code>)
  {
    predicate Sends() { LoginSent? || LogoutSent? }
  }

  type Trace = seq<Event>

  /** Everything outside the worker. */
  datatype World = World(
    online: Trace -> Heard,
    challenge: Trace -> Option<string>,
    challengeFailure: Trace -> Code,
    reread: Trace -> Option<Code>,
    login: Trace -> Reply,
    logout: Trace -> Reply,
    probe: Trace -> Probe,
    systemProbe: Trace -> Probe,
    association: Trace -> Option<Code>,
    stopped: Trace -> Option<Code>)

  datatype CheckMode = CheckInternet | CheckPortal | CheckSSID | CheckInvalid

  /** What prepare resolved. */
  datatype Attempt = Attempt(
    kind: Actions.Kind,
    username: string,
    userID: string,
    mode: CheckMode,
    attempts: int,
    wired: bool,
    destination: Option<Code>,
    wireless: bool,
    systemClient: bool,
    multiWAN: bool)
  {
    predicate Manual() { kind.Manual() }
    predicate ConfirmTerminal() { kind.ForcedLogout? || kind.QuietCampus? }
    predicate Observes() { kind.Maintain? || kind.QuietCampus? }
  }

  datatype AuthState = AuthUnknown | Authenticating | AuthAccepted | VerifiedSelf | VerifiedOther | AuthRejected | AuthOffline

  datatype Outcome = Outcome(ok: bool, code: Code, auth: AuthState, identity: string, level: Level)

  const MAX_TERMINAL_ATTEMPTS := 20

  function Failed(code: Code, auth: AuthState, identity: string): Outcome {
    Outcome(false, code, auth, identity, if auth.AuthUnknown? then UnknownLevel else PortalReachable)
  }

  function Classify(id: Identity): AuthState {
    if id.Nobody() then AuthOffline else if id.Self() then VerifiedSelf else VerifiedOther
  }

  // ---------------------------------------------------------------------
  // Reading a trace
  // ---------------------------------------------------------------------

  /** Whose session the line is known to carry, and whether the line was re-read since. */
  datatype Standing = Unproven | Claimed(name: string) | Proven(name: string)

  function After(s: Standing, e: Event): Standing {
    match e
    case Asked(Told(id)) => if id.Self() then Claimed(id.username) else Unproven
    case Asked(Silence(_)) => Unproven
    case LoginSent(_, _, _) => Unproven
    case LogoutSent(_, _) => Unproven
    case Reread(moved) => if moved.Some? || s.Unproven? then Unproven else Proven(s.name)
    case _ => s
  }

  function StandingOf(t: Trace): Standing {
    if t == [] then Unproven else After(StandingOf(t[..|t| - 1]), t[|t| - 1])
  }

  function Logins(t: Trace): nat {
    if t == [] then 0 else Logins(t[..|t| - 1]) + if t[|t| - 1].LoginSent? then 1 else 0
  }

  function Logouts(t: Trace): nat {
    if t == [] then 0 else Logouts(t[..|t| - 1]) + if t[|t| - 1].LogoutSent? then 1 else 0
  }

  function Queries(t: Trace): nat {
    if t == [] then 0 else Queries(t[..|t| - 1]) + if t[|t| - 1].Asked? then 1 else 0
  }

  /** Every login carries the token of the challenge just before it, with the line re-read unchanged in between. */
  predicate FreshLogins(t: Trace) {
    forall i | 0 <= i < |t| && t[i].LoginSent? ::
      i >= 2 && t[i - 1] == Reread(None) && t[i - 2] == Challenged(Some(t[i].token))
  }

  /** Every logout follows its own query, and names what that query permits. */
  predicate EarnedLogouts(p: Attempt, t: Trace) {
    forall i | 0 <= i < |t| && t[i].LogoutSent? ::
      i >= 1 && t[i - 1].Asked? && t[i - 1].heard.Told? && MayEnd(p, t[i - 1].heard.identity, t[i].name)
  }

  predicate MayEnd(p: Attempt, id: Identity, name: string) {
    if p.kind.Logout? || p.kind.ForcedLogout? then
      id.present && name == id.session && (id.Self() || p.Manual())
    else
      || (id.Nobody() && name == p.userID)
      || (id.Other() && p.Manual() && name == id.session)
  }

  /** A refused or broken login or logout ends the conversation. */
  predicate RefusalIsFinal(t: Trace) {
    forall i | 0 <= i < |t| - 1 && t[i].Sends() :: !t[i].reply.Rejected? && !t[i].reply.Broken?
  }

  /** The system route is asked only where it may speak for the line, right after the bound line did not reach the Internet. */
  predicate MayAskSystem(p: Attempt, t: Trace) {
    && p.systemClient && !p.multiWAN && p.kind !in {Actions.SwitchCampus, Actions.QuietCampus}
    && t != [] && t[|t| - 1].Probed? && !t[|t| - 1].system
    && t[|t| - 1].probe.Measured? && !t[|t| - 1].probe.level.InternetReachable?
  }

  predicate EarnedProbes(p: Attempt, t: Trace) {
    forall i | 0 <= i < |t| && t[i].Probed? && t[i].system :: MayAskSystem(p, t[..i])
  }

  predicate Proper(p: Attempt, t: Trace) {
    FreshLogins(t) && EarnedLogouts(p, t) && RefusalIsFinal(t) && EarnedProbes(p, t)
  }

  /** The last request, if the trace ends with one, was not refused. */
  predicate Open(t: Trace) {
    t != [] && t[|t| - 1].Sends() ==> !t[|t| - 1].reply.Rejected? && !t[|t| - 1].reply.Broken?
  }

  lemma CountsAfter(t: Trace, e: Event)
    ensures Logins(t + [e]) == Logins(t) + if e.LoginSent? then 1 else 0
    ensures Logouts(t + [e]) == Logouts(t) + if e.LogoutSent? then 1 else 0
    ensures Queries(t + [e]) == Queries(t) + if e.Asked? then 1 else 0
    ensures StandingOf(t + [e]) == After(StandingOf(t), e)
  {
    assert (t + [e])[..|t|] == t;
  }

  lemma FreshAfter(t: Trace, e: Event)
    requires FreshLogins(t)
    requires e.LoginSent? ==> |t| >= 2 && t[|t| - 1] == Reread(None) && t[|t| - 2] == Challenged(Some(e.token))
    ensures FreshLogins(t + [e])
  {
  }

  lemma EarnedAfter(p: Attempt, t: Trace, e: Event)
    requires EarnedLogouts(p, t)
    requires e.LogoutSent? ==> t != [] && t[|t| - 1].Asked? && t[|t| - 1].heard.Told? && MayEnd(p, t[|t| - 1].heard.identity, e.name)
    ensures EarnedLogouts(p, t + [e])
  {
    hide MayEnd;
  }

  lemma FinalAfter(t: Trace, e: Event)
    requires RefusalIsFinal(t) && Open(t)
    ensures RefusalIsFinal(t + [e])
  {
  }

  lemma ProbesAfter(p: Attempt, t: Trace, e: Event)
    requires EarnedProbes(p, t) && (e.Probed? && e.system ==> MayAskSystem(p, t))
    ensures EarnedProbes(p, t + [e])
  {
    var r := t + [e];
    assert r[..|t|] == t;
    forall i | 0 <= i < |r| && r[i].Probed? && r[i].system
      ensures MayAskSystem(p, r[..i])
    {
      if i < |t| {
        assert r[..i] == t[..i];
      }
    }
  }

  lemma ProperAfter(p: Attempt, t: Trace, e: Event)
    requires Proper(p, t) && Open(t)
    requires e.Probed? && e.system ==> MayAskSystem(p, t)
    requires e.LoginSent? ==> |t| >= 2 && t[|t| - 1] == Reread(None) && t[|t| - 2] == Challenged(Some(e.token))
    requires e.LogoutSent? ==> t != [] && t[|t| - 1].Asked? && t[|t| - 1].heard.Told? && MayEnd(p, t[|t| - 1].heard.identity, e.name)
    ensures Proper(p, t + [e])
    ensures Open(t + [e]) <==> (e.Sends() ==> !e.reply.Rejected? && !e.reply.Broken?)
  {
    hide FreshLogins, EarnedLogouts, RefusalIsFinal, MayEnd, EarnedProbes, MayAskSystem;
    ProbesAfter(p, t, e);
    FreshAfter(t, e);
    EarnedAfter(p, t, e);
    FinalAfter(t, e);
  }

  lemma QuietAfter(t: Trace, e: Event)
    requires !e.Sends()
    ensures Quiet(t, t + [e])
  {
    CountsAfter(t, e);
    hide Logins, Logouts;
  }

  /** Noting an event that sends nothing. */
  function Note(p: Attempt, t: Trace, e: Event): (r: Trace)
    requires Proper(p, t) && Open(t) && !e.Sends()
    requires e.Probed? && e.system ==> MayAskSystem(p, t)
    ensures r == t + [e] && Proper(p, r) && Open(r)
    ensures Logins(r) == Logins(t) && Logouts(r) == Logouts(t)
    ensures Queries(r) == Queries(t) + if e.Asked? then 1 else 0
    ensures StandingOf(r) == After(StandingOf(t), e)
    ensures Quiet(t, r)
  {
    CountsAfter(t, e);
    ProperAfter(p, t, e);
    QuietAfter(t, e);
    t + [e]
  }

  function NoteLogin(p: Attempt, t: Trace, e: Event): (r: Trace)
    requires Proper(p, t) && Open(t) && e.LoginSent?
    requires |t| >= 2 && t[|t| - 1] == Reread(None) && t[|t| - 2] == Challenged(Some(e.token))
    ensures r == t + [e] && Proper(p, r) && Logins(r) == Logins(t) + 1 && Logouts(r) == Logouts(t)
    ensures Open(r) <==> !e.reply.Rejected? && !e.reply.Broken?
    ensures Queries(r) == Queries(t)
  {
    CountsAfter(t, e);
    ProperAfter(p, t, e);
    t + [e]
  }

  function NoteLogout(p: Attempt, t: Trace, e: Event): (r: Trace)
    requires Proper(p, t) && Open(t) && e.LogoutSent?
    requires t != [] && t[|t| - 1].Asked? && t[|t| - 1].heard.Told? && MayEnd(p, t[|t| - 1].heard.identity, e.name)
    ensures r == t + [e] && Proper(p, r) && Logins(r) == Logins(t) && Logouts(r) == Logouts(t) + 1
    ensures Open(r) <==> !e.reply.Rejected? && !e.reply.Broken?
    ensures Queries(r) == Queries(t)
  {
    CountsAfter(t, e);
    ProperAfter(p, t, e);
    t + [e]
  }

  /** The trace went on without a login or logout. */
  predicate Quiet(t: Trace, r: Trace) {
    t <= r && Logins(r) == Logins(t) && Logouts(r) == Logouts(t) && (forall i | |t| <= i < |r| :: !r[i].Sends())
  }

  lemma QuietSelf(t: Trace)
    ensures Quiet(t, t)
  {
  }

  lemma QuietMeans(t: Trace, r: Trace)
    requires Quiet(t, r)
    ensures t <= r && Logins(r) == Logins(t) && Logouts(r) == Logouts(t)
  {
  }

  lemma NothingYet(p: Attempt)
    ensures Proper(p, []) && Open([]) && Logins([]) == 0 && Logouts([]) == 0 && Queries([]) == 0
  {
  }

  lemma QuietOn(t: Trace, m: Trace, r: Trace)
    requires Quiet(t, m) && Quiet(m, r)
    ensures Quiet(t, r) && t <= r
  {
  }

  // ---------------------------------------------------------------------
  // Why an attempt failed, read off the end of its trace
  // ---------------------------------------------------------------------

  /** The measurement that leaves connectivity unconfirmed. */
  predicate ProbeDenies(e: Event, code: Code) {
    e.Probed? && if e.probe.ProbeFailed? then code == e.probe.code || (e.system && code.CodeTransportFailure?)
                 else !e.probe.level.InternetReachable? && code.CodeTransportFailure?
  }

  /** The check mode's own verdict on an identified session, given what was noted just before the final re-read. */
  predicate ModeDenies(p: Attempt, t: Trace, code: Code) {
    match p.mode
    case CheckInternet => t != [] && ProbeDenies(t[|t| - 1], code)
    case CheckPortal => false
    case CheckSSID => !p.wired && !p.wireless && code.CodeUnsupportedCapability?
    case CheckInvalid => code.CodeInvalidConfig?
  }

  /** A session that was identified and still not accepted, and what is then said about it. */
  predicate ConnectivityDenies(p: Attempt, t: Trace, code: Code, auth: AuthState) {
    && t != []
    && var last := t[|t| - 1];
       || (last.Reread? && last.moved == Some(code) && auth.AuthUnknown?)
       || (last.Associated? && last.wrong == Some(code) && auth.AuthUnknown?)
       || (last == Reread(None) && !p.wired && p.wireless && p.destination == Some(code) && auth.AuthUnknown?)
       || (last == Reread(None) && (p.wired || !p.wireless) && ModeDenies(p, t[..|t| - 1], code) && ModeAuth(code, auth))
       || (last == Associated(None) && |t| >= 2 && ModeDenies(p, t[..|t| - 2], code) && ModeAuth(code, auth))
  }

  /** A failed probe never erases the identity just verified, unless the binding itself is gone. */
  predicate ModeAuth(code: Code, auth: AuthState) {
    if code.CodeBindingChanged? || code.CodeBindingUnavailable? then auth.AuthUnknown? else auth.VerifiedSelf?
  }

  predicate AfterTaken(t: Trace) {
    |t| >= 2 && t[|t| - 2].LoginSent? && t[|t| - 2].reply.Taken?
  }

  /** Every failed login attempt, by its last event: the code it carries and what it says about the session. */
  predicate Explains(w: World, p: Attempt, t: Trace, code: Code, auth: AuthState) {
    || (w.stopped(t) == Some(code) && auth.AuthUnknown?)
    || ConnectivityDenies(p, t, code, auth)
    || (t != [] &&
        match t[|t| - 1]
        case Asked(Silence(c)) => code == c && if Logins(t) == 0 then auth.AuthUnknown? else auth.AuthAccepted?
        case Asked(Told(id)) =>
          if id.Nobody() then Logins(t) > 0 && !AfterTaken(t) && code.CodeDeadlineExceeded? && auth.AuthAccepted?
          else id.Other() && !(AfterTaken(t) && p.Manual()) && code.CodeOnlineIdentityMismatch? && auth.VerifiedOther?
        case Challenged(issued) => issued.None? && code == w.challengeFailure(t[..|t| - 1]) && auth.Authenticating?
        case Reread(moved) =>
          moved == Some(code) && if |t| >= 2 && t[|t| - 2].Challenged? then auth.Authenticating? else auth.AuthUnknown?
        case LoginSent(_, _, reply) =>
          (match reply
           case Broken(c) => code == c && auth.Authenticating?
           case Rejected => code.CodeAuthRejected? && auth.AuthRejected?
           case Taken => Logouts(t) == 1 && code.CodeConflict? && auth.AuthAccepted?
           case Accepted => false)
        case LogoutSent(_, reply) =>
          (match reply
           case Broken(c) => code == c && auth.VerifiedOther?
           case Rejected => code.CodeConflict? && auth.VerifiedOther?
           case _ => false)
        case _ => false)
  }

  /** Success ends with the line unchanged, and on a managed radio with its association as wanted. */
  predicate EndsConfirmed(p: Attempt, t: Trace) {
    t != [] && t[|t| - 1] == if !p.wired && p.wireless then Associated(None) else Reread(None)
  }

  predicate Succeeds(p: Attempt, t: Trace, out: Outcome) {
    && StandingOf(t) == Proven(out.identity) && out.auth.VerifiedSelf? && EndsConfirmed(p, t)
    && (p.mode.CheckInternet? ==> out.level.InternetReachable?)
  }

  // ---------------------------------------------------------------------
  // The connectivity check
  // ---------------------------------------------------------------------

  predicate SystemFallback(p: Attempt) {
    p.systemClient && !p.multiWAN && !p.kind.SwitchCampus? && !p.kind.QuietCampus?
  }

  /** The bound probe, and the system route when it may speak for this line. */
  method MeasureInternet(w: World, p: Attempt, t0: Trace) returns (level: Level, problem: Option<Code>, t: Trace)
    requires Proper(p, t0) && Open(t0)
    ensures Proper(p, t) && Open(t) && Quiet(t0, t) && Queries(t) == Queries(t0) && StandingOf(t) == StandingOf(t0)
    ensures problem.None? ==> level.InternetReachable?
    ensures problem.Some? ==> t != [] && ProbeDenies(t[|t| - 1], problem.value)
    ensures !SystemFallback(p) ==> |t| == |t0| + 1
  {
    hide Proper, Open, Logins, Logouts, Queries, StandingOf, Quiet;
    var bound := w.probe(t0);
    t := Note(p, t0, Probed(false, bound));
    if bound.ProbeFailed? {
      return PortalReachable, Some(bound.code), t;
    }
    var reached := bound.level;
    if !reached.InternetReachable? && SystemFallback(p) {
      var system := w.systemProbe(t);
      QuietOn(t0, t, Note(p, t, Probed(true, system)));
      t := Note(p, t, Probed(true, system));
      if system.Measured? && system.level.InternetReachable? {
        reached := system.level;
      }
    }
    level := if reached.UnknownLevel? then PortalReachable else reached;
    problem := if reached.InternetReachable? then None else Some(Actions.CodeTransportFailure);
  }

  method VerifyConnectivity(w: World, p: Attempt, name: string, t0: Trace) returns (out: Outcome, t: Trace)
    requires Proper(p, t0) && Open(t0) && StandingOf(t0) == Claimed(name)
    ensures Proper(p, t) && Open(t) && Quiet(t0, t) && Queries(t) == Queries(t0)
    ensures out.ok ==> Succeeds(p, t, out) && out.identity == name
    ensures !out.ok ==> ConnectivityDenies(p, t, out.code, out.auth)
  {
    hide Proper, Open, Logins, Logouts, Queries, StandingOf, Quiet;
    QuietSelf(t0);
    t := t0;
    var level, problem := PortalReachable, None;
    match p.mode {
      case CheckInternet =>
        level, problem, t := MeasureInternet(w, p, t);
      case CheckPortal =>
      case CheckSSID =>
        if !p.wired && !p.wireless {
          problem := Some(Actions.CodeUnsupportedCapability);
        }
      case CheckInvalid =>
        problem := Some(Actions.CodeInvalidConfig);
    }
    var moved := w.reread(t);
    QuietOn(t0, t, Note(p, t, Reread(moved)));
    t := Note(p, t, Reread(moved));
    if moved.Some? {
      return Failed(moved.value, AuthUnknown, ""), t;
    }
    if !p.wired && p.wireless {
      if p.destination.Some? {
        return Failed(p.destination.value, AuthUnknown, ""), t;
      }
      var wrong := w.association(t);
      QuietOn(t0, t, Note(p, t, Associated(wrong)));
      t := Note(p, t, Associated(wrong));
      if wrong.Some? {
        return Failed(wrong.value, AuthUnknown, ""), t;
      }
    }
    if problem.None? {
      out := Outcome(true, Actions.NoCode, VerifiedSelf, name, level);
    } else if problem.value.CodeBindingChanged? || problem.value.CodeBindingUnavailable? {
      out := Outcome(false, problem.value, AuthUnknown, "", UnknownLevel);
    } else {
      out := Outcome(false, problem.value, VerifiedSelf, name, level);
    }
  }

  // ---------------------------------------------------------------------
  // Terminal checks
  // ---------------------------------------------------------------------

  predicate Retryable(code: Code) {
    code.CodeTransportFailure? || code.CodeDNSFailure? || code.CodeDeadlineExceeded?
  }

  method VerifyOnce(w: World, p: Attempt, known: Option<Identity>, t0: Trace) returns (out: Outcome, t: Trace)
    requires Proper(p, t0) && Open(t0) && Logins(t0) > 0
    requires known.Some? ==> known.value.Self() && StandingOf(t0) == Claimed(known.value.username)
    requires known.None? && t0[|t0| - 1].LoginSent? ==> t0[|t0| - 1].reply.Accepted?
    ensures Proper(p, t) && Open(t) && Quiet(t0, t)
    ensures Queries(t) == Queries(t0) + if known.None? then 1 else 0
    ensures out.ok ==> Succeeds(p, t, out)
    ensures !out.ok ==> Explains(w, p, t, out.code, out.auth)
  {
    hide Proper, Open, Logins, Logouts, Queries, StandingOf, Quiet;
    QuietSelf(t0);
    t := t0;
    var id: Identity;
    if known.Some? {
      id := known.value;
    } else {
      var heard := w.online(t);
      t := Note(p, t, Asked(heard));
      if heard.Silence? {
        return Failed(heard.code, AuthAccepted, ""), t;
      }
      id := heard.identity;
    }
    match Classify(id) {
      case VerifiedSelf =>
        ghost var before := t;
        out, t := VerifyConnectivity(w, p, id.username, t);
        QuietOn(t0, before, t);
      case VerifiedOther =>
        out := Failed(Actions.CodeOnlineIdentityMismatch, VerifiedOther, id.username);
      case _ =>
        out := Failed(Actions.CodeDeadlineExceeded, AuthAccepted, "");
    }
  }

  /** verifyLogout's check: the line must be unchanged and empty. */
  method LogoutOnce(w: World, p: Attempt, identity: string, t0: Trace) returns (out: Outcome, retry: bool, t: Trace)
    requires Proper(p, t0) && Open(t0)
    ensures Proper(p, t) && Open(t) && Quiet(t0, t)
    ensures Queries(t) == Queries(t0) + 1
    ensures retry <==> !out.ok && MayRetryLogout(t, identity)
    ensures out.ok ==> EmptyThenSame(t) && out.auth == AuthOffline && !retry
    ensures !out.ok ==> StillThere(t, out.code)
  {
    hide Proper, Open, Logins, Logouts, Queries, StandingOf, Quiet;
    var heard := w.online(t0);
    t := Note(p, t0, Asked(heard));
    var moved := w.reread(t);
    QuietOn(t0, t, Note(p, t, Reread(moved)));
    t := Note(p, t, Reread(moved));
    if moved.Some? {
      return Failed(moved.value, AuthUnknown, ""), false, t;
    }
    if heard.Silence? {
      return Outcome(false, Actions.CodeDeadlineExceeded, AuthUnknown, identity, PortalReachable), Retryable(heard.code), t;
    }
    if heard.identity.Nobody() {
      return Outcome(true, Actions.NoCode, AuthOffline, "", PortalReachable), false, t;
    }
    return Failed(Actions.CodeConflict, Classify(heard.identity), heard.identity.username), heard.identity.username == identity, t;
  }

  /** The last two events: the line reported nobody and had not moved. */
  predicate EmptyThenSame(t: Trace) {
    && |t| >= 2 && t[|t| - 1] == Reread(None)
    && t[|t| - 2].Asked? && t[|t| - 2].heard.Told? && t[|t| - 2].heard.identity.Nobody()
  }

  /** The logout could not be confirmed: the line moved, could not be asked, or still has a session. */
  predicate StillThere(t: Trace, code: Code) {
    && |t| >= 1
    && match t[|t| - 1]
       case Reread(Some(c)) => code == c
       case Reread(None) =>
         |t| >= 2 && t[|t| - 2].Asked?
         && if t[|t| - 2].heard.Silence? then code.CodeDeadlineExceeded? else t[|t| - 2].heard.identity.present && code.CodeConflict?
       case _ => false
  }

  /** The line had not moved, and either could not be asked for a passing reason or still carries the session just ended. */
  predicate MayRetryLogout(t: Trace, identity: string) {
    && |t| >= 2 && t[|t| - 1] == Reread(None) && t[|t| - 2].Asked?
    && if t[|t| - 2].heard.Silence? then Retryable(t[|t| - 2].heard.code)
       else t[|t| - 2].heard.identity.present && t[|t| - 2].heard.identity.username == identity
  }

  /** The terminal checks gave up early: the context ended, or the line moved between two of them. */
  predicate CutShort(w: World, t: Trace, code: Code) {
    w.stopped(t) == Some(code) || (t != [] && t[|t| - 1] == Reread(Some(code)))
  }

  /** What terminalChecks is asked to confirm. */
  datatype Goal = Session(known: Option<Identity>) | Ended(identity: string)

  function CheckLimit(p: Attempt): (n: nat)
    ensures 1 <= n <= MAX_TERMINAL_ATTEMPTS
  {
    if p.Manual() || p.ConfirmTerminal() then
      var bounded := if p.attempts < MAX_TERMINAL_ATTEMPTS then p.attempts else MAX_TERMINAL_ATTEMPTS;
      if bounded < 1 then 1 else bounded
    else 1
  }

  /** The limit: the configured number of attempts, between 1 and 20, for a user and for scheduled transitions; one otherwise. */
  lemma CheckLimitIs(p: Attempt)
    ensures p.kind in {Actions.Maintain, Actions.PresetsRefresh, Actions.QuietHotspot} ==> CheckLimit(p) == 1
    ensures p.kind !in {Actions.Maintain, Actions.PresetsRefresh, Actions.QuietHotspot} ==>
              CheckLimit(p) == if p.attempts < 1 then 1 else if p.attempts > 20 then 20 else p.attempts
  {
  }

  /** What is worth another look: a transport or DNS failure, or a deadline; nothing else. */
  lemma RetryableIs(code: Code)
    ensures Retryable(code) <==> code in {Actions.CodeTransportFailure, Actions.CodeDNSFailure, Actions.CodeDeadlineExceeded}
  {
  }

  /** Only confirmation is retried, and exactly as long as the reason is passing and the limit allows. */
  method TerminalChecks(w: World, p: Attempt, goal: Goal, t0: Trace) returns (out: Outcome, t: Trace)
    requires Proper(p, t0) && Open(t0)
    requires goal.Session? ==> Logins(t0) > 0
    requires goal.Session? && goal.known.Some? ==> goal.known.value.Self() && StandingOf(t0) == Claimed(goal.known.value.username)
    requires goal.Session? && goal.known.None? ==> t0[|t0| - 1].LoginSent? && t0[|t0| - 1].reply.Accepted?
    ensures Proper(p, t) && Quiet(t0, t)
    ensures Queries(t) <= Queries(t0) + CheckLimit(p)
    ensures out.ok && goal.Session? ==> Succeeds(p, t, out)
    ensures out.ok && goal.Ended? ==> EmptyThenSame(t) && out.auth == AuthOffline
    ensures !out.ok && goal.Session? ==> Explains(w, p, t, out.code, out.auth)
    ensures !out.ok && goal.Ended? ==> (w.stopped(t) == Some(out.code) && out.auth.AuthUnknown?) || StillThere(t, out.code)
    ensures !out.ok && goal.Session? && Retryable(out.code) && !CutShort(w, t, out.code) ==>
              Queries(t) + (if goal.known.Some? then 1 else 0) == Queries(t0) + CheckLimit(p)
    ensures !out.ok && goal.Ended? && MayRetryLogout(t, goal.identity) && w.stopped(t) != Some(out.code) ==>
              Queries(t) == Queries(t0) + CheckLimit(p)
  {
    t := t0;
    hide Proper, Open, Logins, Logouts, Queries, StandingOf, Quiet, EmptyThenSame, Succeeds;
    QuietSelf(t);
    var count := CheckLimit(p);
    var known := if goal.Session? then goal.known else None;
    var index := 0;
    while true
      invariant 0 <= index < count
      invariant Proper(p, t) && Open(t) && Quiet(t0, t)
      invariant Queries(t) == Queries(t0) + (if goal.Session? && goal.known.Some? && index > 0 then index - 1 else index)
      invariant known.Some? ==> known.value.Self() && StandingOf(t) == Claimed(known.value.username)
      invariant goal.Session? ==> Logins(t) > 0
      invariant goal.Session? && index == 0 ==> t == t0 && known == goal.known
      invariant index > 0 || goal.Ended? ==> known.None?
      decreases count - index
    {
      var stopped := w.stopped(t);
      if stopped.Some? {
        return Failed(stopped.value, AuthUnknown, ""), t;
      }
      if index > 0 {
        var moved := w.reread(t);
        QuietOn(t0, t, Note(p, t, Reread(moved)));
        t := Note(p, t, Reread(moved));
        if moved.Some? {
          return Failed(moved.value, AuthUnknown, ""), t;
        }
      }
      var retry;
      ghost var before := t;
      if goal.Session? {
        out, t := VerifyOnce(w, p, known, t);
        known := None;
        retry := !out.ok && Retryable(out.code);
      } else {
        out, retry, t := LogoutOnce(w, p, goal.identity, t);
      }
      QuietOn(t0, before, t);
      if !retry || index + 1 >= count {
        return;
      }
      index := index + 1;
    }
  }

  // ---------------------------------------------------------------------
  // Sending credentials
  // ---------------------------------------------------------------------

  /** The only path credentials take: challenge, re-read the line, send. */
  method AttemptLogin(w: World, p: Attempt, t0: Trace) returns (reply: Reply, t: Trace)
    requires Proper(p, t0) && Open(t0)
    ensures Proper(p, t) && t0 <= t && Logouts(t) == Logouts(t0) && Queries(t) == Queries(t0)
    ensures Logins(t0) <= Logins(t) <= Logins(t0) + 1
    ensures reply.Accepted? || reply.Taken? ==> Open(t)
    ensures !reply.Broken? ==> Logins(t) == Logins(t0) + 1
    ensures reply.Broken? ==> Explains(w, p, t, reply.code, Authenticating)
    ensures !reply.Broken? ==> t != [] && t[|t| - 1].LoginSent? && t[|t| - 1].reply == reply && t[|t| - 1].name == p.username
  {
    hide Proper, Open, Logins, Logouts, Queries, StandingOf, Quiet;
    var token := w.challenge(t0);
    t := Note(p, t0, Challenged(token));
    if token.None? {
      return Broken(w.challengeFailure(t0)), t;
    }
    var moved := w.reread(t);
    t := Note(p, t, Reread(moved));
    if moved.Some? {
      return Broken(moved.value), t;
    }
    reply := w.login(t);
    t := NoteLogin(p, t, LoginSent(token.value, p.username, reply));
  }

  method ClearAndRetry(w: World, p: Attempt, session: string, identity: string, t0: Trace) returns (out: Outcome, t: Trace)
    requires Proper(p, t0) && Open(t0)
    requires t0 != [] && t0[|t0| - 1].Asked? && t0[|t0| - 1].heard.Told? && MayEnd(p, t0[|t0| - 1].heard.identity, session)
    requires Logouts(t0) == 0
    ensures Proper(p, t) && t0 <= t
    ensures Logouts(t) == Logouts(t0) + 1 && Logins(t) <= Logins(t0) + 1
    ensures Queries(t) <= Queries(t0) + CheckLimit(p)
    ensures out.ok ==> Succeeds(p, t, out)
    ensures !out.ok ==> Explains(w, p, t, out.code, out.auth)
  {
    hide Proper, Open, Logins, Logouts, Queries, StandingOf, Quiet;
    var cleared := w.logout(t0);
    t := NoteLogout(p, t0, LogoutSent(session, cleared));
    if cleared.Broken? {
      return Failed(cleared.code, VerifiedOther, identity), t;
    }
    if cleared.Rejected? {
      return Failed(Actions.CodeConflict, VerifiedOther, identity), t;
    }
    var reply;
    reply, t := AttemptLogin(w, p, t);
    match reply {
      case Broken(code) => out := Failed(code, Authenticating, "");
      case Taken => out := Failed(Actions.CodeConflict, AuthAccepted, identity);
      case Rejected => out := Failed(Actions.CodeAuthRejected, AuthRejected, "");
      case Accepted =>
        ghost var accepted := t;
        out, t := TerminalChecks(w, p, Session(None), t);
        QuietMeans(accepted, t);
    }
  }

  method SettleAlreadyOnline(w: World, p: Attempt, t0: Trace) returns (out: Outcome, t: Trace)
    requires Proper(p, t0) && Open(t0) && !p.kind.Logout? && !p.kind.ForcedLogout?
    requires Logins(t0) > 0 && Logouts(t0) == 0 && t0 != [] && t0[|t0| - 1].LoginSent? && t0[|t0| - 1].reply.Taken?
    ensures Proper(p, t) && t0 <= t
    ensures Logouts(t) <= Logouts(t0) + 1 && Logins(t) - Logins(t0) <= Logouts(t) - Logouts(t0)
    ensures Queries(t) <= Queries(t0) + 1 + CheckLimit(p)
    ensures out.ok ==> Succeeds(p, t, out)
    ensures !out.ok ==> Explains(w, p, t, out.code, out.auth)
  {
    hide Proper, Open, Logins, Logouts, Queries, StandingOf, Quiet;
    var heard := w.online(t0);
    t := Note(p, t0, Asked(heard));
    QuietMeans(t0, t);
    if heard.Silence? {
      return Failed(heard.code, AuthAccepted, ""), t;
    }
    var id := heard.identity;
    match Classify(id) {
      case VerifiedSelf =>
        ghost var asked := t;
        out, t := TerminalChecks(w, p, Session(Some(id)), t);
        QuietMeans(asked, t);
      case VerifiedOther =>
        if !p.Manual() {
          return Failed(Actions.CodeOnlineIdentityMismatch, VerifiedOther, id.username), t;
        }
        out, t := ClearAndRetry(w, p, id.session, id.username, t);
      case _ =>
        out, t := ClearAndRetry(w, p, p.userID, p.username, t);
    }
  }

  /**
   The login path after prepare. For every gateway: at most two logins and one logout,
   each login fresh, each logout earned, no send after a refusal, and success only on
   a line whose session was confirmed and which was then found unchanged.
   */
  method Authenticate(w: World, p: Attempt) returns (out: Outcome, t: Trace)
    requires !p.kind.Logout? && !p.kind.ForcedLogout?
    ensures Proper(p, t)
    ensures Logins(t) <= 2 && Logouts(t) <= 1 && Logins(t) <= 1 + Logouts(t)
    ensures Queries(t) <= 2 + CheckLimit(p)
    ensures p.Observes() && Logins(t) > 0 ==> t[0].Asked? && t[0].heard.Told? && t[0].heard.identity.Nobody()
    ensures out.ok ==> Succeeds(p, t, out)
    ensures !out.ok ==> Explains(w, p, t, out.code, out.auth)
  {
    hide Proper, Open, Logins, Logouts, Queries, StandingOf, Quiet;
    NothingYet(p);
    t := [];
    if p.Observes() {
      var heard := w.online(t);
      t := Note(p, t, Asked(heard));
      if heard.Silence? {
        return Failed(heard.code, AuthUnknown, ""), t;
      }
      match Classify(heard.identity) {
        case VerifiedSelf =>
          ghost var asked := t;
          out, t := VerifyConnectivity(w, p, heard.identity.username, t);
          QuietMeans(asked, t);
          return;
        case VerifiedOther =>
          return Failed(Actions.CodeOnlineIdentityMismatch, VerifiedOther, heard.identity.username), t;
        case _ =>
      }
    }
    ghost var start := t;
    var reply;
    reply, t := AttemptLogin(w, p, t);
    match reply {
      case Broken(code) => out := Failed(code, Authenticating, "");
      case Taken => out, t := SettleAlreadyOnline(w, p, t);
      case Rejected => out := Failed(Actions.CodeAuthRejected, AuthRejected, "");
      case Accepted =>
        ghost var accepted := t;
        out, t := TerminalChecks(w, p, Session(None), t);
        QuietMeans(accepted, t);
    }
    assert start <= t;
  }

  /** Why a logout failed, read off its trace. */
  predicate LogoutExplains(w: World, p: Attempt, t: Trace, code: Code, auth: AuthState) {
    && t != [] && t[0].Asked?
    && if t[0].heard.Silence? then |t| == 1 && code == t[0].heard.code && auth.AuthUnknown?
       else if t[0].heard.identity.Other() && !p.Manual() then |t| == 1 && code.CodeOnlineIdentityMismatch? && auth.VerifiedOther?
       else
         || (|t| == 2 && t[1].LogoutSent? && t[1].reply.Broken? && code == t[1].reply.code && auth == Classify(t[0].heard.identity))
         || (|t| == 2 && t[1].LogoutSent? && t[1].reply.Rejected? && code.CodeAuthRejected? && auth == Classify(t[0].heard.identity))
         || (|t| >= 2 && t[1].LogoutSent? && w.stopped(t) == Some(code) && auth.AuthUnknown?)
         || (|t| >= 3 && t[1].LogoutSent? && StillThere(t, code))
  }

  /** The line named a session this request may end. */
  predicate MayBeEnded(p: Attempt, id: Identity) { id.present && (id.matches || p.Manual()) }

  /**
   logout after prepare. One query; a logout is sent exactly when it named this account's
   session, or anybody's to a user who asked, and it names that session. Success means
   the line was empty from the start, or is now and had not moved. Every failure is
   explained by the trace.
   */
  method Logout(w: World, p: Attempt) returns (out: Outcome, t: Trace)
    requires p.kind.Logout? || p.kind.ForcedLogout?
    ensures Proper(p, t)
    ensures t != [] && t[0].Asked?
    ensures Logins(t) == 0 && Queries(t) <= 1 + CheckLimit(p)
    ensures Logouts(t) == if t[0].heard.Told? && MayBeEnded(p, t[0].heard.identity) then 1 else 0
    ensures Logouts(t) == 1 ==> |t| >= 2 && t[1].LogoutSent? && t[1].name == t[0].heard.identity.session
    ensures out.ok ==> out.auth == AuthOffline && (if Logouts(t) == 0 then |t| == 1 && t[0].heard.Told? && t[0].heard.identity.Nobody() else EmptyThenSame(t))
    ensures !out.ok ==> LogoutExplains(w, p, t, out.code, out.auth)
  {
    hide Proper, Open, Logins, Logouts, Queries, StandingOf, Quiet, EmptyThenSame, StillThere;
    NothingYet(p);
    var heard := w.online([]);
    t := Note(p, [], Asked(heard));
    if heard.Silence? {
      return Failed(heard.code, AuthUnknown, ""), t;
    }
    var id := heard.identity;
    if id.Nobody() {
      return Outcome(true, Actions.NoCode, AuthOffline, "", PortalReachable), t;
    }
    if !id.matches && !p.Manual() {
      return Failed(Actions.CodeOnlineIdentityMismatch, VerifiedOther, id.username), t;
    }
    var reply := w.logout(t);
    t := NoteLogout(p, t, LogoutSent(id.session, reply));
    if reply.Broken? {
      return Failed(reply.code, Classify(id), id.username), t;
    }
    if reply.Rejected? {
      return Failed(Actions.CodeAuthRejected, Classify(id), id.username), t;
    }
    ghost var sent := t;
    out, t := TerminalChecks(w, p, Ended(id.username), t);
    QuietMeans(sent, t);
    if !out.ok && StillThere(t, out.code) {
      StillThereIsLater(sent, t, out.code);
    }
  }

  lemma StillThereIsLater(sent: Trace, t: Trace, code: Code)
    requires sent <= t && |sent| == 2 && sent[1].LogoutSent? && StillThere(t, code)
    ensures |t| >= 3
  {
  }

  // ---------------------------------------------------------------------
  // What the readings mean, position by position
  // ---------------------------------------------------------------------

  /** The line answered with this account's own session. */
  predicate SelfAt(t: Trace, i: int, name: string) {
    0 <= i < |t| && t[i].Asked? && t[i].heard.Told? && t[i].heard.identity.Self() && t[i].heard.identity.username == name
  }

  /** Nothing that could have changed whose session it is, or where. */
  predicate Undisturbed(t: Trace, i: nat) {
    forall k | i < k < |t| :: !t[k].Asked? && !t[k].Sends() && (t[k].Reread? ==> t[k].moved.None?)
  }

  /** A proven session: the line named this account, and after that was found unchanged, with no login, logout or other answer since. */
  lemma {:induction false} ProvenWitness(t: Trace) returns (i: nat, j: nat)
    requires !StandingOf(t).Unproven?
    ensures SelfAt(t, i, StandingOf(t).name) && Undisturbed(t, i)
    ensures StandingOf(t).Proven? ==> i < j < |t| && t[j] == Reread(None)
  {
    var n := |t| - 1;
    var before, last := StandingOf(t[..n]), t[n];
    if last.Asked? {
      i, j := n, 0;
    } else {
      i, j := ProvenWitness(t[..n]);
      if last.Reread? {
        j := n;
      }
    }
  }

  lemma {:induction false} ProvenExactly(t: Trace, i: nat, j: int, name: string)
    requires SelfAt(t, i, name) && Undisturbed(t, i)
    ensures StandingOf(t) == Claimed(name) || StandingOf(t) == Proven(name)
    ensures i < j < |t| && t[j] == Reread(None) ==> StandingOf(t) == Proven(name)
  {
    var n := |t| - 1;
    if i < n {
      ProvenExactly(t[..n], i, if j < n then j else i, name);
    }
  }

  function LoginPositions(t: Trace): set<int> {
    set i | 0 <= i < |t| && t[i].LoginSent?
  }

  function LogoutPositions(t: Trace): set<int> {
    set i | 0 <= i < |t| && t[i].LogoutSent?
  }

  lemma {:induction false} CountsArePositions(t: Trace)
    ensures Logins(t) == |LoginPositions(t)| && Logouts(t) == |LogoutPositions(t)|
  {
    if t != [] {
      var n := |t| - 1;
      var u := t[..n];
      CountsArePositions(u);
      assert LoginPositions(t) == LoginPositions(u) + if t[n].LoginSent? then {n} else {};
      assert LogoutPositions(t) == LogoutPositions(u) + if t[n].LogoutSent? then {n} else {};
    }
  }

  /** No two logins share a challenge, and an automatic attempt ends no session that was reported as anybody's. */
  lemma EachLoginHasItsOwnChallenge(p: Attempt, t: Trace, i: int, j: int)
    requires Proper(p, t) && 0 <= i < j < |t| && t[i].LoginSent? && t[j].LoginSent?
    ensures i + 3 <= j && t[j - 2].Challenged? && t[i - 2].Challenged?
  {
    assert t[j - 1] == Reread(None);
  }

  lemma AutomaticEndsNobody(p: Attempt, t: Trace, i: int)
    requires Proper(p, t) && 0 <= i < |t| && t[i].LogoutSent?
    requires !p.Manual() && !p.kind.ForcedLogout?
    ensures i > 0 && t[i - 1].Asked? && t[i - 1].heard.Told? && t[i - 1].heard.identity.Nobody() && t[i].name == p.userID
  {
    assert p.kind.Logout? ==> p.kind.Manual();
  }
}
