/**
 Validation as the source does it, one accumulating pass, against what it is for: the
 list of problems is empty exactly when the document is valid. Models
 core/internal/config/validate.go, validate_account.go and the changes of mutations.go.
 */
module ConfigValidate {
  import opened Wrappers
  import opened Text
  import opened ConfigRules

  // ---------------------------------------------------------------------
  // What validity means
  // ---------------------------------------------------------------------

  predicate Fits(value: string, limit: nat, required: bool) {
    (required ==> value != "") && ByteLength(value) <= limit
  }

  predicate InRange(value: int, low: int, high: int) { low <= value <= high }

  predicate ValidTuning(t: Tuning) {
    && Fits(t.n, MAX_NAME, true) && Fits(t.kind, MAX_NAME, true) && Fits(t.enc, MAX_NAME, true)
    && InRange(t.maxRetries, 0, 100)
    && t.initialSeconds <= 3600 && t.maxSeconds <= 3600 && t.initialSeconds <= t.maxSeconds
    && InRange(t.interval, 1, 3600) && InRange(t.switchTimeout, 1, 300)
    && InRange(t.terminalAttempts, 1, 20) && InRange(t.terminalInterval, 1, 60)
  }

  predicate HexDigit(c: char) { '0' <= c <= '9' || 'a' <= c <= 'f' }

  function HexValue(c: char): int
    requires HexDigit(c)
  {
    if c <= '9' then c as int - '0' as int else c as int - 'a' as int + 10
  }

  /** A unicast, non-zero MAC in lower-case colon form. */
  predicate ValidBSSID(s: string) {
    && |s| == 17
    && (forall i | 0 <= i < 17 :: if i % 3 == 2 then s[i] == ':' else HexDigit(s[i]))
    && HexValue(s[1]) % 2 == 0
    && s != "00:00:00:00:00:00"
  }

  predicate ValidSuffix(s: string) {
    Fits(s, MAX_SUFFIX, false) && s != "??" && (forall c <- s :: c !in " \t\r\n@")
  }

  predicate ValidLogin(reg: Registry, l: LoginShape) {
    && Fits(l.n, MAX_NAME, false) && Fits(l.kind, MAX_NAME, false) && Fits(l.enc, MAX_NAME, false)
    && Fits(l.prefix, MAX_NAME, false) && Fits(l.os, MAX_NAME, false) && Fits(l.name, MAX_NAME, false)
    && (l.alphabet != "" ==> reg.alphabet(l.alphabet))
  }

  predicate KeyRequired(encryption: string) { NormalizeEncryption(encryption) != "none" }

  predicate ValidWireless(a: Campus) {
    && Fits(a.ssid, MAX_NAME, true) && Fits(a.radio, MAX_NAME, false) && Fits(a.encryption, MAX_NAME, true)
    && Fits(a.key, MAX_SECRET, false)
    && (KeyRequired(a.encryption) ==> a.key != "")
    && ValidPolicy(a.apSelection)
    && (a.apSelection == "fixed" ==> a.bssid != "")
    && (a.bssid != "" ==> ValidBSSID(a.bssid))
  }

  predicate ValidCampus(reg: Registry, a: Campus) {
    && Fits(a.id, MAX_ID, true) && Fits(a.caption, MAX_LABEL, false) && Fits(a.userID, MAX_USER_ID, true)
    && Fits(a.password, MAX_SECRET, false) && Fits(a.operator, MAX_LABEL, false) && Fits(a.baseURL, MAX_URL, false)
    && Fits(a.acid, MAX_NAME, false) && Fits(a.presetID, MAX_ID, false)
    && TrimSpace(a.userID) == a.userID
    && ValidSuffix(a.suffix) && ValidLogin(reg, a.login)
    && (a.mode == "wired" || a.mode == "wifi")
    && (if a.Wired() then Fits(a.wiredIface, MAX_NAME, true) else ValidWireless(a))
  }

  predicate ValidHotspot(h: Hotspot) {
    && Fits(h.id, MAX_ID, true) && Fits(h.caption, MAX_LABEL, false) && Fits(h.ssid, MAX_NAME, true)
    && Fits(h.radio, MAX_NAME, false) && Fits(h.key, MAX_SECRET, false)
    && (KeyRequired(h.encryption) ==> h.key != "")
  }

  predicate DistinctCampus(campus: seq<Campus>) {
    forall i, j | 0 <= i < j < |campus| :: campus[i].id != campus[j].id
  }

  predicate DistinctHotspots(hotspots: seq<Hotspot>) {
    forall i, j | 0 <= i < j < |hotspots| :: hotspots[i].id != hotspots[j].id
  }

  /** An account the multi-WAN daemon keeps online by itself. */
  predicate Managed(multiWAN: bool, a: Campus) { multiWAN && a.Wired() && a.authEnabled }

  /** No line has two managed accounts. */
  predicate OnePerLine(multiWAN: bool, campus: seq<Campus>) {
    forall i, j | 0 <= i < j < |campus| ::
      Managed(multiWAN, campus[i]) && Managed(multiWAN, campus[j]) ==> campus[i].wiredIface != campus[j].wiredIface
  }

  function CountManaged(multiWAN: bool, campus: seq<Campus>): nat {
    if campus == [] then 0
    else CountManaged(multiWAN, campus[..|campus| - 1]) + if Managed(multiWAN, campus[|campus| - 1]) then 1 else 0
  }

  predicate ValidAccounts(reg: Registry, c: Config) {
    && |c.campus| <= MAX_CAMPUS
    && (forall a <- c.campus :: ValidCampus(reg, a))
    && DistinctCampus(c.campus)
    && OnePerLine(c.multiWAN, c.campus)
    && CountManaged(c.multiWAN, c.campus) <= MAX_MANAGED
  }

  predicate ValidHotspots(c: Config) {
    |c.hotspots| <= MAX_HOTSPOTS && (forall h <- c.hotspots :: ValidHotspot(h)) && DistinctHotspots(c.hotspots)
  }

  predicate ValidExtra(extra: map<string, string>) {
    |extra| <= MAX_EXTRA && forall k <- extra :: Fits(k, MAX_ID, true) && Fits(extra[k], MAX_NAME, false)
  }

  predicate ValidDocument(reg: Registry, c: Config) {
    && c.schema == SCHEMA_VERSION
    && Fits(c.school, MAX_NAME, true) && Fits(c.staIface, MAX_NAME, false)
    && ValidTuning(c.tuning)
    && c.logLevel in {"ALL", "DEBUG", "INFO", "WARN", "ERROR"} && c.checkMode in {"internet", "portal", "ssid"}
    && ValidAccounts(reg, c) && ValidHotspots(c) && Resolved(c) && ValidExtra(c.extra)
  }

  // ---------------------------------------------------------------------
  // The accumulating pass
  // ---------------------------------------------------------------------

  type Problems = seq<string>

  function Report(problems: Problems, fine: bool, field: string): (r: Problems)
    ensures r == [] <==> problems == [] && fine
  {
    if fine then problems else problems + [field]
  }

  method CheckBytes(problems: Problems, field: string, value: string, limit: nat, required: bool) returns (r: Problems)
    ensures r == [] <==> problems == [] && Fits(value, limit, required)
  {
    if required && value == "" {
      return problems + [field];
    }
    r := if ByteLength(value) > limit then problems + [field] else problems;
  }

  method CheckBSSID(value: string) returns (ok: bool)
    ensures ok <==> ValidBSSID(value)
  {
    if |value| != 17 {
      return false;
    }
    var first := 0;
    for octet := 0 to 6
      invariant forall i | 0 <= i < 3 * octet && i < 17 && (i % 3 != 2 || i < 3 * octet - 1) :: if i % 3 == 2 then value[i] == ':' else HexDigit(value[i])
      invariant octet > 0 ==> HexDigit(value[0]) && HexDigit(value[1]) && first == HexValue(value[0]) * 16 + HexValue(value[1])
    {
      var offset := octet * 3;
      if octet > 0 && value[offset - 1] != ':' {
        return false;
      }
      if !HexDigit(value[offset]) || !HexDigit(value[offset + 1]) {
        return false;
      }
      if octet == 0 {
        first := HexValue(value[offset]) * 16 + HexValue(value[offset + 1]);
      }
    }
    if first % 2 != 0 {
      return false;
    }
    return value != "00:00:00:00:00:00";
  }

  method CheckHotspot(problems: Problems, h: Hotspot) returns (r: Problems)
    ensures r == [] <==> problems == [] && ValidHotspot(h)
  {
    hide Fits, KeyRequired;
    r := CheckBytes(problems, "id", h.id, MAX_ID, true);
    r := CheckBytes(r, "label", h.caption, MAX_LABEL, false);
    r := CheckBytes(r, "ssid", h.ssid, MAX_NAME, true);
    r := CheckBytes(r, "radio", h.radio, MAX_NAME, false);
    r := CheckBytes(r, "key", h.key, MAX_SECRET, false);
    r := Report(r, KeyRequired(h.encryption) ==> h.key != "", "key");
  }

  lemma ValidHotspotHasID(h: Hotspot)
    ensures ValidHotspot(h) ==> h.id != ""
  {
  }

  function HotspotIDsOf(hotspots: seq<Hotspot>, n: nat): set<string>
    requires n <= |hotspots|
  {
    set k | 0 <= k < n :: hotspots[k].id
  }

  method CheckHotspots(problems: Problems, c: Config) returns (r: Problems)
    ensures r == [] <==> problems == [] && ValidHotspots(c)
  {
    hide ValidHotspot, DistinctHotspots, HotspotIDsOf;
    var hotspots := c.hotspots;
    r := Report(problems, |hotspots| <= MAX_HOTSPOTS, "hotspot_profiles");
    var seen: map<string, int> := map[];
    NoHotspots(hotspots);
    for i := 0 to |hotspots|
      invariant seen.Keys == HotspotIDsOf(hotspots, i)
      invariant r == [] <==>
                  && problems == [] && |hotspots| <= MAX_HOTSPOTS
                  && (forall k | 0 <= k < i :: ValidHotspot(hotspots[k])) && DistinctHotspots(hotspots[..i])
    {
      var h := hotspots[i];
      r := CheckHotspot(r, h);
      ValidHotspotHasID(h);
      HotspotStep(hotspots, i);
      r := Report(r, !(h.id in seen && h.id != ""), "id");
      seen := seen[h.id := i];
    }
    assert hotspots[..|hotspots|] == hotspots;
  }

  lemma HotspotStep(hotspots: seq<Hotspot>, i: nat)
    requires i < |hotspots|
    ensures var h := hotspots[i];
            && (DistinctHotspots(hotspots[..i + 1]) <==> DistinctHotspots(hotspots[..i]) && h.id !in HotspotIDsOf(hotspots, i))
            && HotspotIDsOf(hotspots, i + 1) == HotspotIDsOf(hotspots, i) + {h.id}
  {
    HotspotsGrow(hotspots, i);
    hide DistinctHotspots;
  }

  lemma NoHotspots(hotspots: seq<Hotspot>)
    ensures DistinctHotspots(hotspots[..0]) && HotspotIDsOf(hotspots, 0) == {}
  {
  }

  lemma HotspotsGrow(hotspots: seq<Hotspot>, i: nat)
    requires i < |hotspots|
    ensures DistinctHotspots(hotspots[..i + 1]) <==> DistinctHotspots(hotspots[..i]) && forall k | 0 <= k < i :: hotspots[k].id != hotspots[i].id
  {
    var a, b := hotspots[..i], hotspots[..i + 1];
    assert forall k | 0 <= k < i :: a[k] == b[k] == hotspots[k];
    assert b[i] == hotspots[i];
  }

  lemma CampusGrow(multiWAN: bool, campus: seq<Campus>, i: nat)
    requires i < |campus|
    ensures DistinctCampus(campus[..i + 1]) <==> DistinctCampus(campus[..i]) && forall k | 0 <= k < i :: campus[k].id != campus[i].id
    ensures OnePerLine(multiWAN, campus[..i + 1]) <==>
              && OnePerLine(multiWAN, campus[..i])
              && (Managed(multiWAN, campus[i]) ==> forall k | 0 <= k < i :: Managed(multiWAN, campus[k]) ==> campus[k].wiredIface != campus[i].wiredIface)
    ensures CountManaged(multiWAN, campus[..i + 1]) == CountManaged(multiWAN, campus[..i]) + if Managed(multiWAN, campus[i]) then 1 else 0
  {
    var a, b := campus[..i], campus[..i + 1];
    assert forall k | 0 <= k < i :: a[k] == b[k] == campus[k];
    assert b[i] == campus[i] && b[..i] == a;
  }

  function IDsOf(campus: seq<Campus>, n: nat): set<string>
    requires n <= |campus|
  {
    set k | 0 <= k < n :: campus[k].id
  }

  function ManagedLines(multiWAN: bool, campus: seq<Campus>, n: nat): set<string>
    requires n <= |campus|
  {
    set k | 0 <= k < n && Managed(multiWAN, campus[k]) :: campus[k].wiredIface
  }

  /** The same step in terms of the maps the loop carries. */
  lemma CampusStep(multiWAN: bool, campus: seq<Campus>, i: nat)
    requires i < |campus|
    ensures var a := campus[i];
            && (DistinctCampus(campus[..i + 1]) <==> DistinctCampus(campus[..i]) && a.id !in IDsOf(campus, i))
            && (OnePerLine(multiWAN, campus[..i + 1]) <==>
                  OnePerLine(multiWAN, campus[..i]) && (Managed(multiWAN, a) ==> a.wiredIface !in ManagedLines(multiWAN, campus, i)))
            && CountManaged(multiWAN, campus[..i + 1]) == CountManaged(multiWAN, campus[..i]) + (if Managed(multiWAN, a) then 1 else 0)
            && IDsOf(campus, i + 1) == IDsOf(campus, i) + {a.id}
            && ManagedLines(multiWAN, campus, i + 1) == ManagedLines(multiWAN, campus, i) + if Managed(multiWAN, a) then {a.wiredIface} else {}
  {
    CampusGrow(multiWAN, campus, i);
    hide DistinctCampus, OnePerLine, CountManaged, Managed;
  }

  lemma NoCampus(multiWAN: bool, campus: seq<Campus>)
    ensures DistinctCampus(campus[..0]) && OnePerLine(multiWAN, campus[..0]) && CountManaged(multiWAN, campus[..0]) == 0
    ensures IDsOf(campus, 0) == {} && ManagedLines(multiWAN, campus, 0) == {}
  {
  }

  method CheckLogin(reg: Registry, problems: Problems, l: LoginShape) returns (r: Problems)
    ensures r == [] <==> problems == [] && ValidLogin(reg, l)
  {
    hide Fits;
    r := CheckBytes(problems, "login.n", l.n, MAX_NAME, false);
    r := CheckBytes(r, "login.type", l.kind, MAX_NAME, false);
    r := CheckBytes(r, "login.enc", l.enc, MAX_NAME, false);
    r := CheckBytes(r, "login.info_prefix", l.prefix, MAX_NAME, false);
    r := CheckBytes(r, "login.os", l.os, MAX_NAME, false);
    r := CheckBytes(r, "login.name", l.name, MAX_NAME, false);
    r := Report(r, l.alphabet != "" ==> reg.alphabet(l.alphabet), "login.alphabet");
  }

  method CheckWireless(problems: Problems, a: Campus) returns (r: Problems)
    ensures r == [] <==> problems == [] && ValidWireless(a)
  {
    hide Fits, KeyRequired, ValidBSSID, ValidPolicy;
    r := CheckBytes(problems, "ssid", a.ssid, MAX_NAME, true);
    r := CheckBytes(r, "radio", a.radio, MAX_NAME, false);
    r := CheckBytes(r, "encryption", a.encryption, MAX_NAME, true);
    r := CheckBytes(r, "key", a.key, MAX_SECRET, false);
    r := Report(r, KeyRequired(a.encryption) ==> a.key != "", "key");
    r := Report(r, ValidPolicy(a.apSelection), "ap_selection");
    var unicast := CheckBSSID(a.bssid);
    if a.apSelection == "fixed" {
      if a.bssid == "" {
        r := Report(r, false, "bssid");
      } else {
        r := Report(r, unicast, "bssid");
      }
    } else {
      r := Report(r, a.bssid == "" || unicast, "bssid");
    }
  }

  method CheckSuffix(problems: Problems, suffix: string) returns (r: Problems)
    ensures r == [] <==> problems == [] && ValidSuffix(suffix)
  {
    r := CheckBytes(problems, "operator_suffix", suffix, MAX_SUFFIX, false);
    if suffix == "??" {
      r := r + ["operator_suffix"];
      return;
    }
    if suffix == "" {
      return;
    }
    r := Report(r, forall c <- suffix :: c !in " \t\r\n", "operator_suffix");
    r := Report(r, '@' !in suffix, "operator_suffix");
  }

  method CheckCampus(reg: Registry, problems: Problems, a: Campus) returns (r: Problems)
    ensures r == [] <==> problems == [] && ValidCampus(reg, a)
  {
    hide Fits, ValidSuffix, ValidLogin, ValidWireless;
    r := CheckBytes(problems, "id", a.id, MAX_ID, true);
    r := CheckBytes(r, "label", a.caption, MAX_LABEL, false);
    r := CheckBytes(r, "user_id", a.userID, MAX_USER_ID, true);
    r := CheckBytes(r, "password", a.password, MAX_SECRET, false);
    r := CheckBytes(r, "operator", a.operator, MAX_LABEL, false);
    r := CheckBytes(r, "base_url", a.baseURL, MAX_URL, false);
    r := CheckBytes(r, "ac_id", a.acid, MAX_NAME, false);
    r := CheckBytes(r, "preset_id", a.presetID, MAX_ID, false);
    r := Report(r, TrimSpace(a.userID) == a.userID, "user_id");
    r := CheckSuffix(r, a.suffix);
    r := CheckLogin(reg, r, a.login);
    if a.mode != "wired" && a.mode != "wifi" {
      r := Report(r, false, "access_mode");
      return;
    }
    if a.Wired() {
      r := CheckBytes(r, "wired_iface", a.wiredIface, MAX_NAME, true);
    } else {
      r := CheckWireless(r, a);
    }
  }

  method CheckCampusAccounts(reg: Registry, problems: Problems, c: Config) returns (r: Problems)
    ensures r == [] <==> problems == [] && ValidAccounts(reg, c)
  {
    hide ValidCampus, DistinctCampus, OnePerLine, CountManaged, IDsOf, ManagedLines;
    var campus, multiWAN := c.campus, c.multiWAN;
    r := Report(problems, |campus| <= MAX_CAMPUS, "campus_accounts");
    var seen: map<string, int> := map[];
    var lines: map<string, int> := map[];
    var managed := 0;
    NoCampus(multiWAN, campus);
    for i := 0 to |campus|
      invariant seen.Keys == IDsOf(campus, i)
      invariant lines.Keys == ManagedLines(multiWAN, campus, i)
      invariant managed == CountManaged(multiWAN, campus[..i])
      invariant r == [] <==>
                  && problems == [] && |campus| <= MAX_CAMPUS
                  && (forall k | 0 <= k < i :: ValidCampus(reg, campus[k]))
                  && DistinctCampus(campus[..i]) && OnePerLine(multiWAN, campus[..i])
    {
      var a := campus[i];
      r := CheckCampus(reg, r, a);
      CampusStep(multiWAN, campus, i);
      ValidHasID(reg, a);
      r := Report(r, !(a.id in seen && a.id != ""), "id");
      seen := seen[a.id := i];
      if multiWAN && a.Wired() && a.authEnabled {
        managed := managed + 1;
        r := Report(r, a.wiredIface !in lines, "wired_iface");
        lines := lines[a.wiredIface := i];
      }
    }
    assert campus[..|campus|] == campus;
    r := Report(r, managed <= MAX_MANAGED, "campus_accounts");
  }

  lemma ValidHasID(reg: Registry, a: Campus)
    ensures ValidCampus(reg, a) ==> a.id != ""
  {
  }

  method CheckRange(problems: Problems, field: string, value: int, low: int, high: int) returns (r: Problems)
    ensures r == [] <==> problems == [] && InRange(value, low, high)
  {
    r := if value < low || value > high then problems + [field] else problems;
  }

  method CheckTuning(problems: Problems, t: Tuning) returns (r: Problems)
    ensures r == [] <==> problems == [] && ValidTuning(t)
  {
    hide Fits;
    r := CheckBytes(problems, "login_defaults.n", t.n, MAX_NAME, true);
    r := CheckBytes(r, "login_defaults.type", t.kind, MAX_NAME, true);
    r := CheckBytes(r, "login_defaults.enc", t.enc, MAX_NAME, true);
    r := CheckRange(r, "retry.max_retries", t.maxRetries, 0, 100);
    if t.initialSeconds > 3600 {
      r := r + ["retry.initial_seconds"];
    }
    if t.maxSeconds > 3600 {
      r := r + ["retry.max_seconds"];
    }
    if t.initialSeconds > t.maxSeconds {
      r := r + ["retry.max_seconds"];
    }
    r := CheckRange(r, "checks.interval_seconds", t.interval, 1, 3600);
    r := CheckRange(r, "checks.switch_timeout_seconds", t.switchTimeout, 1, 300);
    r := CheckRange(r, "checks.terminal_attempts", t.terminalAttempts, 1, 20);
    r := CheckRange(r, "checks.terminal_interval_seconds", t.terminalInterval, 1, 60);
  }

  method CheckPointer(problems: Problems, field: string, id: string, known: set<string>) returns (r: Problems)
    ensures r == [] <==> problems == [] && PointerResolves(id, known)
  {
    if id == "" {
      return problems;
    }
    r := if id !in known then problems + [field] else problems;
  }

  method CheckSelection(problems: Problems, c: Config) returns (r: Problems)
    ensures r == [] <==> problems == [] && Resolved(c)
  {
    var campus: set<string> := {};
    for i := 0 to |c.campus|
      invariant campus == set k | 0 <= k < i :: c.campus[k].id
    {
      campus := campus + {c.campus[i].id};
    }
    var hotspots: set<string> := {};
    for i := 0 to |c.hotspots|
      invariant hotspots == set k | 0 <= k < i :: c.hotspots[k].id
    {
      hotspots := hotspots + {c.hotspots[i].id};
    }
    assert campus == CampusIDs(c) && hotspots == HotspotIDs(c);
    hide CampusIDs, HotspotIDs, PointerResolves;
    var s := c.selection;
    r := CheckPointer(problems, "selection.active_campus_id", s.activeCampus, campus);
    r := CheckPointer(r, "selection.default_campus_id", s.defaultCampus, campus);
    r := CheckPointer(r, "selection.active_hotspot_id", s.activeHotspot, hotspots);
    r := CheckPointer(r, "selection.default_hotspot_id", s.defaultHotspot, hotspots);
  }

  method CheckExtra(problems: Problems, extra: map<string, string>) returns (r: Problems)
    ensures r == [] <==> problems == [] && ValidExtra(extra)
  {
    hide Fits;
    r := Report(problems, |extra| <= MAX_EXTRA, "school_extra");
    var todo := extra.Keys;
    while todo != {}
      invariant todo <= extra.Keys
      invariant r == [] <==>
                  && problems == [] && |extra| <= MAX_EXTRA
                  && forall k <- extra.Keys - todo :: Fits(k, MAX_ID, true) && Fits(extra[k], MAX_NAME, false)
      decreases |todo|
    {
      var k :| k in todo;
      assert extra.Keys - (todo - {k}) == (extra.Keys - todo) + {k};
      r := CheckBytes(r, "school_extra", k, MAX_ID, true);
      r := CheckBytes(r, "school_extra", extra[k], MAX_NAME, false);
      todo := todo - {k};
    }
    assert extra.Keys - todo == extra.Keys;
  }

  method Validate(reg: Registry, c: Config) returns (problems: Problems)
    ensures problems == [] <==> ValidDocument(reg, c)
  {
    hide Fits, ValidTuning, ValidAccounts, ValidHotspots, Resolved, ValidExtra;
    problems := Report([], c.schema == SCHEMA_VERSION, "schema_version");
    problems := CheckBytes(problems, "school", c.school, MAX_NAME, true);
    problems := CheckBytes(problems, "sta_iface", c.staIface, MAX_NAME, false);
    problems := CheckTuning(problems, c.tuning);
    problems := Report(problems, c.checkMode in {"internet", "portal", "ssid"}, "checks.mode");
    problems := Report(problems, c.logLevel in {"ALL", "DEBUG", "INFO", "WARN", "ERROR"}, "log.level");
    problems := CheckCampusAccounts(reg, problems, c);
    problems := CheckHotspots(problems, c);
    problems := CheckSelection(problems, c);
    problems := CheckExtra(problems, c.extra);
  }

  // ---------------------------------------------------------------------
  // New identifiers
  // ---------------------------------------------------------------------

  function NumberOf(id: string, prefix: string): int {
    if prefix <= id then
      var n := ParseInt(id[|prefix|..]);
      if n.None? then 0 else n.value
    else 0
  }

  function Highest(existing: seq<string>, prefix: string): nat {
    if existing == [] then 0
    else
      var front := Highest(existing[..|existing| - 1], prefix);
      var n := NumberOf(existing[|existing| - 1], prefix);
      if n > front then n else front
  }

  lemma {:induction false} HighestBounds(existing: seq<string>, prefix: string, id: string)
    requires id in existing
    ensures NumberOf(id, prefix) <= Highest(existing, prefix)
  {
    var n := |existing| - 1;
    if id != existing[n] {
      var i :| 0 <= i < n && existing[i] == id;
      assert existing[..n][i] == id;
      HighestBounds(existing[..n], prefix, id);
    }
  }

  /** One past the highest number in use is never taken, whatever identifiers users chose by hand. */
  lemma NextIsFree(existing: seq<string>, prefix: string)
    ensures prefix + Decimal(Highest(existing, prefix) + 1) !in existing
  {
    var h := Highest(existing, prefix);
    var id := prefix + Decimal(h + 1);
    if id in existing {
      HighestBounds(existing, prefix, id);
      assert id[|prefix|..] == Decimal(h + 1);
      ParseOfDecimal(h + 1);
      assert false;
    }
  }

  /** The pass over the existing identifiers: which are taken, and the highest number among them. */
  method Survey(existing: seq<string>, prefix: string) returns (highest: nat, taken: set<string>)
    ensures highest == Highest(existing, prefix)
    ensures forall id :: id in taken <==> id in existing
  {
    highest, taken := 0, {};
    for i := 0 to |existing|
      invariant forall id :: id in taken <==> id in existing[..i]
      invariant highest == Highest(existing[..i], prefix)
    {
      assert existing[..i + 1][..i] == existing[..i];
      assert existing[..i + 1] == existing[..i] + [existing[i]];
      taken := taken + {existing[i]};
      if prefix <= existing[i] {
        var number := ParseInt(existing[i][|prefix|..]);
        if number.Some? && number.value > highest {
          highest := number.value;
        }
      }
    }
    assert existing[..|existing|] == existing;
  }

  method NextID(existing: seq<string>, prefix: string) returns (id: string)
    ensures id !in existing
    ensures id == prefix + Decimal(Highest(existing, prefix) + 1)
  {
    hide Highest, NumberOf, Ahead, Decimal;
    var highest, taken := Survey(existing, prefix);
    var candidate := highest + 1;
    id := prefix + Decimal(candidate);
    while id in taken
      invariant candidate > highest && id == prefix + Decimal(candidate)
      invariant candidate > highest + 1 ==> prefix + Decimal(highest + 1) in taken
      decreases |Ahead(taken, prefix, candidate)|
    {
      FewerAhead(taken, prefix, candidate);
      candidate := candidate + 1;
      id := prefix + Decimal(candidate);
    }
    NextIsFree(existing, prefix);
  }

  /** The identifiers the search may still run into. */
  function Ahead(taken: set<string>, prefix: string, candidate: nat): set<string> {
    set x <- taken | NumberOf(x, prefix) >= candidate
  }

  lemma FewerAhead(taken: set<string>, prefix: string, candidate: nat)
    requires prefix + Decimal(candidate) in taken
    ensures |Ahead(taken, prefix, candidate + 1)| < |Ahead(taken, prefix, candidate)|
  {
    var id := prefix + Decimal(candidate);
    ParseOfDecimal(candidate);
    assert id[|prefix|..] == Decimal(candidate);
    var a, b := Ahead(taken, prefix, candidate), Ahead(taken, prefix, candidate + 1);
    assert id in a && id !in b && b <= a - {id};
    Subset(b, a - {id});
  }

  lemma {:induction false} Subset(a: set<string>, b: set<string>)
    requires a <= b
    ensures |a| <= |b|
  {
    if a != {} {
      var x :| x in a;
      Subset(a - {x}, b - {x});
    }
  }
}
