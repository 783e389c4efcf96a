/**
 The configuration document: its canonical form, the repair of its pointers and its
 validation. Models core/internal/config/normalize.go, mutations.go, validate.go and
 validate_account.go.
 */
module ConfigRules {
  import opened Wrappers
  import opened Text

  datatype Selection = Selection(activeCampus: string, defaultCampus: string, activeHotspot: string, defaultHotspot: string)

  datatype LoginShape = LoginShape(n: string, kind: string, enc: string, prefix: string, os: string, name: string, alphabet: string, doubleStack: Option<bool>)

  datatype Campus = Campus(
    id: string,
    caption: string,
    userID: string,
    password: string,
    operator: string,
    suffix: string,
    mode: string,
    wiredIface: string,
    authEnabled: bool,
    baseURL: string,
    acid: string,
    ssid: string,
    radio: string,
    encryption: string,
    key: string,
    apSelection: string,
    bssid: string,
    login: LoginShape,
    presetID: string)
  {
    predicate Wired() { mode == "wired" }
  }

  datatype Hotspot = Hotspot(id: string, caption: string, ssid: string, encryption: string, key: string, radio: string)

  /** The numeric and protocol settings, checked and never changed. */
  datatype Tuning = Tuning(
    n: string,
    kind: string,
    enc: string,
    maxRetries: int,
    initialSeconds: int,
    maxSeconds: int,
    interval: int,
    switchTimeout: int,
    terminalAttempts: int,
    terminalInterval: int)

  datatype Config = Config(
    schema: int,
    revision: nat,
    enabled: bool,
    multiWAN: bool,
    school: string,
    staIface: string,
    logLevel: string,
    checkMode: string,
    selection: Selection,
    campus: seq<Campus>,
    hotspots: seq<Hotspot>,
    extra: map<string, string>,
    tuning: Tuning)

  /** What this build knows: the keys each strategy declares, and which alphabets parse. */
  datatype Registry = Registry(declared: string -> set<string>, alphabet: string -> bool)

  const SCHEMA_VERSION := 2
  const MAX_ID := 64
  const MAX_LABEL := 128
  const MAX_USER_ID := 256
  const MAX_SECRET := 1024
  const MAX_URL := 2048
  const MAX_SUFFIX := 256
  const MAX_NAME := 256
  const MAX_CAMPUS := 32
  const MAX_HOTSPOTS := 32
  const MAX_MANAGED := 8
  const MAX_EXTRA := 64

  // ---------------------------------------------------------------------
  // The canonical form
  // ---------------------------------------------------------------------

  function Folded(s: string): string { Lower(TrimSpace(s)) }

  function NormalizeEncryption(value: string): string {
    var folded := Folded(value);
    if folded in {"", "none", "open", "nopass"} then "none" else folded
  }

  predicate ValidPolicy(policy: string) { policy in {"auto", "strongest", "fixed"} }

  function NormalizePolicy(policy: string, bssid: string): string {
    if ValidPolicy(Folded(policy)) then Folded(policy) else if bssid != "" then "fixed" else "auto"
  }

  function NormalizeCampus(a: Campus): Campus {
    var b := a.(id := TrimSpace(a.id), caption := TrimSpace(a.caption), operator := TrimSpace(a.operator), baseURL := TrimSpace(a.baseURL),
             acid := TrimSpace(a.acid), presetID := TrimSpace(a.presetID), mode := Folded(a.mode));
    if b.Wired() then
      var iface := TrimSpace(b.wiredIface);
      b.(wiredIface := if iface == "" then "wan" else iface,
      ssid := "", radio := "", encryption := "", key := "", apSelection := "", bssid := "")
    else
      var bssid := Folded(b.bssid);
      b.(radio := TrimSpace(b.radio), encryption := NormalizeEncryption(b.encryption), bssid := bssid,
      apSelection := NormalizePolicy(b.apSelection, bssid), wiredIface := "", authEnabled := false)
  }

  function NormalizeHotspot(h: Hotspot): Hotspot {
    h.(id := TrimSpace(h.id), caption := TrimSpace(h.caption), radio := TrimSpace(h.radio), encryption := NormalizeEncryption(h.encryption))
  }

  function NormalizeSelection(s: Selection): Selection {
    Selection(TrimSpace(s.activeCampus), TrimSpace(s.defaultCampus), TrimSpace(s.activeHotspot), TrimSpace(s.defaultHotspot))
  }

  function FilterExtra(reg: Registry, school: string, extra: map<string, string>): map<string, string> {
    map k <- extra | k in reg.declared(school) :: extra[k]
  }

  function NormalizeSchool(school: string): string {
    if TrimSpace(school) == "" then "default" else TrimSpace(school)
  }

  function Normalize(reg: Registry, c: Config): Config {
    c.(school := NormalizeSchool(c.school),
    staIface := TrimSpace(c.staIface),
    logLevel := Upper(TrimSpace(c.logLevel)),
    checkMode := Folded(c.checkMode),
    selection := NormalizeSelection(c.selection),
    campus := seq(|c.campus|, i requires 0 <= i < |c.campus| => NormalizeCampus(c.campus[i])),
    hotspots := seq(|c.hotspots|, i requires 0 <= i < |c.hotspots| => NormalizeHotspot(c.hotspots[i])),
    extra := FilterExtra(reg, NormalizeSchool(c.school), c.extra))
  }

  predicate Normal(reg: Registry, c: Config) { Normalize(reg, c) == c }

  lemma FoldedIsStable(s: string)
    ensures Folded(Folded(s)) == Folded(s) && Trimmed(Folded(s)) && Lower(Folded(s)) == Folded(s)
  {
    LowerIsStable(TrimSpace(s));
  }

  lemma EncryptionIsStable(value: string)
    ensures NormalizeEncryption(NormalizeEncryption(value)) == NormalizeEncryption(value)
  {
    FoldedIsStable(value);
    assert Lower("none") == "none";
    assert Folded("none") == "none";
  }

  lemma PolicyIsStable(policy: string, bssid: string)
    ensures NormalizePolicy(NormalizePolicy(policy, bssid), bssid) == NormalizePolicy(policy, bssid)
  {
    FoldedIsStable(policy);
    assert Lower("fixed") == "fixed" && Lower("auto") == "auto";
    assert Folded("fixed") == "fixed" && Folded("auto") == "auto";
  }

  lemma CampusIsStable(a: Campus)
    ensures NormalizeCampus(NormalizeCampus(a)) == NormalizeCampus(a)
  {
    var b := NormalizeCampus(a);
    FoldedIsStable(a.mode);
    FoldedIsStable(a.bssid);
    EncryptionIsStable(a.encryption);
    PolicyIsStable(a.apSelection, Folded(a.bssid));
    hide Folded, NormalizeEncryption, NormalizePolicy;
  }

  lemma HotspotIsStable(h: Hotspot)
    ensures NormalizeHotspot(NormalizeHotspot(h)) == NormalizeHotspot(h)
  {
    EncryptionIsStable(h.encryption);
    hide NormalizeEncryption;
  }

  lemma SchoolIsStable(school: string)
    ensures NormalizeSchool(NormalizeSchool(school)) == NormalizeSchool(school)
  {
  }

  /** Normalisation changes no single field. */
  predicate FieldsFixed(reg: Registry, c: Config) {
    && NormalizeSchool(c.school) == c.school && TrimSpace(c.staIface) == c.staIface
    && Upper(TrimSpace(c.logLevel)) == c.logLevel && Folded(c.checkMode) == c.checkMode
    && NormalizeSelection(c.selection) == c.selection
    && (forall i | 0 <= i < |c.campus| :: NormalizeCampus(c.campus[i]) == c.campus[i])
    && (forall i | 0 <= i < |c.hotspots| :: NormalizeHotspot(c.hotspots[i]) == c.hotspots[i])
    && FilterExtra(reg, c.school, c.extra) == c.extra
  }

  lemma NormalByFields(reg: Registry, c: Config)
    ensures Normal(reg, c) <==> FieldsFixed(reg, c)
  {
    hide NormalizeCampus, NormalizeHotspot, NormalizeSchool, Folded, FilterExtra, NormalizeSelection, TrimSpace, Upper;
    var n := Normalize(reg, c);
    if FieldsFixed(reg, c) {
      assert n.campus == c.campus;
      assert n.hotspots == c.hotspots;
    }
    if Normal(reg, c) {
      assert forall i | 0 <= i < |c.campus| :: n.campus[i] == NormalizeCampus(c.campus[i]);
      assert forall i | 0 <= i < |c.hotspots| :: n.hotspots[i] == NormalizeHotspot(c.hotspots[i]);
    }
  }

  lemma ExtraIsStable(reg: Registry, school: string, extra: map<string, string>)
    ensures FilterExtra(reg, school, FilterExtra(reg, school, extra)) == FilterExtra(reg, school, extra)
  {
  }

  lemma SelectionIsStable(s: Selection)
    ensures NormalizeSelection(NormalizeSelection(s)) == NormalizeSelection(s)
  {
  }

  /** Normalising twice is normalising once. */
  lemma NormalizeIsIdempotent(reg: Registry, c: Config)
    ensures Normal(reg, Normalize(reg, c))
  {
    hide NormalizeCampus, NormalizeHotspot, NormalizeSchool, Folded, FilterExtra, NormalizeSelection;
    var d := Normalize(reg, c);
    SchoolIsStable(c.school);
    UpperIsStable(TrimSpace(c.logLevel));
    FoldedIsStable(c.checkMode);
    ExtraIsStable(reg, d.school, c.extra);
    SelectionIsStable(c.selection);
    forall i | 0 <= i < |c.campus|
      ensures NormalizeCampus(d.campus[i]) == d.campus[i]
    {
      CampusIsStable(c.campus[i]);
    }
    forall i | 0 <= i < |c.hotspots|
      ensures NormalizeHotspot(d.hotspots[i]) == d.hotspots[i]
    {
      HotspotIsStable(c.hotspots[i]);
    }
    NormalByFields(reg, d);
    hide Normal;
  }

  // ---------------------------------------------------------------------
  // What the canonical form is, without the functions that produce it
  // ---------------------------------------------------------------------

  predicate NoUpper(s: string) { forall i | 0 <= i < |s| :: !('A' <= s[i] <= 'Z') }

  predicate NoLower(s: string) { forall i | 0 <= i < |s| :: !('a' <= s[i] <= 'z') }

  /** Trimmed and in lower case. */
  predicate FoldedForm(s: string) { Trimmed(s) && NoUpper(s) }

  /** An open network has one spelling. */
  predicate EncryptionForm(s: string) { FoldedForm(s) && s !in {"", "open", "nopass"} }

  /** One access mode, and nothing stored for the other. */
  predicate CampusForm(a: Campus) {
    && Trimmed(a.id) && Trimmed(a.caption) && Trimmed(a.operator) && Trimmed(a.baseURL) && Trimmed(a.acid) && Trimmed(a.presetID)
    && FoldedForm(a.mode)
    && (if a.mode == "wired" then
          && a.wiredIface != "" && Trimmed(a.wiredIface)
          && a.ssid == "" && a.radio == "" && a.encryption == "" && a.key == "" && a.apSelection == "" && a.bssid == ""
        else
          && a.wiredIface == "" && !a.authEnabled
          && Trimmed(a.radio) && EncryptionForm(a.encryption) && FoldedForm(a.bssid) && ValidPolicy(a.apSelection))
  }

  predicate HotspotForm(h: Hotspot) {
    Trimmed(h.id) && Trimmed(h.caption) && Trimmed(h.radio) && EncryptionForm(h.encryption)
  }

  predicate Canonical(reg: Registry, c: Config) {
    && c.school != "" && Trimmed(c.school) && Trimmed(c.staIface)
    && Trimmed(c.logLevel) && NoLower(c.logLevel) && FoldedForm(c.checkMode)
    && Trimmed(c.selection.activeCampus) && Trimmed(c.selection.defaultCampus)
    && Trimmed(c.selection.activeHotspot) && Trimmed(c.selection.defaultHotspot)
    && (forall a <- c.campus :: CampusForm(a)) && (forall h <- c.hotspots :: HotspotForm(h))
    && c.extra.Keys <= reg.declared(c.school)
  }

  lemma FixedStrings(s: string)
    ensures TrimSpace(s) == s <==> Trimmed(s)
    ensures Folded(s) == s <==> FoldedForm(s)
    ensures Upper(TrimSpace(s)) == s <==> Trimmed(s) && NoLower(s)
  {
    LowerFixed(s);
    UpperFixed(s);
    LowerIsStable(TrimSpace(s));
    UpperIsStable(TrimSpace(s));
  }

  lemma LowerFixed(s: string)
    ensures Lower(s) == s <==> NoUpper(s)
  {
    if Lower(s) == s {
      forall i | 0 <= i < |s|
        ensures !('A' <= s[i] <= 'Z')
      {
        assert Lower(s)[i] == LowerChar(s[i]);
      }
    }
  }

  lemma UpperFixed(s: string)
    ensures Upper(s) == s <==> NoLower(s)
  {
    if Upper(s) == s {
      forall i | 0 <= i < |s|
        ensures !('a' <= s[i] <= 'z')
      {
        assert Upper(s)[i] == UpperChar(s[i]);
      }
    }
  }

  lemma FixedEncryption(s: string)
    ensures NormalizeEncryption(s) == s <==> EncryptionForm(s)
  {
    FixedStrings(s);
    FoldedIsStable(s);
    assert FoldedForm("none") && Folded("") == "";
    FixedStrings("none");
    hide Folded, FoldedForm;
  }

  lemma FixedPolicy(policy: string, bssid: string)
    ensures NormalizePolicy(policy, bssid) == policy <==> ValidPolicy(policy)
  {
    FixedStrings(policy);
    assert FoldedForm("auto") && FoldedForm("strongest") && FoldedForm("fixed");
    hide Folded, FoldedForm;
  }

  lemma FixedCommon(a: Campus)
    ensures && TrimSpace(a.id) == a.id && TrimSpace(a.caption) == a.caption && TrimSpace(a.operator) == a.operator
            && TrimSpace(a.baseURL) == a.baseURL && TrimSpace(a.acid) == a.acid && TrimSpace(a.presetID) == a.presetID
            <==>
            && Trimmed(a.id) && Trimmed(a.caption) && Trimmed(a.operator) && Trimmed(a.baseURL) && Trimmed(a.acid) && Trimmed(a.presetID)
  {
    hide Trimmed, TrimSpace, Folded, FoldedForm, NoLower;
    FixedStrings(a.id);
    FixedStrings(a.caption);
    FixedStrings(a.operator);
    FixedStrings(a.baseURL);
    FixedStrings(a.acid);
    FixedStrings(a.presetID);
  }

  lemma FixedWired(a: Campus)
    requires Folded(a.mode) == a.mode && FoldedForm(a.mode) && a.mode == "wired"
    ensures NormalizeCampus(a) == a <==> CampusForm(a)
  {
    assert Trimmed("wan") && TrimSpace("") == "";
    hide Folded, FoldedForm, Trimmed, TrimSpace, NoLower, EncryptionForm, ValidPolicy, NormalizeEncryption, NormalizePolicy;
    FixedCommon(a);
    FixedStrings(a.wiredIface);
    FixedStrings("wan");
  }

  lemma FixedWireless(a: Campus)
    requires Folded(a.mode) == a.mode && FoldedForm(a.mode) && a.mode != "wired"
    ensures NormalizeCampus(a) == a <==> CampusForm(a)
  {
    hide Folded, FoldedForm, Trimmed, TrimSpace, NoLower, EncryptionForm, ValidPolicy, NormalizeEncryption, NormalizePolicy;
    FixedCommon(a);
    FixedStrings(a.radio);
    FixedStrings(a.bssid);
    FixedEncryption(a.encryption);
    FixedPolicy(a.apSelection, a.bssid);
  }

  lemma FixedCampus(a: Campus)
    ensures NormalizeCampus(a) == a <==> CampusForm(a)
  {
    FixedStrings(a.mode);
    if Folded(a.mode) != a.mode {
      assert NormalizeCampus(a).mode == Folded(a.mode);
    } else if a.mode == "wired" {
      FixedWired(a);
    } else {
      FixedWireless(a);
    }
    hide NormalizeCampus, Folded, FoldedForm, EncryptionForm, ValidPolicy, Trimmed;
  }

  lemma FixedHotspot(h: Hotspot)
    ensures NormalizeHotspot(h) == h <==> HotspotForm(h)
  {
    FixedStrings(h.id);
    FixedStrings(h.caption);
    FixedStrings(h.radio);
    FixedEncryption(h.encryption);
    hide Folded, FoldedForm, Trimmed, TrimSpace, NormalizeEncryption, EncryptionForm;
  }

  lemma FixedExtra(reg: Registry, school: string, extra: map<string, string>)
    ensures FilterExtra(reg, school, extra) == extra <==> extra.Keys <= reg.declared(school)
  {
    if FilterExtra(reg, school, extra) == extra {
      forall k | k in extra.Keys
        ensures k in reg.declared(school)
      {
        assert k in FilterExtra(reg, school, extra);
      }
    }
  }

  lemma FixedScalars(c: Config)
    ensures && (NormalizeSchool(c.school) == c.school <==> c.school != "" && Trimmed(c.school))
            && (TrimSpace(c.staIface) == c.staIface <==> Trimmed(c.staIface))
            && (Upper(TrimSpace(c.logLevel)) == c.logLevel <==> Trimmed(c.logLevel) && NoLower(c.logLevel))
            && (Folded(c.checkMode) == c.checkMode <==> FoldedForm(c.checkMode))
            && (NormalizeSelection(c.selection) == c.selection <==>
                  && Trimmed(c.selection.activeCampus) && Trimmed(c.selection.defaultCampus)
                  && Trimmed(c.selection.activeHotspot) && Trimmed(c.selection.defaultHotspot))
  {
    FixedStrings(c.school);
    FixedStrings(c.staIface);
    FixedStrings(c.logLevel);
    FixedStrings(c.checkMode);
    FixedStrings(c.selection.activeCampus);
    FixedStrings(c.selection.defaultCampus);
    FixedStrings(c.selection.activeHotspot);
    FixedStrings(c.selection.defaultHotspot);
    assert Trimmed("default") && TrimSpace("") == "";
    FixedStrings("default");
    hide Folded, FoldedForm, Trimmed, TrimSpace, Upper, NoLower;
  }

  /** The fixed points of normalisation are exactly the canonical documents. */
  lemma NormalIsCanonical(reg: Registry, c: Config)
    ensures Normal(reg, c) <==> Canonical(reg, c)
  {
    NormalByFields(reg, c);
    FixedScalars(c);
    FixedExtra(reg, c.school, c.extra);
    forall i | 0 <= i < |c.campus|
      ensures NormalizeCampus(c.campus[i]) == c.campus[i] <==> CampusForm(c.campus[i])
    {
      FixedCampus(c.campus[i]);
    }
    forall i | 0 <= i < |c.hotspots|
      ensures NormalizeHotspot(c.hotspots[i]) == c.hotspots[i] <==> HotspotForm(c.hotspots[i])
    {
      FixedHotspot(c.hotspots[i]);
    }
    hide Normal, NormalizeCampus, NormalizeHotspot, CampusForm, HotspotForm, Folded, FoldedForm, Trimmed, TrimSpace, Upper, NoLower,
      NormalizeSchool, NormalizeSelection, FilterExtra;
  }

  /**
   Normalisation never touches a credential: user id, password, suffix and protocol
   overrides survive in every account, SSID and key in every wireless one; no account
   or hotspot is added, dropped or reordered.
   */
  lemma NormalizeKeepsCredentials(reg: Registry, c: Config, i: nat)
    ensures var d := Normalize(reg, c);
            && |d.campus| == |c.campus| && |d.hotspots| == |c.hotspots|
            && d.schema == c.schema && d.revision == c.revision && d.tuning == c.tuning
            && (i < |c.campus| ==>
                  var a, b := c.campus[i], d.campus[i];
                  && b.userID == a.userID && b.password == a.password && b.suffix == a.suffix && b.login == a.login
                  && (b.mode != "wired" ==> b.ssid == a.ssid && b.key == a.key)
                  && (b.mode == "wired" ==> b.authEnabled == a.authEnabled))
            && (i < |c.hotspots| ==> d.hotspots[i].ssid == c.hotspots[i].ssid && d.hotspots[i].key == c.hotspots[i].key)
  {
  }

  // ---------------------------------------------------------------------
  // Repairing the pointers
  // ---------------------------------------------------------------------

  function CampusIDs(c: Config): set<string> {
    set i | 0 <= i < |c.campus| :: c.campus[i].id
  }

  function HotspotIDs(c: Config): set<string> {
    set i | 0 <= i < |c.hotspots| :: c.hotspots[i].id
  }

  function RepairPointer(known: set<string>, candidates: seq<string>): (r: string)
    ensures r == "" || (r in candidates && r in known)
    ensures r == "" ==> forall x <- candidates :: x == "" || x !in known
  {
    if candidates == [] then ""
    else if candidates[0] != "" && candidates[0] in known then candidates[0]
    else RepairPointer(known, candidates[1..])
  }

  function RepairSelection(c: Config): Config {
    var s, campus, hotspots := c.selection, CampusIDs(c), HotspotIDs(c);
    var firstCampus := if c.campus != [] then c.campus[0].id else "";
    var firstHotspot := if c.hotspots != [] then c.hotspots[0].id else "";
    var active := RepairPointer(campus, [s.activeCampus, s.defaultCampus, firstCampus]);
    var hot := RepairPointer(hotspots, [s.activeHotspot, s.defaultHotspot, firstHotspot]);
    c.(selection := Selection(
         active, RepairPointer(campus, [s.defaultCampus, active]),
         hot, RepairPointer(hotspots, [s.defaultHotspot, hot])))
  }

  /** The loop of repairPointer. */
  method RepairPointerLoop(known: set<string>, candidates: seq<string>) returns (r: string)
    ensures r == RepairPointer(known, candidates)
  {
    for i := 0 to |candidates|
      invariant RepairPointer(known, candidates) == RepairPointer(known, candidates[i..])
    {
      if candidates[i] == "" {
        continue;
      }
      if candidates[i] in known {
        return candidates[i];
      }
    }
    return "";
  }

  predicate PointerResolves(id: string, known: set<string>) { id == "" || id in known }

  predicate Resolved(c: Config) {
    && PointerResolves(c.selection.activeCampus, CampusIDs(c)) && PointerResolves(c.selection.defaultCampus, CampusIDs(c))
    && PointerResolves(c.selection.activeHotspot, HotspotIDs(c)) && PointerResolves(c.selection.defaultHotspot, HotspotIDs(c))
  }

  lemma TwoCandidates(known: set<string>, a: string, b: string)
    ensures RepairPointer(known, [a, b]) == if a != "" && a in known then a else if b != "" && b in known then b else ""
  {
    assert [a, b][1..] == [b] && [b][1..] == [];
  }

  lemma ThreeCandidates(known: set<string>, a: string, b: string, c: string)
    ensures RepairPointer(known, [a, b, c]) == if a != "" && a in known then a else RepairPointer(known, [b, c])
  {
    assert [a, b, c][1..] == [b, c];
  }

  /** The pointer rule, the same for accounts and hotspots. */
  function RepairedActive(active: string, nominated: string, known: set<string>, first: string): string {
    if active != "" && active in known then active
    else if nominated != "" && nominated in known then nominated
    else first
  }

  lemma PointerPair(known: set<string>, active: string, nominated: string, first: string)
    requires first != "" ==> first in known
    ensures var r := RepairPointer(known, [active, nominated, first]);
            && r == RepairedActive(active, nominated, known, first)
            && RepairPointer(known, [nominated, r]) == (if nominated != "" && nominated in known then nominated else r)
            && PointerResolves(r, known)
  {
    ThreeCandidates(known, active, nominated, first);
    TwoCandidates(known, nominated, first);
    TwoCandidates(known, nominated, RepairPointer(known, [active, nominated, first]));
    hide RepairPointer;
  }

  function FirstCampus(c: Config): string { if c.campus != [] then c.campus[0].id else "" }

  function FirstHotspot(c: Config): string { if c.hotspots != [] then c.hotspots[0].id else "" }

  lemma FirstAreKnown(c: Config)
    ensures FirstCampus(c) != "" ==> FirstCampus(c) in CampusIDs(c)
    ensures FirstHotspot(c) != "" ==> FirstHotspot(c) in HotspotIDs(c)
  {
  }

  /**
   A pointer that named something is kept; otherwise the nominated default takes over,
   then the first entry; a dangling default follows the repaired active. All four
   pointers then resolve.
   */
  lemma RepairMeans(c: Config)
    ensures var s, r := c.selection, RepairSelection(c).selection;
            && r.activeCampus == RepairedActive(s.activeCampus, s.defaultCampus, CampusIDs(c), FirstCampus(c))
            && r.defaultCampus == (if s.defaultCampus != "" && s.defaultCampus in CampusIDs(c) then s.defaultCampus else r.activeCampus)
            && r.activeHotspot == RepairedActive(s.activeHotspot, s.defaultHotspot, HotspotIDs(c), FirstHotspot(c))
            && r.defaultHotspot == (if s.defaultHotspot != "" && s.defaultHotspot in HotspotIDs(c) then s.defaultHotspot else r.activeHotspot)
    ensures Resolved(RepairSelection(c))
  {
    var s, d := c.selection, RepairSelection(c);
    FirstAreKnown(c);
    PointerPair(CampusIDs(c), s.activeCampus, s.defaultCampus, FirstCampus(c));
    PointerPair(HotspotIDs(c), s.activeHotspot, s.defaultHotspot, FirstHotspot(c));
    assert CampusIDs(d) == CampusIDs(c) && HotspotIDs(d) == HotspotIDs(c);
    hide RepairPointer, CampusIDs, HotspotIDs, RepairedActive;
  }

  /** Repairing twice is repairing once. */
  lemma RepairIsIdempotent(c: Config)
    ensures RepairSelection(RepairSelection(c)) == RepairSelection(c)
  {
    var d := RepairSelection(c);
    assert CampusIDs(d) == CampusIDs(c) && HotspotIDs(d) == HotspotIDs(c);
    var s, known := c.selection, CampusIDs(c);
    var first := if c.campus != [] then c.campus[0].id else "";
    var firstHot := if c.hotspots != [] then c.hotspots[0].id else "";
    ThreeCandidates(known, s.activeCampus, s.defaultCampus, first);
    TwoCandidates(known, s.defaultCampus, first);
    TwoCandidates(known, s.defaultCampus, d.selection.activeCampus);
    ThreeCandidates(known, d.selection.activeCampus, d.selection.defaultCampus, first);
    TwoCandidates(known, d.selection.defaultCampus, first);
    TwoCandidates(known, d.selection.defaultCampus, d.selection.activeCampus);
    ThreeCandidates(HotspotIDs(c), s.activeHotspot, s.defaultHotspot, firstHot);
    TwoCandidates(HotspotIDs(c), s.defaultHotspot, firstHot);
    TwoCandidates(HotspotIDs(c), s.defaultHotspot, d.selection.activeHotspot);
    ThreeCandidates(HotspotIDs(c), d.selection.activeHotspot, d.selection.defaultHotspot, firstHot);
    TwoCandidates(HotspotIDs(c), d.selection.defaultHotspot, firstHot);
    TwoCandidates(HotspotIDs(c), d.selection.defaultHotspot, d.selection.activeHotspot);
    hide RepairPointer;
  }

  lemma FixedIDs(reg: Registry, c: Config)
    requires FieldsFixed(reg, c)
    ensures forall x <- CampusIDs(c) + HotspotIDs(c) :: Trimmed(x)
  {
    forall x | x in CampusIDs(c)
      ensures Trimmed(x)
    {
      var i :| 0 <= i < |c.campus| && c.campus[i].id == x;
      assert NormalizeCampus(c.campus[i]) == c.campus[i];
    }
    forall x | x in HotspotIDs(c)
      ensures Trimmed(x)
    {
      var i :| 0 <= i < |c.hotspots| && c.hotspots[i].id == x;
      assert NormalizeHotspot(c.hotspots[i]) == c.hotspots[i];
    }
  }

  lemma RepairKeepsRest(c: Config)
    ensures RepairSelection(c) == c.(selection := RepairSelection(c).selection)
    ensures var s, known, hot := RepairSelection(c).selection, CampusIDs(c), HotspotIDs(c);
            && PointerResolves(s.activeCampus, known) && PointerResolves(s.defaultCampus, known)
            && PointerResolves(s.activeHotspot, hot) && PointerResolves(s.defaultHotspot, hot)
  {
  }

  /** Repair only ever copies identifiers that are already canonical. */
  lemma RepairKeepsNormal(reg: Registry, c: Config)
    requires Normal(reg, c)
    ensures Normal(reg, RepairSelection(c))
  {
    NormalByFields(reg, c);
    FixedIDs(reg, c);
    RepairKeepsRest(c);
    NormalByFields(reg, RepairSelection(c));
    hide NormalizeCampus, NormalizeHotspot, NormalizeSchool, Folded, FilterExtra, RepairSelection, Normal, CampusIDs, HotspotIDs;
  }
}
