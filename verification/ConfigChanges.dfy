/**
 The account changes, followed through the transaction that carries them. Models
 core/internal/config/mutations.go.
 */
module ConfigChanges {
  import opened Wrappers
  import opened Text
  import opened ConfigRules
  import opened ConfigValidate
  import opened ConfigRepository

  /** The position of an account, or -1. */
  function IndexOf(campus: seq<Campus>, id: string): (i: int)
    ensures -1 <= i < |campus|
    ensures i >= 0 ==> id != "" && campus[i].id == id && forall k | 0 <= k < i :: campus[k].id != id
    ensures i < 0 ==> id == "" || forall a <- campus :: a.id != id
  {
    if id == "" then -1 else Search(campus, id, 0)
  }

  function Search(campus: seq<Campus>, id: string, from: nat): (i: int)
    requires from <= |campus| && forall k | 0 <= k < from :: campus[k].id != id
    ensures -1 <= i < |campus|
    ensures i >= 0 ==> campus[i].id == id && forall k | 0 <= k < i :: campus[k].id != id
    ensures i < 0 ==> forall a <- campus :: a.id != id
    decreases |campus| - from
  {
    if from == |campus| then -1 else if campus[from].id == id then from else Search(campus, id, from + 1)
  }

  function IDList(campus: seq<Campus>): (r: seq<string>)
    ensures |r| == |campus| && forall i | 0 <= i < |r| :: r[i] == campus[i].id
  {
    seq(|campus|, i requires 0 <= i < |campus| => campus[i].id)
  }

  const BLANK := Campus("", "", "", "", "", "", "wired", "", false, "", "", "", "", "", "", "", "", LoginShape("", "", "", "", "", "", "", None), "")

  datatype LoginPatch = LoginPatch(
    n: Option<string>,
    kind: Option<string>,
    enc: Option<string>,
    prefix: Option<string>,
    os: Option<string>,
    name: Option<string>,
    alphabet: Option<string>,
    doubleStack: Option<Option<bool>>)

  /** A partial account: an absent field keeps what is stored, a present one replaces it, also with nothing. */
  datatype CampusPatch = CampusPatch(
    id: string,
    caption: Option<string>,
    userID: Option<string>,
    password: Option<string>,
    operator: Option<string>,
    suffix: Option<string>,
    mode: Option<string>,
    wiredIface: Option<string>,
    authEnabled: Option<bool>,
    baseURL: Option<string>,
    acid: Option<string>,
    ssid: Option<string>,
    radio: Option<string>,
    encryption: Option<string>,
    key: Option<string>,
    apSelection: Option<string>,
    bssid: Option<string>,
    login: Option<LoginPatch>,
    presetID: Option<string>)

  function Assign<T>(stored: T, sent: Option<T>): T {
    if sent.Some? then sent.value else stored
  }

  function ApplyLogin(p: LoginPatch, l: LoginShape): LoginShape {
    LoginShape(Assign(l.n, p.n), Assign(l.kind, p.kind), Assign(l.enc, p.enc), Assign(l.prefix, p.prefix),
               Assign(l.os, p.os), Assign(l.name, p.name), Assign(l.alphabet, p.alphabet), Assign(l.doubleStack, p.doubleStack))
  }

  function ApplyPatch(p: CampusPatch, a: Campus): Campus {
    Campus(a.id, Assign(a.caption, p.caption), Assign(a.userID, p.userID), Assign(a.password, p.password),
           Assign(a.operator, p.operator), Assign(a.suffix, p.suffix), Assign(a.mode, p.mode),
           Assign(a.wiredIface, p.wiredIface), Assign(a.authEnabled, p.authEnabled), Assign(a.baseURL, p.baseURL),
           Assign(a.acid, p.acid), Assign(a.ssid, p.ssid), Assign(a.radio, p.radio), Assign(a.encryption, p.encryption),
           Assign(a.key, p.key), Assign(a.apSelection, p.apSelection), Assign(a.bssid, p.bssid),
           if p.login.Some? then ApplyLogin(p.login.value, a.login) else a.login, Assign(a.presetID, p.presetID))
  }

  function UpsertCampus(c: Config, p: CampusPatch): Option<Config> {
    var index := IndexOf(c.campus, p.id);
    if p.id != "" && index < 0 then None
    else if index >= 0 then Some(c.(campus := c.campus[index := ApplyPatch(p, c.campus[index])]))
    else if |c.campus| >= MAX_CAMPUS then None
    else
      var newID := "c" + Decimal(Highest(IDList(c.campus), "c") + 1);
      var account := ApplyPatch(p, BLANK.(id := newID));
      Some(c.(campus := c.campus + [account],
           selection := if c.campus == [] then c.selection.(activeCampus := newID, defaultCampus := newID) else c.selection))
  }

  function RemoveCampus(c: Config, id: string): Option<Config> {
    var index := IndexOf(c.campus, id);
    if index < 0 then None else Some(c.(campus := c.campus[..index] + c.campus[index + 1..]))
  }

  /**
   A new account gets an identifier nobody has and the other accounts stay as they
   were; it is refused exactly when the list is full. The first account becomes active
   and default.
   */
  lemma CreateIsFresh(c: Config, p: CampusPatch)
    requires p.id == "" && DistinctCampus(c.campus)
    ensures var r := UpsertCampus(c, p);
            && (r.Some? <==> |c.campus| < MAX_CAMPUS)
            && (r.Some? ==>
                  && DistinctCampus(r.value.campus) && |r.value.campus| == |c.campus| + 1
                  && r.value.campus[..|c.campus|] == c.campus
                  && r.value.campus[|c.campus|].id !in IDList(c.campus)
                  && (c.campus == [] ==> r.value.selection.activeCampus == r.value.campus[0].id == r.value.selection.defaultCampus)
                  && (c.campus != [] ==> r.value.selection == c.selection))
  {
    hide ApplyLogin;
    if |c.campus| < MAX_CAMPUS {
      NextIsFree(IDList(c.campus), "c");
      var d := UpsertCampus(c, p).value;
      forall i | 0 <= i < |c.campus|
        ensures d.campus[i].id != d.campus[|c.campus|].id
      {
        assert IDList(c.campus)[i] == c.campus[i].id;
      }
    }
  }

  /**
   Editing touches one account and keeps its identifier, and every field the patch does
   not carry, a password or a key among them; an unknown identifier is refused.
   */
  lemma EditTouchesOne(c: Config, p: CampusPatch)
    requires p.id != "" && DistinctCampus(c.campus)
    ensures var r := UpsertCampus(c, p);
            && (r.Some? <==> p.id in IDList(c.campus))
            && (r.Some? ==>
                  && DistinctCampus(r.value.campus) && r.value.selection == c.selection && IDList(r.value.campus) == IDList(c.campus)
                  && forall i | 0 <= i < |c.campus| ::
                       var a, b := c.campus[i], r.value.campus[i];
                       if a.id != p.id then b == a
                       else
                         && b.password == (if p.password.Some? then p.password.value else a.password)
                         && b.key == (if p.key.Some? then p.key.value else a.key)
                         && (p.login.None? ==> b.login == a.login)
                         && (p == CampusPatch(p.id, None, None, None, None, None, None, None, None, None, None, None, None, None, None, None, None, None, None) ==> b == a))
  {
    hide ApplyLogin;
    var index := IndexOf(c.campus, p.id);
    if index >= 0 {
      assert IDList(c.campus)[index] == p.id;
      assert IDList(UpsertCampus(c, p).value.campus) == IDList(c.campus);
    }
  }

  lemma RemovedAt(campus: seq<Campus>, index: nat)
    requires index < |campus| && DistinctCampus(campus)
    ensures var rest := campus[..index] + campus[index + 1..];
            && DistinctCampus(rest)
            && (forall a :: a in rest ==> a in campus && a.id != campus[index].id)
            && (forall a :: a in campus && a.id != campus[index].id ==> a in rest)
  {
    var rest := campus[..index] + campus[index + 1..];
    assert forall i | 0 <= i < |rest| :: rest[i] == if i < index then campus[i] else campus[i + 1];
    forall a | a in campus && a.id != campus[index].id
      ensures a in rest
    {
      var i :| 0 <= i < |campus| && campus[i] == a;
      assert rest[if i < index then i else i - 1] == a;
    }
  }

  lemma IDsAreMembers(c: Config)
    ensures forall x :: x in CampusIDs(c) <==> exists a :: a in c.campus && a.id == x
  {
    forall x
      ensures x in CampusIDs(c) <==> exists a :: a in c.campus && a.id == x
    {
      if x in CampusIDs(c) {
        var i :| 0 <= i < |c.campus| && c.campus[i].id == x;
        assert c.campus[i] in c.campus;
      }
    }
  }

  /** Removal takes exactly that account, in any document whose identifiers are distinct. */
  lemma RemoveTakesOne(c: Config, id: string)
    requires DistinctCampus(c.campus) && id in CampusIDs(c) && id != ""
    ensures var r := RemoveCampus(c, id);
            r.Some? && DistinctCampus(r.value.campus) && CampusIDs(r.value) == CampusIDs(c) - {id}
  {
    IDsAreMembers(c);
    var index := IndexOf(c.campus, id);
    RemovedAt(c.campus, index);
    IDsAreMembers(RemoveCampus(c, id).value);
    hide CampusIDs, DistinctCampus;
  }

  /**
   Through the whole transaction, from any loaded or saved document: the chosen account
   stays unless it is the one removed or there was none; then the nominated default
   takes over if it survives, and the first remaining account otherwise.
   */
  lemma RemovalLandsOnDefault(reg: Registry, c: Config, id: string)
    requires ValidDocument(reg, c) && Normal(reg, c) && id in CampusIDs(c)
    ensures var s := c.selection;
            var removed := RemoveCampus(c, id);
            && removed.Some?
            && var t := Candidate(reg, c, removed.value);
               && t.selection.activeCampus == (if s.activeCampus != "" && s.activeCampus != id then s.activeCampus
                                               else if s.defaultCampus != "" && s.defaultCampus != id then s.defaultCampus
                                               else FirstCampus(t))
               && t.selection.defaultCampus == (if s.defaultCampus != "" && s.defaultCampus != id then s.defaultCampus else t.selection.activeCampus)
               && CampusIDs(t) == CampusIDs(c) - {id}
  {
    hide ValidDocument, Normalize, RepairSelection, CampusIDs, HotspotIDs, DistinctCampus, RemoveCampus, Normal;
    AccountsOf(reg, c);
    NamedAccount(c, id);
    RemoveTakesOne(c, id);
    var d := RemoveCampus(c, id).value;
    RemovalIsNormal(reg, c, id);
    RemovalKeepsRest(c, id);
    CandidateOfNormal(reg, c, d);
    SameCampusSameIDs(d, Candidate(reg, c, d));
    RepairMeans(d);
  }

  lemma SameCampusSameIDs(c: Config, d: Config)
    requires c.campus == d.campus
    ensures CampusIDs(c) == CampusIDs(d)
  {
  }

  lemma NamedAccount(c: Config, id: string)
    requires id in CampusIDs(c) && forall a <- c.campus :: a.id != ""
    ensures id != ""
  {
  }

  lemma RemovalKeepsRest(c: Config, id: string)
    requires RemoveCampus(c, id).Some?
    ensures var d := RemoveCampus(c, id).value; d.schema == c.schema && d.selection == c.selection
  {
  }

  lemma CandidateOfNormal(reg: Registry, c: Config, d: Config)
    requires Normal(reg, d) && d.schema == SCHEMA_VERSION
    ensures Candidate(reg, c, d) == RepairSelection(d).(revision := c.revision + 1)
    ensures Candidate(reg, c, d).selection == RepairSelection(d).selection && Candidate(reg, c, d).campus == d.campus
  {
    hide Normalize, RepairSelection;
    assert d.(schema := SCHEMA_VERSION) == d;
    RepairKeepsRest(d);
  }

  lemma AccountsOf(reg: Registry, c: Config)
    requires ValidDocument(reg, c)
    ensures DistinctCampus(c.campus) && Resolved(c) && c.schema == SCHEMA_VERSION
    ensures forall a <- c.campus :: a.id != ""
  {
    forall a | a in c.campus
      ensures a.id != ""
    {
      ValidHasID(reg, a);
    }
    hide ValidCampus, ValidTuning;
  }

  lemma RemovalIsNormal(reg: Registry, c: Config, id: string)
    requires Normal(reg, c) && RemoveCampus(c, id).Some?
    ensures Normal(reg, RemoveCampus(c, id).value)
  {
    hide NormalizeCampus, NormalizeHotspot, NormalizeSchool, Folded, FilterExtra, TrimSpace, NormalizeSelection, Normal;
    var index, d := IndexOf(c.campus, id), RemoveCampus(c, id).value;
    NormalByFields(reg, c);
    NormalByFields(reg, d);
    assert forall i | 0 <= i < |d.campus| :: d.campus[i] == if i < index then c.campus[i] else c.campus[i + 1];
  }

  /** Field by field: absent keeps what is stored, present replaces it, and nothing crosses over. */
  lemma PatchIs(p: CampusPatch, a: Campus)
    ensures var b := ApplyPatch(p, a);
            && b.id == a.id
            && b.caption == (if p.caption.None? then a.caption else p.caption.value)
            && b.userID == (if p.userID.None? then a.userID else p.userID.value)
            && b.password == (if p.password.None? then a.password else p.password.value)
            && b.operator == (if p.operator.None? then a.operator else p.operator.value)
            && b.suffix == (if p.suffix.None? then a.suffix else p.suffix.value)
            && b.mode == (if p.mode.None? then a.mode else p.mode.value)
            && b.wiredIface == (if p.wiredIface.None? then a.wiredIface else p.wiredIface.value)
            && b.authEnabled == (if p.authEnabled.None? then a.authEnabled else p.authEnabled.value)
            && b.baseURL == (if p.baseURL.None? then a.baseURL else p.baseURL.value)
            && b.acid == (if p.acid.None? then a.acid else p.acid.value)
            && b.ssid == (if p.ssid.None? then a.ssid else p.ssid.value)
            && b.radio == (if p.radio.None? then a.radio else p.radio.value)
            && b.encryption == (if p.encryption.None? then a.encryption else p.encryption.value)
            && b.key == (if p.key.None? then a.key else p.key.value)
            && b.apSelection == (if p.apSelection.None? then a.apSelection else p.apSelection.value)
            && b.bssid == (if p.bssid.None? then a.bssid else p.bssid.value)
            && b.presetID == (if p.presetID.None? then a.presetID else p.presetID.value)
            && (p.login.None? ==> b.login == a.login)
            && (p.login.Some? ==>
                  var l, x, y := p.login.value, a.login, b.login;
                  && y.n == (if l.n.None? then x.n else l.n.value) && y.kind == (if l.kind.None? then x.kind else l.kind.value)
                  && y.enc == (if l.enc.None? then x.enc else l.enc.value) && y.prefix == (if l.prefix.None? then x.prefix else l.prefix.value)
                  && y.os == (if l.os.None? then x.os else l.os.value) && y.name == (if l.name.None? then x.name else l.name.value)
                  && y.alphabet == (if l.alphabet.None? then x.alphabet else l.alphabet.value)
                  && y.doubleStack == (if l.doubleStack.None? then x.doubleStack else l.doubleStack.value))
  {
  }

  /** What an edit does to the account it names is its patch, and a new account is the patch over a blank wired one. */
  lemma UpsertAppliesThePatch(c: Config, p: CampusPatch)
    requires UpsertCampus(c, p).Some?
    ensures var d := UpsertCampus(c, p).value;
            if p.id != "" then exists i | 0 <= i < |c.campus| :: c.campus[i].id == p.id && d.campus == c.campus[i := ApplyPatch(p, c.campus[i])]
            else d.campus != [] && d.campus[|d.campus| - 1] == ApplyPatch(p, BLANK.(id := d.campus[|d.campus| - 1].id))
  {
    hide ApplyLogin;
    var index := IndexOf(c.campus, p.id);
    if p.id != "" {
      assert c.campus[index].id == p.id;
    }
  }
}
