/**
 Reading the gateway: whose session is on the line. Models core/internal/auth/result.go.
 */
module GatewayIdentity {
  import opened Wrappers
  import opened Text

  /** A decoded gateway reply; `result` is the res field without its quotes. */
  datatype Answer = Answer(
    error: string,
    message: string,
    result: string,
    userName: string,
    domain: string,
    clientIP: string,
    onlineIP: string)

  datatype Identity = Identity(
    present: bool,
    username: string,
    session: string,
    clientIP: string,
    matches: bool)
  {
    predicate Nobody() { !present }
    predicate Self() { present && matches }
    predicate Other() { present && !matches }
  }

  const NOBODY := Identity(false, "", "", "", false)

  function CodeOf(a: Answer): string {
    var trimmed := TrimSpace(a.error);
    if trimmed != "" then trimmed else a.result
  }

  function NameOf(a: Answer): string {
    var name, realm := TrimSpace(a.userName), TrimSpace(a.domain);
    if name == "" || realm == "" || '@' in name then name else name + "@" + realm
  }

  function BareAccount(value: string): string {
    var at := FirstOf(value, '@');
    if 0 < at < |value| then value[..at] else value
  }

  function RealmOf(value: string): string {
    var at := FirstOf(value, '@');
    if 0 < at < |value| then value[at + 1..] else ""
  }

  predicate EqualFold(a: string, b: string) { Lower(a) == Lower(b) }

  predicate SameAccount(reported: string, expected: string) {
    var r, e := TrimSpace(reported), TrimSpace(expected);
    if r == "" || e == "" then false
    else if r == e then true
    else if BareAccount(r) != BareAccount(e) then false
    else if RealmOf(r) == "" || RealmOf(e) == "" then true
    else EqualFold(RealmOf(r), RealmOf(e))
  }

  predicate IsOK(code: string) { EqualFold(TrimSpace(code), "ok") }

  const OFFLINE_MARKERS: seq<string> := ["not_online_error", "not_online", "\U{672A}\U{5728}\U{7EBF}", "\U{4E0D}\U{5728}\U{7EBF}"]

  predicate ConfirmedOffline(code: string, message: string) {
    var haystack := Lower(TrimSpace(code) + " " + TrimSpace(message));
    exists m <- OFFLINE_MARKERS :: Contains(haystack, m)
  }

  function FirstNonEmpty(a: string, b: string): string {
    if TrimSpace(a) != "" then TrimSpace(a) else TrimSpace(b)
  }

  /** None is the query failing: no identity was established. */
  function ReadIdentity(payload: Option<Answer>, expected: string): (r: Option<Identity>)
    ensures r.Some? ==> payload.Some?
  {
    if payload.None? then None
    else
      var a := payload.value;
      if ConfirmedOffline(CodeOf(a), a.message) then Some(NOBODY)
      else if NameOf(a) != "" then
        Some(Identity(true, NameOf(a), TrimSpace(a.userName), FirstNonEmpty(a.clientIP, a.onlineIP), SameAccount(NameOf(a), expected)))
      else if IsOK(CodeOf(a)) || CodeOf(a) == "" then Some(NOBODY)
      else None
  }

  // ---------------------------------------------------------------------
  // What the comparison means
  // ---------------------------------------------------------------------

  /** Two names do not contradict each other about the realm. */
  predicate RealmsAgree(a: string, b: string) {
    RealmOf(a) == "" || RealmOf(b) == "" || EqualFold(RealmOf(a), RealmOf(b))
  }

  /** Same account exactly when both name one, the bare accounts are equal, and no two stated realms differ. */
  lemma SameAccountMeans(a: string, b: string)
    ensures var r, e := TrimSpace(a), TrimSpace(b);
            SameAccount(a, b) <==> r != "" && e != "" && BareAccount(r) == BareAccount(e) && RealmsAgree(r, e)
    ensures SameAccount(a, b) <==> SameAccount(b, a)
  {
  }

  /** The relation is not transitive, and this is exactly where it breaks: two realms that differ, joined by a silent name. */
  lemma SameAccountBreaksOnlyAcrossRealms(a: string, b: string, c: string)
    requires SameAccount(a, b) && SameAccount(b, c)
    ensures SameAccount(a, c) <==> RealmsAgree(TrimSpace(a), TrimSpace(c))
    ensures !SameAccount(a, c) ==> RealmOf(TrimSpace(b)) == ""
  {
    SameAccountMeans(a, b);
    SameAccountMeans(b, c);
    SameAccountMeans(a, c);
  }

  lemma SplitsAt(name: string, realm: string)
    requires name != "" && '@' !in name
    ensures BareAccount(name + "@" + realm) == name && RealmOf(name + "@" + realm) == realm
    ensures BareAccount(name) == name && RealmOf(name) == ""
  {
    var s := name + "@" + realm;
    assert s[|name|] == '@';
    assert forall k | 0 <= k < |name| :: s[k] == name[k];
    assert FirstOf(s, '@') == |name|;
    assert FirstOf(name, '@') == |name|;
  }

  /** For any account: the bare name matches it on either carrier, which do not match each other. */
  lemma SilentNameJoinsCarriers(account: string, one: string, two: string)
    requires account != "" && '@' !in account && Trimmed(account)
    requires one != "" && two != "" && Trimmed(account + "@" + one) && Trimmed(account + "@" + two) && !EqualFold(one, two)
    ensures SameAccount(account + "@" + one, account) && SameAccount(account, account + "@" + two)
    ensures !SameAccount(account + "@" + one, account + "@" + two)
  {
    SplitsAt(account, one);
    SplitsAt(account, two);
    SameAccountMeans(account + "@" + one, account);
    SameAccountMeans(account, account + "@" + two);
    SameAccountMeans(account + "@" + one, account + "@" + two);
    hide BareAccount, RealmOf, SameAccount;
  }

  /** A realm reported in its own field decides like one written into the name. */
  lemma SeparateRealmDecides(a: Answer, account: string, realm: string)
    requires account != "" && realm != "" && '@' !in account
    requires TrimSpace(a.userName) == account && TrimSpace(a.domain) != ""
    requires Trimmed(account + "@" + realm) && Trimmed(NameOf(a))
    ensures SameAccount(NameOf(a), account + "@" + realm) <==> EqualFold(TrimSpace(a.domain), realm)
  {
    var named, expected := account + "@" + TrimSpace(a.domain), account + "@" + realm;
    SplitsAt(account, TrimSpace(a.domain));
    SplitsAt(account, realm);
    assert NameOf(a) == named;
    SameAccountMeans(named, expected);
  }

  /** Nobody is reported only on a positive answer; any other unnamed reply is a failed query. */
  lemma NobodyIsEvidence(payload: Option<Answer>, expected: string)
    ensures var r := ReadIdentity(payload, expected);
            && (r == Some(NOBODY) <==>
                  payload.Some?
                  && (ConfirmedOffline(CodeOf(payload.value), payload.value.message)
                      || (NameOf(payload.value) == "" && (CodeOf(payload.value) == "" || IsOK(CodeOf(payload.value))))))
            && (r.Some? && r.value.Self() ==> SameAccount(r.value.username, expected))
            && (r.Some? && r.value.Other() ==> !SameAccount(r.value.username, expected))
            && (r.Some? ==> (r.value.Nobody() <==> r == Some(NOBODY)))
            && (r.Some? && r.value.present ==>
                  && r.value.username == NameOf(payload.value) && r.value.session == TrimSpace(payload.value.userName) && r.value.session != ""
                  && r.value.clientIP == (if TrimSpace(payload.value.clientIP) != "" then TrimSpace(payload.value.clientIP) else TrimSpace(payload.value.onlineIP)))
  {
  }
}
