/**
 The maintenance loop, the coordinator that finishes its actions and the mailbox
 between them, interleaved. The loop owns at most one action per kind and account
 and waits for its result; this module proves that no result it waits for is lost.
 Models core/internal/application/maintain.go with maintenance_results.go.
 */
module Maintenance {
  import opened Wrappers
  import Actions
  import opened Mailbox

  /** Where the maintenance goroutine stands. */
  datatype Position =
    | Waiting
    | Taking
    | Applying(batch: seq<Report>)
    | Ticking
    | Submitted(slot: Slot, ordinal: nat)

  datatype State = State(
    cfg: Settings,
    box: Box,
    token: bool,
    sending: bool,
    reports: map<nat, Report>,
    next: nat,
    published: set<nat>,
    position: Position,
    revision: nat,
    owned: map<Slot, nat>)

  function Initial(cfg: Settings): State {
    State(cfg, Box(map[], 0), false, false, map[], 0, {}, Waiting, cfg.revision, map[])
  }

  function SlotOf(r: Report): Slot { Slot(r.kind, r.account) }

  datatype Event =
    | ConfigEvent(accounts: set<string>)
    | EndEvent(ordinal: nat, state: Actions.State)
    | ObserveEvent(ordinal: nat)
    | ObserveOther(report: Report)
    | SendEvent
    | ReceiveEvent
    | TakeEvent(items: seq<Item>)
    | ApplyEvent
    | TickEvent
    | SubmitEvent(slot: Slot)
    | SubmitLost(slot: Slot)
    | RecordEvent
    | DisownEvent(slot: Slot)
    | RestEvent

  ghost predicate Enabled(s: State, e: Event) {
    match e
    case ConfigEvent(_) => !s.sending
    case EndEvent(o, state) => !s.sending && o in s.reports && !s.reports[o].state.Terminal() && state.Terminal()
    case ObserveEvent(o) => !s.sending && o in s.reports && s.reports[o].state.Terminal()
    case ObserveOther(r) => !s.sending && !Automatic(r.kind)
    case SendEvent => s.sending
    case ReceiveEvent => s.position.Waiting? && s.token
    case TakeEvent(items) => s.position.Taking? && Sorted(items) && Lists(s.box.results, items)
    case ApplyEvent => s.position.Applying? && s.position.batch != []
    case TickEvent => s.position.Waiting? || s.position == Applying([])
    case SubmitEvent(slot) => MayOwn(s, slot)
    case SubmitLost(slot) => MayOwn(s, slot)
    case RecordEvent => s.position.Submitted?
    case DisownEvent(slot) => slot in s.owned && (s.position.Ticking? || s.position.Applying?)
    case RestEvent => s.position.Ticking?
  }

  /** The loop has nothing in flight for the slot, and the coordinator admits its revision. */
  predicate MayOwn(s: State, slot: Slot) {
    && s.position.Ticking? && !s.sending && slot !in s.owned && Automatic(slot.kind)
    && s.revision == s.cfg.revision && slot.account in s.cfg.accounts
  }

  function Admit(s: State, slot: Slot): State {
    s.(reports := s.reports[s.next := Report(s.next, slot.kind, slot.account, true, s.revision, Actions.Queued)],
    next := s.next + 1)
  }

  function Observe(s: State, r: Report): State {
    s.(box := Deposit(s.box, r, s.cfg), sending := s.sending || !Ignored(r, s.cfg))
  }

  /** apply: an action the loop owns, of the current revision, frees its slot. */
  function Apply(s: State): State
    requires s.position.Applying? && s.position.batch != []
  {
    var r := s.position.batch[0];
    var t := s.(position := Applying(s.position.batch[1..]));
    if r.checkRevision && r.revision != s.cfg.revision then t
    else if SlotOf(r) in s.owned && s.owned[SlotOf(r)] == r.ordinal then t.(owned := s.owned - {SlotOf(r)})
    else t
  }

  function Tick(s: State): State {
    if s.cfg.revision != s.revision then s.(owned := map[], revision := s.cfg.revision, position := Ticking)
    else s.(position := Ticking)
  }

  ghost function Step(s: State, e: Event): State
    requires Enabled(s, e)
  {
    match e
    case ConfigEvent(accounts) => s.(cfg := Settings(s.cfg.revision + 1, accounts))
    case EndEvent(o, state) => s.(reports := s.reports[o := s.reports[o].(state := state)])
    case ObserveEvent(o) => Observe(s, s.reports[o]).(published := s.published + {o})
    case ObserveOther(r) => Observe(s, r)
    case SendEvent => s.(sending := false, token := true)
    case ReceiveEvent => s.(token := false, position := Taking)
    case TakeEvent(items) =>
      s.(box := s.box.(results := map[]), position := Applying(seq(|items|, i requires 0 <= i < |items| => items[i].report)))
    case ApplyEvent => Apply(s)
    case TickEvent => Tick(s)
    case SubmitEvent(slot) => Admit(s, slot).(position := Submitted(slot, s.next))
    case SubmitLost(slot) => Admit(s, slot)
    case RecordEvent => s.(owned := s.owned[s.position.slot := s.position.ordinal], position := Ticking)
    case DisownEvent(slot) => s.(owned := s.owned - {slot})
    case RestEvent => s.(position := Waiting)
  }

  // ---------------------------------------------------------------------
  // The invariant
  // ---------------------------------------------------------------------

  predicate Recorded(s: State) {
    && (forall o <- s.reports ::
          && s.reports[o].ordinal == o && o < s.next && Automatic(s.reports[o].kind)
          && s.reports[o].checkRevision && s.reports[o].revision <= s.revision)
    && (forall o <- s.published :: o in s.reports && s.reports[o].state.Terminal())
    && s.revision <= s.cfg.revision
  }

  /** The slot is waiting for exactly this action, the newest of its slot. */
  predicate Awaits(s: State, slot: Slot, o: nat) {
    && o in s.reports && SlotOf(s.reports[o]) == slot && s.reports[o].revision == s.revision
    && (s.revision == s.cfg.revision ==> slot.account in s.cfg.accounts)
    && (forall p <- s.reports :: SlotOf(s.reports[p]) == slot ==> p <= o)
  }

  predicate Ownership(s: State) {
    && (forall slot <- s.owned :: Awaits(s, slot, s.owned[slot]))
    && (s.position.Submitted? ==> s.position.slot !in s.owned && Awaits(s, s.position.slot, s.position.ordinal))
  }

  /** Every automatic result, in a slot or in hand, is an action's final report. */
  predicate Genuine(s: State, r: Report) {
    Automatic(r.kind) ==> r.ordinal in s.reports && r == s.reports[r.ordinal] && r.state.Terminal()
  }

  predicate Contents(s: State) {
    && (forall k <- s.box.results :: Genuine(s, s.box.results[k].report) && KeyFor(s.box.results[k].report) == Some(k))
    && (s.position.Applying? ==> forall r <- s.position.batch :: Genuine(s, r))
  }

  predicate Boxed(s: State, slot: Slot, o: nat) {
    Owned(slot) in s.box.results && s.box.results[Owned(slot)].report.ordinal == o
  }

  predicate InHand(s: State, o: nat) {
    s.position.Applying? && o in s.reports && s.reports[o] in s.position.batch
  }

  /** A published result the loop is waiting for is in its slot or in the loop's hand. */
  predicate Delivered(s: State, slot: Slot, o: nat) {
    s.revision == s.cfg.revision && o in s.published ==> Boxed(s, slot, o) || InHand(s, o)
  }

  predicate NothingLost(s: State) {
    && (forall slot <- s.owned :: Delivered(s, slot, s.owned[slot]))
    && (s.position.Submitted? ==> Delivered(s, s.position.slot, s.position.ordinal))
  }

  /** A non-empty box always has somebody about to look into it. */
  predicate Awake(s: State) {
    s.box.results != map[] ==> s.token || s.sending || s.position.Taking?
  }

  predicate Inv(s: State) {
    Recorded(s) && Ownership(s) && Contents(s) && NothingLost(s) && Awake(s) && Orders(s.box)
  }

  lemma InitialInv(cfg: Settings)
    ensures Inv(Initial(cfg))
  {
  }

  // ---------------------------------------------------------------------
  // Steps
  // ---------------------------------------------------------------------

  /** A deposit leaves the newest result of a live slot where it is, or puts it there. */
  lemma DepositKeepsNewest(s: State, r: Report, slot: Slot, o: nat)
    requires Recorded(s) && Contents(s) && Awaits(s, slot, o) && Genuine(s, r) && s.revision == s.cfg.revision
    ensures Boxed(s, slot, o) || (r.state.Terminal() && r.ordinal == o && Automatic(r.kind)) ==> Boxed(Observe(s, r), slot, o)
  {
    var b, c := s.box, Deposit(s.box, r, s.cfg);
    if Boxed(s, slot, o) {
      assert KeyFor(b.results[Owned(slot)].report) == Some(Owned(slot));
      assert Current(b.results[Owned(slot)].report, s.cfg);
      assert Stays(Owned(slot), b.results[Owned(slot)], s.cfg);
    }
    if r.state.Terminal() && r.ordinal == o && Automatic(r.kind) {
      assert KeyFor(r) == Some(Owned(slot)) && !Ignored(r, s.cfg);
      assert forall k <- b.results :: KeyFor(b.results[k].report) == Some(k);
    }
  }

  lemma ObserveContents(s: State, r: Report)
    requires Contents(s) && Genuine(s, r) && r.state.Terminal() && Awake(s)
    ensures Contents(Observe(s, r)) && Awake(Observe(s, r))
  {
  }

  lemma ObserveKeeps(s: State, r: Report, t: State)
    requires Inv(s) && Genuine(s, r)
    requires t == Observe(s, r) || (Automatic(r.kind) && r.state.Terminal() && t == Observe(s, r).(published := s.published + {r.ordinal}))
    ensures Inv(t)
  {
    DepositOrders(s.box, r, s.cfg);
    forall slot, o | Awaits(s, slot, o) && Delivered(s, slot, o)
      ensures Awaits(t, slot, o) && Delivered(t, slot, o)
    {
      if s.revision == s.cfg.revision {
        DepositKeepsNewest(s, r, slot, o);
      }
    }
    if r.state.Terminal() {
      ObserveContents(s, r);
    }
    hide Deposit;
  }

  lemma EndKeeps(s: State, o: nat, state: Actions.State)
    requires Inv(s) && o in s.reports && !s.reports[o].state.Terminal() && state.Terminal()
    ensures Inv(s.(reports := s.reports[o := s.reports[o].(state := state)]))
  {
    var t := s.(reports := s.reports[o := s.reports[o].(state := state)]);
    forall slot, p | Awaits(s, slot, p) && Delivered(s, slot, p)
      ensures Awaits(t, slot, p) && Delivered(t, slot, p)
    {
    }
  }

  lemma TakenAreGenuine(s: State, items: seq<Item>)
    requires Contents(s) && Lists(s.box.results, items)
    ensures forall i | 0 <= i < |items| :: Genuine(s, items[i].report)
  {
    forall i | 0 <= i < |items|
      ensures Genuine(s, items[i].report)
    {
      assert Holds(s.box.results, s.box.results.Keys, items[i]);
    }
  }

  lemma TakenIsInHand(s: State, t: State, items: seq<Item>, slot: Slot, o: nat)
    requires Contents(s) && Lists(s.box.results, items) && Boxed(s, slot, o) && Awaits(s, slot, o)
    requires t.position.Applying? && |t.position.batch| == |items| && t.reports == s.reports
    requires forall i | 0 <= i < |items| :: t.position.batch[i] == items[i].report
    ensures InHand(t, o)
  {
    var item := s.box.results[Owned(slot)];
    var i :| 0 <= i < |items| && items[i] == item;
    assert KeyFor(item.report) == Some(Owned(slot));
    assert t.position.batch[i] == item.report;
  }

  lemma TakenDelivered(s: State, t: State, items: seq<Item>)
    requires Inv(s) && s.position.Taking? && Lists(s.box.results, items)
    requires t == s.(box := s.box.(results := map[]), position := t.position)
    requires t.position.Applying? && |t.position.batch| == |items|
    requires forall i | 0 <= i < |items| :: t.position.batch[i] == items[i].report
    ensures NothingLost(t)
  {
    forall slot | slot in s.owned
      ensures Delivered(t, slot, t.owned[slot])
    {
      var o := s.owned[slot];
      assert Delivered(s, slot, o) && Awaits(s, slot, o);
      hide Lists, Contents;
      if s.revision == s.cfg.revision && o in s.published {
        TakenIsInHand(s, t, items, slot, o);
      }
    }
  }

  lemma TakenRest(s: State, t: State)
    requires Recorded(s) && Ownership(s) && !s.position.Submitted? && Orders(s.box)
    requires t == s.(box := s.box.(results := map[]), position := t.position) && t.position.Applying?
    ensures Recorded(t) && Ownership(t) && Awake(t) && Orders(t.box)
  {
  }

  lemma TakeKeeps(s: State, items: seq<Item>)
    requires Inv(s) && Enabled(s, TakeEvent(items))
    ensures Inv(Step(s, TakeEvent(items)))
  {
    var t := Step(s, TakeEvent(items));
    hide Lists, Contents, Recorded, Ownership, Sorted, Orders, NothingLost, Awake, Genuine;
    TakenAreGenuine(s, items);
    TakenDelivered(s, t, items);
    TakenContents(s, t, items);
    TakenRest(s, t);
  }

  lemma TakenContents(s: State, t: State, items: seq<Item>)
    requires forall i | 0 <= i < |items| :: Genuine(s, items[i].report)
    requires t.position.Applying? && |t.position.batch| == |items| && t.reports == s.reports && t.box.results == map[]
    requires forall i | 0 <= i < |items| :: t.position.batch[i] == items[i].report
    ensures Contents(t)
  {
  }

  lemma ApplyKeeps(s: State)
    requires Inv(s) && Enabled(s, ApplyEvent)
    ensures Inv(Apply(s))
  {
    var t := Apply(s);
    var r := s.position.batch[0];
    ApplyFrame(s);
    forall slot | slot in t.owned
      ensures Delivered(t, slot, t.owned[slot])
    {
      ApplyDelivers(s, slot);
    }
    hide Apply, Awaits, Delivered, Genuine, Orders, Recorded, Ownership, Contents;
    ApplyOwnership(s, t);
    ApplyRest(s, t);
  }

  lemma ApplyFrame(s: State)
    requires s.position.Applying? && s.position.batch != []
    ensures var t := Apply(s);
            && t == s.(owned := t.owned, position := t.position) && t.position.Applying?
            && (forall x <- t.position.batch :: x in s.position.batch)
            && (forall slot <- t.owned :: slot in s.owned && t.owned[slot] == s.owned[slot])
  {
    assert s.position.batch == [s.position.batch[0]] + Apply(s).position.batch;
  }

  lemma ApplyRest(s: State, t: State)
    requires Recorded(s) && Contents(s) && s.position.Applying? && t == s.(owned := t.owned, position := t.position) && t.position.Applying?
    requires forall x <- t.position.batch :: x in s.position.batch
    ensures Recorded(t) && Contents(t)
  {
  }

  lemma ApplyOwnership(s: State, t: State)
    requires Ownership(s) && s.position.Applying? && t == s.(owned := t.owned, position := t.position) && t.position.Applying?
    requires forall slot <- t.owned :: slot in s.owned && t.owned[slot] == s.owned[slot]
    ensures Ownership(t)
  {
  }

  lemma ApplyDelivers(s: State, slot: Slot)
    requires Inv(s) && Enabled(s, ApplyEvent) && slot in Apply(s).owned
    ensures slot in s.owned && Apply(s).owned[slot] == s.owned[slot]
    ensures Delivered(Apply(s), slot, s.owned[slot])
  {
    var t, r, o := Apply(s), s.position.batch[0], s.owned[slot];
    assert Delivered(s, slot, o) && Awaits(s, slot, o);
    hide Inv, Enabled;
    assert s.position.batch == [r] + t.position.batch;
  }

  lemma AdmitKeeps(s: State, slot: Slot)
    requires Inv(s) && MayOwn(s, slot)
    ensures Inv(Admit(s, slot)) && Awaits(Admit(s, slot), slot, s.next)
  {
    var t := Admit(s, slot);
    forall x | x in s.owned
      ensures Awaits(t, x, t.owned[x]) && Delivered(t, x, t.owned[x])
    {
      assert Awaits(s, x, s.owned[x]);
    }
  }

  lemma ConfigKeeps(s: State, accounts: set<string>)
    requires Inv(s)
    ensures Inv(s.(cfg := Settings(s.cfg.revision + 1, accounts)))
  {
  }

  lemma SendKeeps(s: State)
    requires Inv(s)
    ensures s.sending ==> Inv(s.(sending := false, token := true))
    ensures s.position.Waiting? ==> Inv(s.(token := false, position := Taking))
    ensures s.position.Ticking? ==> Inv(s.(position := Waiting))
  {
  }

  lemma TickKeeps(s: State)
    requires Inv(s) && (s.position.Waiting? || s.position == Applying([]))
    ensures Inv(Tick(s))
  {
  }

  lemma RecordKeeps(s: State)
    requires Inv(s) && s.position.Submitted?
    ensures Inv(s.(owned := s.owned[s.position.slot := s.position.ordinal], position := Ticking))
  {
  }

  lemma DisownKeeps(s: State, slot: Slot)
    requires Inv(s)
    ensures Inv(s.(owned := s.owned - {slot}))
  {
  }

  lemma SubmittedKeeps(s: State, slot: Slot)
    requires Inv(s) && MayOwn(s, slot)
    ensures Inv(Admit(s, slot).(position := Submitted(slot, s.next)))
  {
    AdmitKeeps(s, slot);
    assert s.next !in s.published;
  }

  /** Every step of the loop, the coordinator and the mailbox keeps the invariant. */
  lemma StepKeeps(s: State, e: Event)
    requires Inv(s) && Enabled(s, e)
    ensures Inv(Step(s, e))
  {
    assert e.ObserveEvent? ==> Automatic(s.reports[e.ordinal].kind) && Genuine(s, s.reports[e.ordinal]);
    hide Inv, Sorted, Lists, Deposit, Ignored, Apply, Tick;
    match e {
      case ConfigEvent(accounts) => ConfigKeeps(s, accounts);
      case EndEvent(o, state) => EndKeeps(s, o, state);
      case ObserveEvent(o) => ObserveKeeps(s, s.reports[o], Step(s, e));
      case ObserveOther(r) => ObserveKeeps(s, r, Step(s, e));
      case TakeEvent(items) => TakeKeeps(s, items);
      case ApplyEvent => ApplyKeeps(s);
      case SubmitEvent(slot) => SubmittedKeeps(s, slot);
      case SubmitLost(slot) => AdmitKeeps(s, slot);
      case TickEvent => TickKeeps(s);
      case RecordEvent => RecordKeeps(s);
      case DisownEvent(slot) => DisownKeeps(s, slot);
      case SendEvent => SendKeeps(s);
      case ReceiveEvent => SendKeeps(s);
      case RestEvent => SendKeeps(s);
    }
  }

  // ---------------------------------------------------------------------
  // Over whole runs
  // ---------------------------------------------------------------------

  ghost predicate Reaches(s: State, es: seq<Event>, t: State)
    decreases |es|
  {
    if es == [] then t == s else Enabled(s, es[0]) && Reaches(Step(s, es[0]), es[1..], t)
  }

  lemma {:induction false} RunKeeps(s: State, es: seq<Event>, t: State)
    requires Inv(s) && Reaches(s, es, t)
    ensures Inv(t)
    decreases |es|
  {
    if es != [] {
      StepKeeps(s, es[0]);
      RunKeeps(Step(s, es[0]), es[1..], t);
    }
  }

  /**
   The loop cannot wedge: in every run, an action it waits for under the current
   revision whose end has been published is still in its slot or in the loop's hand;
   and if the loop is idle with no observer mid-call, a wake token is there.
   */
  lemma NoResultIsLost(cfg: Settings, es: seq<Event>, t: State, slot: Slot)
    requires Reaches(Initial(cfg), es, t)
    requires slot in t.owned && t.revision == t.cfg.revision && t.owned[slot] in t.published
    ensures Boxed(t, slot, t.owned[slot]) || InHand(t, t.owned[slot])
    ensures t.position.Waiting? && !t.sending ==> t.token
  {
    InitialInv(cfg);
    RunKeeps(Initial(cfg), es, t);
    assert Delivered(t, slot, t.owned[slot]);
  }

  lemma NonEmptyBoxIsNoticed(cfg: Settings, es: seq<Event>, t: State)
    requires Reaches(Initial(cfg), es, t) && t.box.results != map[]
    ensures t.token || t.sending || t.position.Taking?
  {
    InitialInv(cfg);
    RunKeeps(Initial(cfg), es, t);
  }

  /** Applying the batch in hand, step by step. */
  ghost function ApplyAll(s: State): State
    requires s.position.Applying?
    decreases |s.position.batch|
  {
    if s.position.batch == [] then s else ApplyAll(Apply(s))
  }

  /** A result in hand frees its slot by the time the batch is done, whatever else is in it. */
  lemma {:induction false} InHandIsApplied(s: State, slot: Slot, o: nat)
    requires Inv(s) && s.position.Applying? && s.revision == s.cfg.revision
    requires slot in s.owned && s.owned[slot] == o && InHand(s, o)
    ensures slot !in ApplyAll(s).owned
    decreases |s.position.batch|
  {
    ApplyKeeps(s);
    var t, r := Apply(s), s.position.batch[0];
    assert s.position.batch == [r] + t.position.batch;
    assert Awaits(s, slot, o);
    if slot in t.owned {
      assert r != s.reports[o];
      InHandIsApplied(t, slot, o);
    } else {
      FreedStaysFree(t, slot);
    }
  }

  lemma {:induction false} FreedStaysFree(s: State, slot: Slot)
    requires s.position.Applying? && slot !in s.owned
    ensures slot !in ApplyAll(s).owned
    decreases |s.position.batch|
  {
    if s.position.batch != [] {
      FreedStaysFree(Apply(s), slot);
    }
  }

  // ---------------------------------------------------------------------
  // Who may free a slot
  // ---------------------------------------------------------------------

  /** Applying a report frees a slot only if it is the final report, of the current revision, of exactly the action the slot waits for. */
  lemma OnlyItsOwnReportFreesASlot(s: State, slot: Slot)
    requires Inv(s) && Enabled(s, ApplyEvent) && slot in s.owned && slot !in Apply(s).owned
    ensures var r, o := s.position.batch[0], s.owned[slot];
            && r.ordinal == o && SlotOf(r) == slot && r.state.Terminal() && r.revision == s.cfg.revision
            && o in s.reports && r == s.reports[o]
  {
    var r := s.position.batch[0];
    assert Awaits(s, slot, s.owned[slot]);
    assert r in s.position.batch && Genuine(s, r);
  }

  /** The other way round: that report does free it. */
  lemma ItsOwnReportFreesTheSlot(s: State, slot: Slot)
    requires Inv(s) && Enabled(s, ApplyEvent) && slot in s.owned && s.revision == s.cfg.revision
    requires s.owned[slot] in s.reports && s.position.batch[0] == s.reports[s.owned[slot]]
    ensures slot !in Apply(s).owned && forall x <- s.owned :: x != slot ==> x in Apply(s).owned && Apply(s).owned[x] == s.owned[x]
  {
    assert Awaits(s, slot, s.owned[slot]);
  }

  /** What ends the wait of a slot for an action: its own report applied, a new revision noticed, or the loop giving it up. */
  ghost predicate Releases(s: State, e: Event, slot: Slot, o: nat) {
    || (e.ApplyEvent? && s.position.Applying? && s.position.batch != [] && o in s.reports
        && s.position.batch[0] == s.reports[o] && s.reports[o].state.Terminal() && s.reports[o].revision == s.cfg.revision)
    || (e.TickEvent? && s.revision != s.cfg.revision)
    || e == DisownEvent(slot)
  }

  lemma StepKeepsOwner(s: State, e: Event, slot: Slot, o: nat)
    requires Inv(s) && Enabled(s, e) && slot in s.owned && s.owned[slot] == o && !Releases(s, e, slot, o)
    ensures slot in Step(s, e).owned && Step(s, e).owned[slot] == o
  {
    if e.ApplyEvent? && slot !in Apply(s).owned {
      OnlyItsOwnReportFreesASlot(s, slot);
    }
    if e.RecordEvent? {
      RecordedIsElsewhere(s, slot);
    }
    hide Inv, Deposit, Lists, Sorted;
  }

  lemma RecordedIsElsewhere(s: State, slot: Slot)
    requires Inv(s) && s.position.Submitted? && slot in s.owned
    ensures s.position.slot != slot
  {
  }

  /** Whether the wait for an action ends somewhere in a run. */
  ghost predicate ReleasedIn(s: State, es: seq<Event>, slot: Slot, o: nat)
    decreases |es|
  {
    es != [] && Enabled(s, es[0]) && (Releases(s, es[0], slot, o) || ReleasedIn(Step(s, es[0]), es[1..], slot, o))
  }

  /** Over every run an owned slot keeps its action until one of those three happens. */
  lemma {:induction false} OwnerIsKeptUntilReleased(s: State, es: seq<Event>, t: State, slot: Slot, o: nat)
    requires Inv(s) && Reaches(s, es, t) && slot in s.owned && s.owned[slot] == o && !ReleasedIn(s, es, slot, o)
    ensures slot in t.owned && t.owned[slot] == o
    decreases |es|
  {
    if es != [] {
      StepKeepsOwner(s, es[0], slot, o);
      StepKeeps(s, es[0]);
      OwnerIsKeptUntilReleased(Step(s, es[0]), es[1..], t, slot, o);
    }
  }
}
