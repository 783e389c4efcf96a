/**
 The maintenance loop's mailbox of finished actions. One slot per automatic kind and
 account, one for manual switches; redundant history coalesces. Models
 core/internal/application/maintenance_results.go.
 */
module Mailbox {
  import opened Wrappers
  import Actions

  datatype Slot = Slot(kind: Actions.Kind, account: string)

  datatype Key = ManualSwitch | Owned(slot: Slot)

  /** What the coordinator publishes of an action; the ordinal is its identity. */
  datatype Report = Report(
    ordinal: nat,
    kind: Actions.Kind,
    account: string,
    checkRevision: bool,
    revision: nat,
    state: Actions.State)

  datatype Item = Item(report: Report, order: nat)

  datatype Settings = Settings(revision: nat, accounts: set<string>)

  datatype Box = Box(results: map<Key, Item>, order: nat)

  predicate Automatic(kind: Actions.Kind) {
    kind.Maintain? || kind.ForcedLogout? || kind.QuietHotspot? || kind.QuietCampus?
  }

  /** The slot a terminal report belongs in, if it is kept at all. */
  function KeyFor(r: Report): Option<Key> {
    if Automatic(r.kind) then Some(Owned(Slot(r.kind, r.account)))
    else if (r.kind.SwitchCampus? || r.kind.SwitchHotspot?) && r.state.Succeeded? then Some(ManualSwitch)
    else None
  }

  /** Kinds whose end matters to the loop, kept or not. */
  predicate Relevant(kind: Actions.Kind) {
    Automatic(kind) || kind.SwitchCampus? || kind.SwitchHotspot? || kind.Login? || kind.Relogin? || kind.Logout?
  }

  predicate Current(r: Report, cfg: Settings) {
    r.account in cfg.accounts && (r.checkRevision ==> r.revision == cfg.revision)
  }

  /** The report is dropped without waking the loop. */
  predicate Ignored(r: Report, cfg: Settings) {
    || !r.state.Terminal() || !Relevant(r.kind)
    || (Automatic(r.kind) && !Current(r, cfg))
  }

  predicate Stays(key: Key, item: Item, cfg: Settings) {
    key.ManualSwitch? || Current(item.report, cfg)
  }

  function Purged(results: map<Key, Item>, cfg: Settings): map<Key, Item> {
    map key <- results | Stays(key, results[key], cfg) :: results[key]
  }

  /** Observe's edit of the box. */
  function Deposit(b: Box, r: Report, cfg: Settings): Box {
    if Ignored(r, cfg) || KeyFor(r).None? then b
    else
      var key := KeyFor(r).value;
      var kept := Purged(b.results, cfg);
      if key in kept && kept[key].report.ordinal > r.ordinal then Box(kept, b.order)
      else Box(kept[key := Item(r, b.order + 1)], b.order + 1)
  }

  predicate Orders(b: Box) {
    && (forall k <- b.results :: 0 < b.results[k].order <= b.order)
    && (forall k, l | k in b.results && l in b.results && k != l :: b.results[k].order != b.results[l].order)
  }

  lemma DepositOrders(b: Box, r: Report, cfg: Settings)
    requires Orders(b)
    ensures Orders(Deposit(b, r, cfg))
  {
  }

  predicate Sorted(items: seq<Item>) {
    forall i, j | 0 <= i < j < |items| :: items[i].order < items[j].order
  }

  /** Where an item belongs in a sorted sequence, as the sort finds it. */
  function Insert(items: seq<Item>, x: Item): (r: seq<Item>)
    ensures |r| == |items| + 1
  {
    if items == [] || x.order < items[0].order then [x] + items else [items[0]] + Insert(items[1..], x)
  }

  lemma {:induction false} InsertMembers(items: seq<Item>, x: Item)
    ensures forall y :: y in Insert(items, x) <==> y == x || y in items
  {
    if items != [] && x.order >= items[0].order {
      InsertMembers(items[1..], x);
      assert items == [items[0]] + items[1..];
    }
  }

  lemma {:induction false} InsertSorted(items: seq<Item>, x: Item)
    requires Sorted(items) && forall y <- items :: y.order != x.order
    ensures Sorted(Insert(items, x))
  {
    if items != [] && x.order >= items[0].order {
      InsertSorted(items[1..], x);
      InsertMembers(items[1..], x);
      var rest := Insert(items[1..], x);
      assert forall j | 0 <= j < |rest| :: rest[j] in rest;
    }
  }

  class MailBox {
    var results: map<Key, Item>
    var order: nat
    var ready: bool

    ghost function View(): Box
      reads this
    {
      Box(results, order)
    }

    constructor ()
      ensures View() == Box(map[], 0) && !ready
    {
      results, order, ready := map[], 0, false;
    }

    method Purge(cfg: Settings)
      modifies this`results
      ensures results == Purged(old(results), cfg)
    {
      var todo := results.Keys;
      while todo != {}
        invariant todo <= old(results).Keys
        invariant forall k <- results :: k in old(results) && results[k] == old(results)[k]
        invariant forall k <- old(results) :: k in results <==> k in todo || Stays(k, old(results)[k], cfg)
        decreases |todo|
      {
        var slot :| slot in todo;
        todo := todo - {slot};
        if slot.Owned? {
          var r := results[slot].report;
          if r.account !in cfg.accounts || (r.checkRevision && r.revision != cfg.revision) {
            results := results - {slot};
          }
        }
      }
      assert results == Purged(old(results), cfg);
    }

    method Observe(r: Report, cfg: Settings)
      modifies this
      ensures View() == Deposit(old(View()), r, cfg)
      ensures ready <==> old(ready) || !Ignored(r, cfg)
    {
      if !r.state.Terminal() || !Relevant(r.kind) {
        return;
      }
      var key := KeyFor(r);
      if key.Some? {
        if key.value.Owned? {
          if r.account !in cfg.accounts {
            return;
          }
          if r.checkRevision && r.revision != cfg.revision {
            return;
          }
        }
        Purge(cfg);
        if key.value !in results || results[key.value].report.ordinal <= r.ordinal {
          order := order + 1;
          results := results[key.value := Item(r, order)];
        }
      }
      ready := true;
    }

    method Collect() returns (pending: seq<Item>)
      requires Orders(View())
      ensures Sorted(pending) && Lists(results, pending)
    {
      pending := [];
      var todo := results.Keys;
      while todo != {}
        invariant todo <= results.Keys
        invariant |pending| == |results.Keys| - |todo|
        invariant Sorted(pending)
        invariant forall k <- results :: k in todo || results[k] in pending
        invariant forall y <- pending :: Holds(results, results.Keys - todo, y)
        decreases |todo|
      {
        var k :| k in todo;
        OrdersDiffer(results, order, results.Keys - todo, k, pending);
        var x, before := results[k], todo;
        todo := todo - {k};
        forall y | y in pending
          ensures Holds(results, results.Keys - todo, y)
        {
          var l :| l in results.Keys - before && l in results && results[l] == y;
          assert l in results.Keys - todo;
        }
        assert k in results.Keys - todo;
        assert Holds(results, results.Keys - todo, x);
        InsertMembers(pending, x);
        InsertSorted(pending, x);
        pending := Insert(pending, x);
      }
    }

    /** Everything that was waiting, once, in the order it was last published. */
    method TakeResults() returns (taken: seq<Report>, ghost items: seq<Item>)
      requires Orders(View())
      modifies this`results
      ensures results == map[]
      ensures Sorted(items) && Lists(old(results), items)
      ensures |taken| == |items| && forall i | 0 <= i < |items| :: taken[i] == items[i].report
    {
      var pending := Collect();
      items := pending;
      results := map[];
      taken := [];
      for i := 0 to |pending|
        invariant |taken| == i
        invariant forall j | 0 <= j < i :: taken[j] == pending[j].report
      {
        taken := taken + [pending[i].report];
      }
    }
  }

  ghost predicate Holds(results: map<Key, Item>, keys: set<Key>, y: Item) {
    exists k <- keys :: k in results && results[k] == y
  }

  /** The items are exactly the box's, each once. */
  ghost predicate Lists(results: map<Key, Item>, items: seq<Item>) {
    && |items| == |results.Keys|
    && (forall k <- results :: results[k] in items)
    && (forall y <- items :: Holds(results, results.Keys, y))
  }

  lemma OrdersDiffer(results: map<Key, Item>, order: nat, done: set<Key>, k: Key, pending: seq<Item>)
    requires Orders(Box(results, order)) && k in results && k !in done
    requires forall y <- pending :: Holds(results, done, y)
    ensures forall y <- pending :: y.order != results[k].order
  {
  }
}
