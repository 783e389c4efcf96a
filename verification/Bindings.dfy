/**
 Binding generations: which clients may still be used on a line. The authenticator's
 counter and last-seen bindings, and the pool of clients bound to them. Models
 core/internal/application/authworker.go and core/internal/transport/pool.go.
 */
module Bindings {
  import opened Wrappers

  type Account = string

  /** What sameLine compares. */
  datatype Line = Line(device: string, index: int, source: string, dns: seq<string>)

  datatype Binding = Binding(line: Line, generation: nat)

  datatype Key = Key(account: Account, generation: nat, device: string, source: string, gateway: string)

  datatype State = State(
    generation: nat,
    seen: map<Account, Binding>,
    clients: set<Key>,
    newest: map<Account, nat>)

  const INITIAL := State(0, map[], {}, map[])

  // ---------------------------------------------------------------------
  // The operations on values
  // ---------------------------------------------------------------------

  function Older(clients: set<Key>, a: Account, g: nat): set<Key> {
    set k <- clients | k.account == a && k.generation < g
  }

  function Retired(s: State, a: Account, g: nat): State {
    s.(clients := s.clients - Older(s.clients, a, g))
  }

  /** A stale generation invalidates nothing. */
  function Invalidate(s: State, a: Account, g: nat): State {
    if a !in s.seen || s.seen[a].generation != g then s
    else Retired(s.(seen := s.seen - {a}, generation := s.generation + 1), a, s.generation + 1)
  }

  /** The generation an observation of this account reads under. */
  function Stamp(s: State, a: Account): nat {
    if a in s.seen then s.seen[a].generation else s.generation + 1
  }

  function Stamped(s: State, a: Account): State {
    if a in s.seen then s else s.(generation := s.generation + 1)
  }

  function Observe(s: State, a: Account, found: Option<Line>): (State, Binding)
    requires found.Some?
  {
    var t := Stamped(s, a);
    if a in s.seen && s.seen[a].line == found.value then
      (t, Binding(found.value, Stamp(s, a)))
    else
      var g := if a in s.seen then t.generation + 1 else Stamp(s, a);
      var b := Binding(found.value, g);
      (Retired(t.(generation := g, seen := t.seen[a := b]), a, g), b)
  }

  function Observed(s: State, a: Account, found: Option<Line>): State {
    if found.None? then Invalidate(Stamped(s, a), a, Stamp(s, a)) else Observe(s, a, found).0
  }

  function Reread(s: State, a: Account, held: Binding, found: Option<Line>): State {
    if found == Some(held.line) then s else Invalidate(s, a, held.generation)
  }

  function KeyOf(a: Account, b: Binding, gateway: string): Key {
    Key(a, b.generation, b.line.device, b.line.source, gateway)
  }

  predicate Ready(b: Binding) { b.line.device != "" && b.line.source != "" }

  predicate Served(s: State, a: Account, b: Binding, gateway: string, built: bool) {
    && a != "" && b.generation != 0 && Ready(b)
    && (KeyOf(a, b, gateway) in s.clients || ((a in s.newest ==> s.newest[a] <= b.generation) && built))
  }

  function Get(s: State, a: Account, b: Binding, gateway: string, built: bool): State {
    if !Served(s, a, b, gateway, built) || KeyOf(a, b, gateway) in s.clients then s
    else
      var t := Retired(s, a, b.generation);
      t.(clients := t.clients + {KeyOf(a, b, gateway)}, newest := t.newest[a := b.generation])
  }

  // ---------------------------------------------------------------------
  // The objects
  // ---------------------------------------------------------------------

  class Lines {
    var generation: nat
    var seen: map<Account, Binding>
    var clients: set<Key>
    var newest: map<Account, nat>

    ghost function View(): State
      reads this
    {
      State(generation, seen, clients, newest)
    }

    constructor ()
      ensures View() == INITIAL
    {
      generation, seen, clients, newest := 0, map[], {}, map[];
    }

    /** Closes every client of the account older than the generation. */
    method Retire(a: Account, current: nat) returns (closed: nat)
      modifies this
      ensures View() == Retired(old(View()), a, current)
      ensures closed == |Older(old(clients), a, current)|
    {
      var todo := clients;
      closed := 0;
      ghost var done: set<Key> := {};
      while todo != {}
        invariant todo !! done && todo + done == old(clients)
        invariant clients == old(clients) - Older(done, a, current)
        invariant closed == |Older(done, a, current)|
        invariant generation == old(generation) && seen == old(seen) && newest == old(newest)
        decreases |todo|
      {
        var k :| k in todo;
        todo := todo - {k};
        ghost var was := done;
        done := done + {k};
        if k.account == a && k.generation < current {
          assert Older(done, a, current) == Older(was, a, current) + {k};
          clients := clients - {k};
          closed := closed + 1;
        } else {
          assert Older(done, a, current) == Older(was, a, current);
        }
      }
    }

    method InvalidateLine(a: Account, g: nat)
      modifies this
      ensures View() == Invalidate(old(View()), a, g)
    {
      if a !in seen || seen[a].generation != g {
        return;
      }
      seen := seen - {a};
      generation := generation + 1;
      var _ := Retire(a, generation);
    }

    /** observeLine; a failed resolution carries the stamp it failed under. */
    method ObserveLine(a: Account, found: Option<Line>) returns (ok: bool, b: Binding)
      modifies this
      ensures View() == Observed(old(View()), a, found)
      ensures ok == found.Some?
      ensures ok ==> b == Observe(old(View()), a, found).1
      ensures !ok ==> b.generation == Stamp(old(View()), a)
    {
      var known := a in seen;
      var stamp := if known then seen[a].generation else generation + 1;
      if !known {
        generation := stamp;
      }
      if found.None? {
        InvalidateLine(a, stamp);
        return false, Binding(Line("", 0, "", []), stamp);
      }
      b := Binding(found.value, stamp);
      var moved := !known || seen[a].line != b.line;
      if moved && known {
        generation := generation + 1;
        b := Binding(found.value, generation);
      }
      ghost var before := seen;
      seen := seen[a := b];
      if moved {
        var _ := Retire(a, b.generation);
      } else {
        assert seen == before;
      }
      ok := true;
    }

    method ConfirmUnchanged(a: Account, held: Binding, found: Option<Line>) returns (same: bool)
      modifies this
      ensures View() == Reread(old(View()), a, held, found)
      ensures same <==> found == Some(held.line)
    {
      if found.None? || found.value != held.line {
        InvalidateLine(a, held.generation);
        return false;
      }
      return true;
    }

    method GetClient(a: Account, b: Binding, gateway: string, built: bool) returns (ok: bool)
      modifies this
      ensures View() == Get(old(View()), a, b, gateway, built)
      ensures ok <==> Served(old(View()), a, b, gateway, built)
    {
      if a == "" || b.generation == 0 || !Ready(b) {
        return false;
      }
      var key := KeyOf(a, b, gateway);
      if key in clients {
        return true;
      }
      if a in newest && b.generation < newest[a] {
        return false;
      }
      if !built {
        return false;
      }
      var _ := Retire(a, b.generation);
      clients := clients + {key};
      newest := newest[a := b.generation];
      return true;
    }
  }

  // ---------------------------------------------------------------------
  // Runs
  // ---------------------------------------------------------------------

  datatype Op =
    | ObserveOp(a: Account, found: Option<Line>)
    | RereadOp(a: Account, held: Binding, found: Option<Line>)
    | InvalidateOp(a: Account, g: nat)
    | GetOp(a: Account, b: Binding, gateway: string, built: bool)
    | CloseOp

  function Step(s: State, op: Op): State {
    match op
    case ObserveOp(a, found) => Observed(s, a, found)
    case RereadOp(a, held, found) => Reread(s, a, held, found)
    case InvalidateOp(a, g) => Invalidate(s, a, g)
    case GetOp(a, b, gateway, built) => Get(s, a, b, gateway, built)
    case CloseOp => s.(clients := {}, newest := map[])
  }

  function Run(s: State, ops: seq<Op>): State
    decreases |ops|
  {
    if ops == [] then s else Step(Run(s, ops[..|ops| - 1]), ops[|ops| - 1])
  }

  predicate Counted(s: State) {
    && (forall a <- s.seen :: 0 < s.seen[a].generation <= s.generation)
    && (forall k <- s.clients :: k.generation <= s.generation)
  }

  predicate Credible(s: State, op: Op) {
    op.GetOp? ==> op.b.generation <= s.generation
  }

  lemma StepCounts(s: State, op: Op)
    requires Counted(s) && Credible(s, op)
    ensures Counted(Step(s, op)) && s.generation <= Step(s, op).generation
  {
  }

  /** The account is on this very binding. */
  predicate On(s: State, a: Account, b: Binding) {
    a in s.seen && s.seen[a] == b
  }

  /** The binding is over: whatever the account is on, or will be, is newer. */
  predicate Over(s: State, a: Account, b: Binding) {
    b.generation <= s.generation && (a in s.seen ==> s.seen[a].generation > b.generation)
  }

  /** What ends a binding, in the terms of the operation alone. */
  predicate Ends(op: Op, a: Account, b: Binding) {
    match op
    case ObserveOp(x, found) => x == a && found != Some(b.line)
    case RereadOp(x, held, found) => x == a && held.generation == b.generation && found != Some(held.line)
    case InvalidateOp(x, g) => x == a && g == b.generation
    case _ => false
  }

  lemma StepOnOrOver(s: State, op: Op, a: Account, b: Binding)
    requires Counted(s) && Credible(s, op)
    ensures On(s, a, b) && !Ends(op, a, b) ==> On(Step(s, op), a, b)
    ensures On(s, a, b) && Ends(op, a, b) ==> Over(Step(s, op), a, b)
    ensures Over(s, a, b) ==> Over(Step(s, op), a, b)
  {
  }

  predicate AllCredible(s: State, ops: seq<Op>)
    decreases |ops|
  {
    ops == [] || (AllCredible(s, ops[..|ops| - 1]) && Credible(Run(s, ops[..|ops| - 1]), ops[|ops| - 1]))
  }

  lemma {:induction false} RunOnOrOver(s: State, ops: seq<Op>, a: Account, b: Binding)
    requires Counted(s) && AllCredible(s, ops) && On(s, a, b)
    ensures Counted(Run(s, ops))
    ensures if forall op <- ops :: !Ends(op, a, b) then On(Run(s, ops), a, b) else Over(Run(s, ops), a, b)
    decreases |ops|
  {
    if ops != [] {
      var n := |ops| - 1;
      RunOnOrOver(s, ops[..n], a, b);
      StepCounts(Run(s, ops[..n]), ops[n]);
      StepOnOrOver(Run(s, ops[..n]), ops[n], a, b);
      assert ops == ops[..n] + [ops[n]];
    }
  }

  /**
   A generation identifies a binding: of two successful observations of one account,
   with anything in between, the second carries the first's generation exactly when it
   is the same line and nothing in between ended the binding; otherwise its generation
   is greater.
   */
  lemma GenerationIdentifiesBinding(s: State, a: Account, first: Line, ops: seq<Op>, second: Line)
    requires Counted(s)
    requires AllCredible(Observed(s, a, Some(first)), ops)
    ensures var b := Observe(s, a, Some(first)).1;
            var t := Run(Observed(s, a, Some(first)), ops);
            var c := Observe(t, a, Some(second)).1;
            && (c.generation == b.generation <==> second == first && forall op <- ops :: !Ends(op, a, b))
            && b.generation <= c.generation
  {
    var b := Observe(s, a, Some(first)).1;
    var u := Observed(s, a, Some(first));
    StepCounts(s, ObserveOp(a, Some(first)));
    assert On(u, a, b);
    RunOnOrOver(u, ops, a, b);
  }

  /** A stale invalidation leaves everything as it is. */
  lemma StaleInvalidationIsHarmless(s: State, a: Account, b: Binding)
    requires Over(s, a, b)
    ensures Invalidate(s, a, b.generation) == s
    ensures forall found :: Reread(s, a, b, found) == s
  {
  }

  // ---------------------------------------------------------------------
  // Clients
  // ---------------------------------------------------------------------

  /** Every client belongs to the binding its account is on now. */
  predicate ClientsCurrent(s: State) {
    forall k <- s.clients :: k.account in s.seen && k.generation == s.seen[k.account].generation
  }

  /** A client is asked for only with the binding just observed, as prepare does. */
  predicate Serialized(s: State, op: Op) {
    op.GetOp? ==> On(s, op.a, op.b)
  }

  lemma StepKeepsClientsCurrent(s: State, op: Op)
    requires Counted(s) && ClientsCurrent(s) && Serialized(s, op)
    ensures ClientsCurrent(Step(s, op)) && Credible(s, op)
  {
  }

  predicate AllSerialized(s: State, ops: seq<Op>)
    decreases |ops|
  {
    ops == [] || (AllSerialized(s, ops[..|ops| - 1]) && Serialized(Run(s, ops[..|ops| - 1]), ops[|ops| - 1]))
  }

  /** Over every serialized run no client outlives its binding: an outage closes them all, a move closes the old ones. */
  lemma {:induction false} NoClientOutlivesItsBinding(ops: seq<Op>)
    requires AllSerialized(INITIAL, ops)
    ensures Counted(Run(INITIAL, ops)) && ClientsCurrent(Run(INITIAL, ops))
    decreases |ops|
  {
    if ops != [] {
      var n := |ops| - 1;
      NoClientOutlivesItsBinding(ops[..n]);
      StepKeepsClientsCurrent(Run(INITIAL, ops[..n]), ops[n]);
      StepCounts(Run(INITIAL, ops[..n]), ops[n]);
    }
  }

  /** A client of the account with a generation above g was built, and the pool not closed since. */
  predicate NewerBuilt(s: State, ops: seq<Op>, a: Account, g: nat)
    decreases |ops|
  {
    if ops == [] then false
    else
      var m, op := Run(s, ops[..|ops| - 1]), ops[|ops| - 1];
      match op
      case CloseOp => false
      case GetOp(x, b, gateway, built) =>
        NewerBuilt(s, ops[..|ops| - 1], a, g)
        || (x == a && b.generation > g && Served(m, x, b, gateway, built) && KeyOf(x, b, gateway) !in m.clients)
      case _ => NewerBuilt(s, ops[..|ops| - 1], a, g)
  }

  /** What the pool remembers is exactly that. */
  lemma {:induction false} NewestMeansBuilt(ops: seq<Op>, a: Account, g: nat)
    ensures var t := Run(INITIAL, ops);
            (a in t.newest && t.newest[a] > g) <==> NewerBuilt(INITIAL, ops, a, g)
    decreases |ops|
  {
    if ops != [] {
      NewestMeansBuilt(ops[..|ops| - 1], a, g);
    }
  }

  /**
   The pool does not always turn a late worker away. Over every run: a request is served
   exactly when its client is still there, or no client of a newer generation was built
   since the pool was last closed.
   */
  lemma ServedUnlessNewerClient(ops: seq<Op>, a: Account, b: Binding, gateway: string)
    requires a != "" && b.generation != 0 && Ready(b)
    ensures var t := Run(INITIAL, ops);
            Served(t, a, b, gateway, true) <==> KeyOf(a, b, gateway) in t.clients || !NewerBuilt(INITIAL, ops, a, b.generation)
  {
    NewestMeansBuilt(ops, a, b.generation);
    hide NewerBuilt, Run;
  }

  /** And a client served for an ended binding outlives the next observation of the unchanged line. */
  lemma StaleClientSurvives(s: State, a: Account, late: Binding, gateway: string)
    requires Over(s, a, late) && a in s.seen && Served(s, a, late, gateway, true)
    ensures var u := Observed(Get(s, a, late, gateway, true), a, Some(s.seen[a].line));
            KeyOf(a, late, gateway) in u.clients && !ClientsCurrent(u)
  {
    var t := Get(s, a, late, gateway, true);
    var u := Observed(t, a, Some(s.seen[a].line));
    assert u == t;
    assert KeyOf(a, late, gateway) in u.clients;
  }

  /** Such a run: the line moves between two observations, then the first worker asks. */
  lemma LateWorkerIsServed()
    ensures var first, second := Line("eth0", 2, "10.0.0.2", []), Line("eth0", 2, "10.0.0.3", []);
            var t := Run(INITIAL, [ObserveOp("a", Some(first)), ObserveOp("a", Some(second))]);
            && On(t, "a", Binding(second, 2)) && Over(t, "a", Binding(first, 1))
            && Served(t, "a", Binding(first, 1), "g", true)
  {
    var first, second := Line("eth0", 2, "10.0.0.2", []), Line("eth0", 2, "10.0.0.3", []);
    var ops := [ObserveOp("a", Some(first)), ObserveOp("a", Some(second))];
    assert ops[..1] == [ops[0]] && ops[..1][..0] == [];
    assert Run(INITIAL, []) == INITIAL;
    var m := Run(INITIAL, ops[..1]);
    assert m == Observed(INITIAL, "a", Some(first));
    assert m.seen == map["a" := Binding(first, 1)] && m.generation == 1;
    assert first.source[7] != second.source[7];
    assert Run(INITIAL, ops) == Observed(m, "a", Some(second));
  }

  /** Retiring closes exactly the older clients of that account; every other account keeps all of its own. */
  lemma RetireTouchesOneAccount(s: State, a: Account, g: nat, k: Key)
    ensures k in Retired(s, a, g).clients <==> k in s.clients && (k.account != a || k.generation >= g)
  {
  }

  /** A moving or failing line of one account leaves every other account's binding and clients alone. */
  lemma AccountsAreIndependent(s: State, op: Op, other: Account, k: Key)
    requires match op
             case ObserveOp(x, _) => x != other
             case RereadOp(x, _, _) => x != other
             case InvalidateOp(x, _) => x != other
             case GetOp(x, _, _, _) => x != other
             case CloseOp => false
    requires k.account == other
    ensures var t := Step(s, op);
            && (other in t.seen <==> other in s.seen) && (other in s.seen ==> t.seen[other] == s.seen[other])
            && (k in t.clients <==> k in s.clients)
            && (other in t.newest <==> other in s.newest) && (other in s.newest ==> t.newest[other] == s.newest[other])
  {
  }
}
