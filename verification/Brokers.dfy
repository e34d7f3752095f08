/** The broker: the only authority on orders, executions and the position. It may
    fill, cancel or reject an order whenever it likes; nothing about when or how
    often it reports what it did is fixed here. */
module Brokers {
  import opened Wrappers
  import opened Models
  import opened RiskCounters
  import opened LogView

  datatype OrderStatus = OPEN | FILLED | CANCELLED | REJECTED

  datatype BrokerOrder = BrokerOrder(intent: OrderIntent, filled: nat, status: OrderStatus) {
    function Remaining(): nat {
      if filled < intent.quantity then intent.quantity - filled else 0
    }

    function SignedRemaining(): int {
      var r: int := Remaining();
      if intent.side.BUY? then r else -r
    }
  }

  datatype Book = Book(orders: map<Ref, BrokerOrder>, executions: seq<Execution>, position: int)

  /** What placing an order can do: accepted, cleanly refused, or unknown. */
  datatype Placement = Accepted | Rejected | Uncertain

  predicate IsOpen(b: Book, r: Ref) {
    r in b.orders && b.orders[r].status.OPEN?
  }

  function SumAll(xs: seq<Execution>): int {
    if xs == [] then 0 else SumAll(xs[..|xs| - 1]) + xs[|xs| - 1].Signed()
  }

  function FilledAll(xs: seq<Execution>, r: Ref): nat {
    if xs == [] then 0
    else FilledAll(xs[..|xs| - 1], r) + (if xs[|xs| - 1].ref == r then xs[|xs| - 1].quantity else 0)
  }

  /** One broker order as a book entry: identity, and the target it was sized for. */
  predicate OrderSound(b: Book, r: Ref, limit: int)
    requires r in b.orders
  {
    var o := b.orders[r];
    && o.intent.ref == r
    && 0 < o.intent.quantity
    && o.filled <= o.intent.quantity
    && o.filled == FilledAll(b.executions, r)
    && (o.status.REJECTED? ==> o.filled == 0)
    && (o.status.OPEN? ==>
          && o.filled < o.intent.quantity
          && b.position + o.SignedRemaining() == o.intent.target
          && Abs(o.intent.target) <= limit)
  }

  predicate ExecutionSound(b: Book, i: nat)
    requires i < |b.executions|
  {
    var x := b.executions[i];
    && x.id == i
    && x.ref in b.orders
    && 0 < x.quantity
    && x.side == b.orders[x.ref].intent.side
    && !x.isReversal
    && x.corrects.None?
  }

  /** The exposure invariant: at most one order can still fill, what is left of it
      leads exactly to its target, and the position is inside the limit. */
  ghost predicate Sound(b: Book, limit: int) {
    && (forall r, s :: IsOpen(b, r) && IsOpen(b, s) ==> r == s)
    && (forall r :: r in b.orders ==> OrderSound(b, r, limit))
    && (forall i :: 0 <= i < |b.executions| ==> ExecutionSound(b, i))
    && b.position == SumAll(b.executions)
    && Abs(b.position) <= limit
  }

  // ---- what the broker can do ------------------------------------------

  function WithOrder(b: Book, intent: OrderIntent): Book {
    b.(orders := b.orders[intent.ref := BrokerOrder(intent, 0, OPEN)])
  }

  function WithFill(b: Book, r: Ref, quantity: nat): Book
    requires IsOpen(b, r)
  {
    var o := b.orders[r];
    var x := Execution(|b.executions|, r, o.intent.side, quantity, false, None);
    var filled := o.filled + quantity;
    Book(b.orders[r := BrokerOrder(o.intent, filled, if filled >= o.intent.quantity then FILLED else OPEN)],
         b.executions + [x],
         b.position + x.Signed())
  }

  function WithStatus(b: Book, r: Ref, status: OrderStatus): Book
    requires r in b.orders
  {
    b.(orders := b.orders[r := b.orders[r].(status := status)])
  }

  class Broker {
    var orders: map<Ref, BrokerOrder>
    var executions: seq<Execution>
    var position: int
    var placeCalls: seq<Ref>
    var cancelCalls: seq<Ref>

    constructor ()
      ensures Books() == Book(map[], [], 0) && placeCalls == []
    {
      orders, executions, position := map[], [], 0;
      placeCalls, cancelCalls := [], [];
    }

    function Books(): Book
      reads this
    {
      Book(orders, executions, position)
    }

    method PlaceOrder(intent: OrderIntent) returns (p: Placement)
      modifies this
      ensures placeCalls == old(placeCalls) + [intent.ref] && cancelCalls == old(cancelCalls)
      ensures p.Accepted? ==> Books() == WithOrder(old(Books()), intent)
      ensures p.Rejected? ==> Books() == old(Books())
      ensures Books() == old(Books()) || Books() == WithOrder(old(Books()), intent)
    {
      placeCalls := placeCalls + [intent.ref];
      p := *;
      var created: bool := *;
      if p.Accepted? || (p.Uncertain? && created) {
        orders := orders[intent.ref := BrokerOrder(intent, 0, OPEN)];
      }
    }

    /** A cancel request may raise, vanish, take effect at once, or later. */
    method CancelOrder(r: Ref) returns (raised: bool)
      modifies this
      ensures cancelCalls == old(cancelCalls) + [r] && placeCalls == old(placeCalls)
      ensures Books() == old(Books()) || (IsOpen(old(Books()), r) && Books() == WithStatus(old(Books()), r, CANCELLED))
    {
      cancelCalls := cancelCalls + [r];
      raised := *;
      var now: bool := *;
      if !raised && now && IsOpen(Books(), r) {
        orders := orders[r := orders[r].(status := CANCELLED)];
      }
    }

    /** The broker fills part or all of an open order. */
    method Fill(r: Ref, quantity: nat)
      modifies this`orders, this`executions, this`position
      ensures Books() == if IsOpen(old(Books()), r) && 0 < quantity <= old(orders[r]).Remaining()
                         then WithFill(old(Books()), r, quantity) else old(Books())
    {
      if IsOpen(Books(), r) && 0 < quantity <= orders[r].Remaining() {
        var o := orders[r];
        var x := Execution(|executions|, r, o.intent.side, quantity, false, None);
        executions := executions + [x];
        position := position + x.Signed();
        var filled := o.filled + quantity;
        orders := orders[r := BrokerOrder(o.intent, filled, if filled >= o.intent.quantity then FILLED else OPEN)];
      }
    }

    /** The broker ends an open order by itself; it rejects only unfilled ones. */
    method End(r: Ref, reject: bool)
      modifies this`orders
      ensures Books() == if IsOpen(old(Books()), r) && (reject ==> old(orders[r]).filled == 0)
                         then WithStatus(old(Books()), r, if reject then REJECTED else CANCELLED)
                         else old(Books())
    {
      if IsOpen(Books(), r) && (reject ==> orders[r].filled == 0) {
        orders := orders[r := orders[r].(status := if reject then REJECTED else CANCELLED)];
      }
    }
  }

  // ---- the exposure invariant is kept ----------------------------------

  lemma FilledAllOfUnknown(b: Book, limit: int, r: Ref)
    requires Sound(b, limit) && r !in b.orders
    ensures FilledAll(b.executions, r) == 0
  {
    forall i | 0 <= i < |b.executions|
      ensures b.executions[i].ref != r
    {
      assert ExecutionSound(b, i);
    }
    NoExecutionsOf(b.executions, r, |b.executions|);
    assert b.executions[..|b.executions|] == b.executions;
  }

  lemma {:induction false} NoExecutionsOf(xs: seq<Execution>, r: Ref, n: nat)
    requires n <= |xs|
    requires forall i :: 0 <= i < n ==> xs[i].ref != r
    ensures FilledAll(xs[..n], r) == 0
  {
    if n > 0 {
      NoExecutionsOf(xs, r, n - 1);
      assert xs[..n][..n - 1] == xs[..n - 1];
    }
  }

  /** Placing an order that starts at rest and is sized for its target is safe. */
  lemma PlacingKeepsSound(b: Book, limit: int, intent: OrderIntent)
    requires Sound(b, limit)
    requires intent.ref !in b.orders && (forall r :: !IsOpen(b, r))
    requires 0 < intent.quantity && b.position + intent.Signed() == intent.target && Abs(intent.target) <= limit
    ensures Sound(WithOrder(b, intent), limit)
  {
    FilledAllOfUnknown(b, limit, intent.ref);
    var b' := WithOrder(b, intent);
    assert b'.orders[intent.ref].SignedRemaining() == intent.Signed();
    forall r | r in b'.orders
      ensures OrderSound(b', r, limit)
    {
      if r != intent.ref {
        assert !IsOpen(b, r) && OrderSound(b, r, limit);
      }
    }
    forall i | 0 <= i < |b'.executions|
      ensures ExecutionSound(b', i)
    {
      assert ExecutionSound(b, i);
    }
    assert forall r :: IsOpen(b', r) ==> r == intent.ref || IsOpen(b, r);
  }

  lemma FillKeepsSound(b: Book, limit: int, r: Ref, quantity: nat)
    requires Sound(b, limit) && IsOpen(b, r) && 0 < quantity <= b.orders[r].Remaining()
    ensures Sound(WithFill(b, r, quantity), limit)
    ensures var b' := WithFill(b, r, quantity);
      b'.orders[r].status.FILLED? ==> b'.position == b.orders[r].intent.target
  {
    var b' := WithFill(b, r, quantity);
    assert OrderSound(b, r, limit);
    assert b'.executions[..|b'.executions| - 1] == b.executions;
    forall s | s in b'.orders
      ensures OrderSound(b', s, limit)
    {
      assert OrderSound(b, s, limit) && (s != r ==> !IsOpen(b, s));
    }
    forall i | 0 <= i < |b'.executions|
      ensures ExecutionSound(b', i)
    {
      if i < |b.executions| {
        assert ExecutionSound(b, i);
      }
    }
    forall s, t | IsOpen(b', s) && IsOpen(b', t)
      ensures s == t
    {
      assert IsOpen(b, s) && IsOpen(b, t);
    }
  }

  lemma EndingKeepsSound(b: Book, limit: int, r: Ref, status: OrderStatus)
    requires Sound(b, limit) && IsOpen(b, r) && !status.OPEN? && !status.FILLED?
    requires status.REJECTED? ==> b.orders[r].filled == 0
    ensures Sound(WithStatus(b, r, status), limit)
  {
    var b' := WithStatus(b, r, status);
    forall s | s in b'.orders
      ensures OrderSound(b', s, limit)
    {
      assert OrderSound(b, s, limit);
    }
    forall i | 0 <= i < |b'.executions|
      ensures ExecutionSound(b', i)
    {
      assert ExecutionSound(b, i);
    }
    assert forall s :: IsOpen(b', s) ==> IsOpen(b, s);
  }

  /** The book after a run of fills of one order. */
  function ApplyFills(b: Book, r: Ref, fills: seq<nat>): Book
    decreases |fills|
  {
    if fills == [] || !IsOpen(b, r) then b else ApplyFills(WithFill(b, r, fills[0]), r, fills[1..])
  }

  function TotalOf(fills: seq<nat>): nat {
    if fills == [] then 0 else fills[0] + TotalOf(fills[1..])
  }

  /** However an order's fills are split, and wherever one looks: every book on the way
      is sound, so the position is inside the limit; until the last fill the order
      stays open; and the last one lands exactly on the target it was sized for. */
  lemma {:induction false} FillsLandOnTarget(b: Book, limit: int, r: Ref, fills: seq<nat>, n: nat)
    requires Sound(b, limit) && IsOpen(b, r)
    requires forall k :: 0 <= k < |fills| ==> fills[k] > 0
    requires TotalOf(fills) == b.orders[r].Remaining() && n <= |fills|
    ensures var now := ApplyFills(b, r, fills[..n]);
      && Sound(now, limit)
      && |now.executions| == |b.executions| + n
      && r in now.orders && now.orders[r].intent == b.orders[r].intent
      && (n < |fills| ==> IsOpen(now, r))
      && (n == |fills| ==> now.orders[r].status.FILLED? && now.position == b.orders[r].intent.target)
    decreases n
  {
    assert OrderSound(b, r, limit);
    if n > 0 {
      var b' := WithFill(b, r, fills[0]);
      FillKeepsSound(b, limit, r, fills[0]);
      assert fills[..n][1..] == fills[1..][..n - 1];
      if |fills| > 1 {
        FillsLandOnTarget(b', limit, r, fills[1..], n - 1);
      }
    }
  }

  // ---- the ledger against the broker's executions ------------------------

  /** Sum of the signed quantities of the executions whose ids are claimed. */
  function ClaimedSum(xs: seq<Execution>, ids: set<ExecId>): int {
    if xs == [] then 0
    else ClaimedSum(xs[..|xs| - 1], ids) + (if |xs| - 1 in ids then xs[|xs| - 1].Signed() else 0)
  }

  function ClaimedFill(xs: seq<Execution>, ids: set<ExecId>, r: Ref): int {
    if xs == [] then 0
    else ClaimedFill(xs[..|xs| - 1], ids, r) +
         (if |xs| - 1 in ids && xs[|xs| - 1].ref == r then xs[|xs| - 1].Filled() else 0)
  }

  lemma {:induction false} ClaimOneMore(xs: seq<Execution>, ids: set<ExecId>, i: nat, r: Ref)
    requires i !in ids
    ensures ClaimedSum(xs, ids + {i}) == ClaimedSum(xs, ids) + (if i < |xs| then xs[i].Signed() else 0)
    ensures ClaimedFill(xs, ids + {i}, r) ==
            ClaimedFill(xs, ids, r) + (if i < |xs| && xs[i].ref == r then xs[i].Filled() else 0)
  {
    if xs != [] {
      ClaimOneMore(xs[..|xs| - 1], ids, i, r);
    }
  }

  lemma {:induction false} ClaimNone(xs: seq<Execution>, r: Ref)
    ensures ClaimedSum(xs, {}) == 0 && ClaimedFill(xs, {}, r) == 0
  {
    if xs != [] {
      ClaimNone(xs[..|xs| - 1], r);
    }
  }

  lemma {:induction false} ClaimAll(xs: seq<Execution>, ids: set<ExecId>)
    requires forall i :: 0 <= i < |xs| ==> i in ids
    ensures ClaimedSum(xs, ids) == SumAll(xs)
  {
    if xs != [] {
      ClaimAll(xs[..|xs| - 1], ids);
    }
  }

  /** Claims of an order never exceed its fills, and fall short if one is missing. */
  lemma {:induction false} ClaimsWithinFills(xs: seq<Execution>, ids: set<ExecId>, r: Ref)
    requires forall i :: 0 <= i < |xs| ==> !xs[i].isReversal && 0 < xs[i].quantity
    ensures ClaimedFill(xs, ids, r) <= FilledAll(xs, r)
    ensures (exists i :: 0 <= i < |xs| && xs[i].ref == r && i !in ids) ==> ClaimedFill(xs, ids, r) < FilledAll(xs, r)
  {
    if xs != [] {
      var m := |xs| - 1;
      ClaimsWithinFills(xs[..m], ids, r);
      if i :| 0 <= i < |xs| && xs[i].ref == r && i !in ids {
        assert i < m ==> xs[..m][i] == xs[i];
      }
    }
  }

  /** Every booking in the ledger is a true execution of the broker. */
  predicate LedgerTrue(lg: Ledger, xs: seq<Execution>) {
    forall x :: x in lg.booked ==> x < |xs| && lg.booked[x] == xs[x]
  }

  /** The expected position of a lawful log is the sum over the distinct ids it
      booked, however and in whatever order they arrived. */
  lemma {:induction false} ExpectedIsClaimedSum(config: RiskConfig, log: seq<Record>, xs: seq<Execution>, r: Ref)
    requires Fold(config, log).lawful
    requires LedgerTrue(Fold(config, log).ledger, xs)
    ensures var lg := Fold(config, log).ledger;
      && lg.expected == ClaimedSum(xs, lg.booked.Keys)
      && FilledOf(lg, r) == ClaimedFill(xs, lg.booked.Keys, r)
  {
    if log == [] {
      ClaimNone(xs, r);
      assert Fold(config, log).ledger.booked.Keys == {};
    } else {
      var m := |log| - 1;
      PrefixFacts(config, log, m);
      var p, lg := Fold(config, log[..m]).ledger, Fold(config, log).ledger;
      ExpectedIsClaimedSum(config, log[..m], xs, r);
      if log[m].event.ExecutionReceived? {
        var x := log[m].event.execution;
        assert x.id in lg.booked && lg.booked[x.id] == x;
        assert lg.booked.Keys == p.booked.Keys + {x.id};
        ClaimOneMore(xs, p.booked.Keys, x.id, r);
      }
    }
  }
}
