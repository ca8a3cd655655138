/**
 * The order queue: two parallel per-floor flag vectors, one for stops to make
 * while travelling up and one for stops to make while travelling down.
 *
 * `Orders` is the abstract value of the queue and the functions over it are
 * its specification; `OrderQueue` keeps the two vectors in arrays that its
 * methods update in place, as the source's static arrays are.
 */
module Queue {
  import opened Hardware

  datatype Orders = Orders(up: seq<bool>, down: seq<bool>)

  /** The two vectors cover the same floors. */
  predicate WellFormed(q: Orders) {
    |q.up| == |q.down|
  }

  /** Number of floors the queue covers. */
  function Size(q: Orders): nat {
    |q.up|
  }

  /** Floor `f` has an order, in either direction. */
  predicate HasOrder(q: Orders, f: nat)
    requires WellFormed(q) && f < Size(q)
  {
    q.up[f] || q.down[f]
  }

  /** Some floor in [f, N) has an order; the floor itself counts. */
  predicate AnyAbove(q: Orders, f: nat)
    requires WellFormed(q)
  {
    exists g :: f <= g < Size(q) && HasOrder(q, g)
  }

  /** Some floor in [0, f] has an order; the floor itself counts. */
  predicate AnyBelow(q: Orders, f: nat)
    requires WellFormed(q) && f < Size(q)
  {
    exists g :: 0 <= g <= f && HasOrder(q, g)
  }

  /** The entry that a stop at `f` while moving `m` is made for; none when stopped. */
  function OrderedAt(q: Orders, f: nat, m: Movement): bool
    requires WellFormed(q) && f < Size(q)
  {
    match m
    case MoveUp => q.up[f]
    case MoveDown => q.down[f]
    case MoveStop => false
  }

  /** Whether a call of type `o` asks for a stop while moving `m`. */
  predicate Serves(o: Order, m: Movement) {
    match o
    case OrderInside => m != MoveStop
    case OrderUp => m == MoveUp
    case OrderDown => m == MoveDown
  }

  /** The queue after a call of type `o` at floor `f` is recorded. */
  function WithOrder(q: Orders, f: nat, o: Order): (r: Orders)
    requires WellFormed(q) && f < Size(q)
    ensures WellFormed(r) && Size(r) == Size(q)
  {
    match o
    case OrderInside => Orders(q.up[f := true], q.down[f := true])
    case OrderUp => Orders(q.up[f := true], q.down)
    case OrderDown => Orders(q.up, q.down[f := true])
  }

  /** The queue after both entries at floor `f` are cleared. */
  function WithoutFloor(q: Orders, f: nat): (r: Orders)
    requires WellFormed(q) && f < Size(q)
    ensures WellFormed(r) && Size(r) == Size(q)
  {
    Orders(q.up[f := false], q.down[f := false])
  }

  /** The empty queue over `n` floors. */
  function Cleared(n: nat): (r: Orders)
    ensures WellFormed(r) && Size(r) == n
  {
    Orders(seq(n, _ => false), seq(n, _ => false))
  }

  /**
   * Recording a call adds exactly the entries the call serves at its floor:
   * a cabin call both, a hall call only its own direction, and no entry at
   * any other floor changes.
   */
  lemma WithOrderAt(q: Orders, f: nat, o: Order, g: nat, m: Movement)
    requires WellFormed(q) && f < Size(q) && g < Size(q)
    ensures OrderedAt(WithOrder(q, f, o), g, m) == (OrderedAt(q, g, m) || (g == f && Serves(o, m)))
  {
  }

  /** Recording the same call twice is the same as recording it once. */
  lemma WithOrderIdempotent(q: Orders, f: nat, o: Order)
    requires WellFormed(q) && f < Size(q)
    ensures WithOrder(WithOrder(q, f, o), f, o) == WithOrder(q, f, o)
  {
  }

  /** Clearing a floor empties both its entries and leaves every other floor as it was. */
  lemma WithoutFloorAt(q: Orders, f: nat, g: nat, m: Movement)
    requires WellFormed(q) && f < Size(q) && g < Size(q)
    ensures OrderedAt(WithoutFloor(q, f), g, m) == (g != f && OrderedAt(q, g, m))
    ensures !HasOrder(WithoutFloor(q, f), f)
  {
  }

  /** Clearing a floor twice is the same as clearing it once. */
  lemma WithoutFloorIdempotent(q: Orders, f: nat)
    requires WellFormed(q) && f < Size(q)
    ensures WithoutFloor(WithoutFloor(q, f), f) == WithoutFloor(q, f)
  {
  }

  /** The empty queue answers no to every range query, and to every point query. */
  lemma ClearedIsEmpty(n: nat, f: nat, m: Movement)
    requires f < n
    ensures !AnyAbove(Cleared(n), f) && !AnyBelow(Cleared(n), f)
    ensures !OrderedAt(Cleared(n), f, m)
  {
  }

  /**
   * Together the two range queries from any floor see the whole shaft: one
   * of them holds exactly when some floor has an order.
   */
  lemma AboveOrBelow(q: Orders, f: nat)
    requires WellFormed(q) && f < Size(q)
    ensures (AnyAbove(q, f) || AnyBelow(q, f)) <==> exists g :: 0 <= g < Size(q) && HasOrder(q, g)
  {
  }

  /** The queue's storage: the two flag arrays, updated in place. */
  class OrderQueue {
    const floors: nat
    const orderUp: array<bool>
    const orderDown: array<bool>

    ghost predicate Valid() {
      orderUp.Length == floors && orderDown.Length == floors && orderUp != orderDown
    }

    /** The abstract value held by the arrays. */
    ghost function Model(): (q: Orders)
      reads orderUp, orderDown
      requires Valid()
      ensures WellFormed(q) && Size(q) == floors
    {
      Orders(orderUp[..], orderDown[..])
    }

    /** The static arrays start out zeroed: no orders. */
    constructor (n: nat)
      ensures Valid() && floors == n
      ensures fresh(orderUp) && fresh(orderDown)
      ensures Model() == Cleared(n)
    {
      floors := n;
      orderUp := new bool[n](_ => false);
      orderDown := new bool[n](_ => false);
    }

    /** queue_set_order: record a call of type `o` at floor `f`. */
    method SetOrder(f: nat, o: Order)
      requires Valid() && f < floors
      modifies orderUp, orderDown
      ensures Model() == WithOrder(old(Model()), f, o)
    {
      if o == OrderInside {
        orderUp[f] := true;
        orderDown[f] := true;
      }
      if o == OrderUp {
        orderUp[f] := true;
      }
      if o == OrderDown {
        orderDown[f] := true;
      }
    }

    /** queue_order_above: scan upwards from `f` for any order. */
    method OrderAbove(f: nat) returns (r: bool)
      requires Valid() && f < floors
      ensures r == AnyAbove(Model(), f)
    {
      var g := f;
      while g < floors
        invariant f <= g <= floors
        invariant forall h :: f <= h < g ==> !HasOrder(Model(), h)
      {
        if orderUp[g] || orderDown[g] {
          assert HasOrder(Model(), g);
          return true;
        }
        g := g + 1;
      }
      return false;
    }

    /** queue_order_below: scan downwards from `f` for any order. */
    method OrderBelow(f: nat) returns (r: bool)
      requires Valid() && f < floors
      ensures r == AnyBelow(Model(), f)
    {
      var g: int := f;
      while g >= 0
        invariant -1 <= g <= f
        invariant forall h :: g < h <= f ==> !HasOrder(Model(), h)
      {
        if orderUp[g] || orderDown[g] {
          assert HasOrder(Model(), g);
          return true;
        }
        g := g - 1;
      }
      return false;
    }

    /** queue_order_at: the entry for direction `m` at floor `f`; false when `m` is a stop. */
    method OrderAt(f: nat, m: Movement) returns (r: bool)
      requires Valid() && f < floors
      ensures m == MoveUp ==> r == orderUp[f]
      ensures m == MoveDown ==> r == orderDown[f]
      ensures m == MoveStop ==> !r
    {
      if m == MoveUp {
        return orderUp[f];
      }
      if m == MoveDown {
        return orderDown[f];
      }
      return false;
    }

    /** queue_delete_element: clear both entries at floor `f`. */
    method DeleteElement(f: nat)
      requires Valid() && f < floors
      modifies orderUp, orderDown
      ensures Model() == WithoutFloor(old(Model()), f)
    {
      orderUp[f] := false;
      orderDown[f] := false;
    }

    /** queue_delete_all: clear every entry. */
    method DeleteAll()
      requires Valid()
      modifies orderUp, orderDown
      ensures Model() == Cleared(floors)
    {
      var i := 0;
      while i < floors
        invariant 0 <= i <= floors
        invariant forall j :: 0 <= j < i ==> !orderUp[j] && !orderDown[j]
      {
        orderUp[i] := false;
        orderDown[i] := false;
        i := i + 1;
      }
      assert orderUp[..] == Cleared(floors).up;
      assert orderDown[..] == Cleared(floors).down;
    }
  }
}
