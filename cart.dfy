/** The cart ledger of the cart screen: line items, the two list updates the
    screen's event handlers perform (set a quantity, remove an item), the
    arguments the increment and decrement buttons pass, and the derived
    subtotal, tax, shipping and total. */
module CartScreen {

  /** Kotlin's `Int`: a signed 32-bit integer. */
  const MinInt: int := -0x8000_0000
  const MaxInt: int := 0x7FFF_FFFF
  type Int32 = x: int | MinInt <= x <= MaxInt

  /** A Kotlin `Int` addition result: the exact sum reduced modulo 2^32 into
      the signed range (two's-complement wrap-around). */
  function Wrap(x: int): (r: Int32)
    ensures MinInt <= x <= MaxInt ==> r == x
    ensures (r - x) % 0x1_0000_0000 == 0
  {
    var m := (x - MinInt) % 0x1_0000_0000;
    m + MinInt
  }

  /** One line of the cart. `price` is an exact amount (the source's `Double`
      is not modelled); `quantity` is a Kotlin `Int`. */
  datatype CartItem = CartItem(id: string, title: string, price: real, quantity: Int32, imageUrl: string)

  /** Every entry has quantity at least one. */
  predicate AllPositive(items: seq<CartItem>)
  {
    forall i :: 0 <= i < |items| ==> items[i].quantity >= 1
  }

  /** At most one entry per id. */
  predicate UniqueIds(items: seq<CartItem>)
  {
    forall i, j :: 0 <= i < j < |items| ==> items[i].id != items[j].id
  }

  /** No entry carries `id`. */
  predicate Absent(items: seq<CartItem>, id: string)
  {
    forall i :: 0 <= i < |items| ==> items[i].id != id
  }

  /** Every price is non-negative. */
  predicate NonNegativePrices(items: seq<CartItem>)
  {
    forall i :: 0 <= i < |items| ==> items[i].price >= 0.0
  }

  /** The two demo entries the cart state is seeded with. */
  function Seed(): (r: seq<CartItem>)
    ensures |r| == 2 && AllPositive(r) && UniqueIds(r) && NonNegativePrices(r)
    ensures Subtotal(r) == 699.97
  {
    [ CartItem("1", "Wireless Headphones", 299.99, 1, "https://picsum.photos/200/200?random=1"),
      CartItem("2", "Smart Watch", 199.99, 2, "https://picsum.photos/200/200?random=2") ]
  }

  // ---------------------------------------------------------------------
  // List updates
  // ---------------------------------------------------------------------

  /** The `map` branch of the quantity change: every entry with `id` is copied
      with the new quantity, every other entry is kept, length and order are
      kept. */
  function WithQuantity(items: seq<CartItem>, id: string, q: Int32): (r: seq<CartItem>)
    ensures |r| == |items|
    ensures forall i :: 0 <= i < |items| && items[i].id == id ==> r[i] == items[i].(quantity := q)
    ensures forall i :: 0 <= i < |items| && items[i].id != id ==> r[i] == items[i]
  {
    if items == [] then []
    else [if items[0].id == id then items[0].(quantity := q) else items[0]] + WithQuantity(items[1..], id, q)
  }

  /** The `filter` that drops every entry with `id`. */
  function Without(items: seq<CartItem>, id: string): (r: seq<CartItem>)
    ensures |r| <= |items|
    ensures Absent(r, id)
  {
    if items == [] then []
    else if items[0].id == id then Without(items[1..], id)
    else [items[0]] + Without(items[1..], id)
  }

  /** The quantity-change handler: a positive quantity is written onto the
      entries with `id`, zero or less removes them. */
  function SetQuantity(items: seq<CartItem>, id: string, q: Int32): (r: seq<CartItem>)
    ensures |r| <= |items|
    ensures q > 0 ==> |r| == |items| && forall i :: 0 <= i < |r| ==> r[i].id == items[i].id
    ensures q > 0 ==> forall i :: 0 <= i < |r| ==>
      r[i].quantity == if items[i].id == id then q else items[i].quantity
    ensures q <= 0 ==> Absent(r, id)
  {
    if q > 0 then WithQuantity(items, id, q) else Without(items, id)
  }

  /** The argument of the increase button: `quantity + 1` in Kotlin `Int`. */
  function IncrementArg(q: Int32): (r: Int32)
    ensures q < MaxInt ==> r == q + 1
    ensures q == MaxInt ==> r == MinInt
  {
    Wrap(q + 1)
  }

  /** The argument of the decrease button: `quantity - 1` in Kotlin `Int`. */
  function DecrementArg(q: Int32): (r: Int32)
    ensures q > MinInt ==> r == q - 1
    ensures q == MinInt ==> r == MaxInt
  {
    Wrap(q - 1)
  }

  /** The increase button of the row showing `item`. */
  function Increment(items: seq<CartItem>, item: CartItem): (r: seq<CartItem>)
    ensures 0 <= item.quantity < MaxInt ==> |r| == |items|
    ensures 0 <= item.quantity < MaxInt ==> forall i :: 0 <= i < |items| ==>
      r[i] == if items[i].id == item.id then items[i].(quantity := item.quantity + 1) else items[i]
    ensures item.quantity == MaxInt ==> r == Without(items, item.id)
  {
    SetQuantity(items, item.id, IncrementArg(item.quantity))
  }

  /** The decrease button of the row showing `item`. */
  function Decrement(items: seq<CartItem>, item: CartItem): (r: seq<CartItem>)
    ensures MinInt < item.quantity <= 1 ==> r == Without(items, item.id)
    ensures item.quantity > 1 ==> |r| == |items|
    ensures item.quantity > 1 ==> forall i :: 0 <= i < |items| ==>
      r[i] == if items[i].id == item.id then items[i].(quantity := item.quantity - 1) else items[i]
  {
    SetQuantity(items, item.id, DecrementArg(item.quantity))
  }

  // ---------------------------------------------------------------------
  // Properties of the list updates
  // ---------------------------------------------------------------------

  /** Filtering distributes over concatenation: together with the one-element
      case this pins the result down, so the kept entries stay in order. */
  lemma {:induction false} WithoutAppend(a: seq<CartItem>, b: seq<CartItem>, id: string)
    ensures Without(a + b, id) == Without(a, id) + Without(b, id)
  {
    if a == [] {
      assert a + b == b;
    } else {
      assert (a + b)[1..] == a[1..] + b;
      WithoutAppend(a[1..], b, id);
    }
  }

  /** The entries of the result are exactly the entries of the input that do
      not carry `id`. */
  lemma {:induction false} WithoutMembers(items: seq<CartItem>, id: string, e: CartItem)
    ensures e in Without(items, id) <==> e in items && e.id != id
  {
    if items != [] {
      assert e in items <==> e == items[0] || e in items[1..];
      WithoutMembers(items[1..], id, e);
    }
  }

  /** Each entry without `id` keeps its multiplicity; entries with `id` are gone. */
  lemma {:induction false} WithoutMultiplicity(items: seq<CartItem>, id: string, e: CartItem)
    ensures multiset(Without(items, id))[e] == if e.id == id then 0 else multiset(items)[e]
  {
    if items != [] {
      assert items == [items[0]] + items[1..];
      WithoutMultiplicity(items[1..], id, e);
    }
  }

  /** Filtering out an id no entry has changes nothing. */
  lemma {:induction false} WithoutAbsent(items: seq<CartItem>, id: string)
    requires Absent(items, id)
    ensures Without(items, id) == items
  {
    if items != [] {
      WithoutAbsent(items[1..], id);
    }
  }

  /** Removing twice is removing once. */
  lemma WithoutIdempotent(items: seq<CartItem>, id: string)
    ensures Without(Without(items, id), id) == Without(items, id)
  {
  }

  /** An absent id: the quantity change, whatever the quantity, and the
      removal both return the input unchanged. */
  lemma AbsentIsNoOp(items: seq<CartItem>, id: string, q: Int32)
    requires Absent(items, id)
    ensures SetQuantity(items, id, q) == items
    ensures Without(items, id) == items
  {
  }

  /** The writing branch agrees with the Kotlin `map` on a concatenation. */
  lemma WithQuantityAppend(a: seq<CartItem>, b: seq<CartItem>, id: string, q: Int32)
    ensures WithQuantity(a + b, id, q) == WithQuantity(a, id, q) + WithQuantity(b, id, q)
  {
  }

  /** Both updates keep every quantity at least one. */
  lemma SetQuantityKeepsPositive(items: seq<CartItem>, id: string, q: Int32)
    requires AllPositive(items)
    ensures AllPositive(SetQuantity(items, id, q))
    ensures AllPositive(Without(items, id))
  {
  }

  /** Neither update touches a price, so non-negative prices stay
      non-negative. */
  lemma SetQuantityKeepsPrices(items: seq<CartItem>, id: string, q: Int32)
    requires NonNegativePrices(items)
    ensures NonNegativePrices(SetQuantity(items, id, q))
    ensures NonNegativePrices(Without(items, id))
  {
  }

  /** Both updates keep the ids unique. */
  lemma SetQuantityKeepsUnique(items: seq<CartItem>, id: string, q: Int32)
    requires UniqueIds(items)
    ensures UniqueIds(SetQuantity(items, id, q))
    ensures UniqueIds(Without(items, id))
  {
    WithoutKeepsUnique(items, id);
  }

  lemma {:induction false} WithoutKeepsUnique(items: seq<CartItem>, id: string)
    requires UniqueIds(items)
    ensures UniqueIds(Without(items, id))
  {
    if items != [] {
      var tail := items[1..];
      assert UniqueIds(tail) by {
        forall i, j | 0 <= i < j < |tail| ensures tail[i].id != tail[j].id {
          assert tail[i] == items[i + 1] && tail[j] == items[j + 1];
        }
      }
      WithoutKeepsUnique(tail, id);
      if items[0].id != id {
        var rest := Without(tail, id);
        var r := [items[0]] + rest;
        forall i, j | 0 <= i < j < |r| ensures r[i].id != r[j].id {
          if i == 0 {
            assert r[j] == rest[j - 1];
            WithoutMembers(tail, id, rest[j - 1]);
            var k :| 0 <= k < |tail| && tail[k] == rest[j - 1];
            assert tail[k] == items[k + 1];
          } else {
            assert r[i] == rest[i - 1] && r[j] == rest[j - 1];
          }
        }
      }
    }
  }

  /** Entry `k` of a cart with unique ids is the only one with its id: the
      entries before and after it do not carry that id. */
  lemma SplitAt(items: seq<CartItem>, k: nat)
    requires k < |items| && UniqueIds(items)
    ensures items == items[..k] + [items[k]] + items[k + 1..]
    ensures Absent(items[..k], items[k].id) && Absent(items[k + 1..], items[k].id)
  {
  }

  lemma WithoutSplit(pre: seq<CartItem>, x: CartItem, post: seq<CartItem>)
    requires Absent(pre, x.id) && Absent(post, x.id)
    ensures Without(pre + [x] + post, x.id) == pre + post
  {
    var id := x.id;
    var px := pre + [x];
    assert Without([x], id) == [] by {
      assert [x][1..] == [];
    }
    WithoutAppend(pre, [x], id);
    WithoutAbsent(pre, id);
    assert Without(px, id) == pre;
    WithoutAppend(px, post, id);
    WithoutAbsent(post, id);
  }

  /** With unique ids, removing the id of entry `k` drops exactly that entry. */
  lemma RemoveAt(items: seq<CartItem>, k: nat)
    requires k < |items| && UniqueIds(items)
    ensures Without(items, items[k].id) == items[..k] + items[k + 1..]
  {
    SplitAt(items, k);
    WithoutSplit(items[..k], items[k], items[k + 1..]);
  }

  /** With unique ids, the increase button on row `k` adds exactly one to that
      row's quantity and leaves every other row alone; at `Int.MAX_VALUE` the
      sum wraps to a negative value and the row is removed instead. */
  lemma IncrementAt(items: seq<CartItem>, k: nat)
    requires k < |items| && UniqueIds(items) && AllPositive(items)
    ensures items[k].quantity < MaxInt ==>
      Increment(items, items[k]) == items[k := items[k].(quantity := items[k].quantity + 1)]
    ensures items[k].quantity == MaxInt ==>
      Increment(items, items[k]) == items[..k] + items[k + 1..]
  {
    var item := items[k];
    if item.quantity < MaxInt {
      var r := Increment(items, item);
      var s := items[k := item.(quantity := item.quantity + 1)];
      assert |r| == |s|;
      forall i | 0 <= i < |r| ensures r[i] == s[i] {
        if i != k { assert items[i].id != item.id by { if i < k { assert items[i].id != items[k].id; } } }
      }
    } else {
      RemoveAt(items, k);
    }
  }

  /** The decrease button on a row of quantity one removes that row; on a
      larger quantity it subtracts exactly one from that row only. */
  lemma DecrementAt(items: seq<CartItem>, k: nat)
    requires k < |items| && UniqueIds(items)
    ensures items[k].quantity == 1 ==> Decrement(items, items[k]) == items[..k] + items[k + 1..]
    ensures items[k].quantity > 1 ==>
      Decrement(items, items[k]) == items[k := items[k].(quantity := items[k].quantity - 1)]
  {
    var item := items[k];
    if item.quantity == 1 {
      RemoveAt(items, k);
    } else if item.quantity > 1 {
      var r := Decrement(items, item);
      var s := items[k := item.(quantity := item.quantity - 1)];
      assert |r| == |s|;
      forall i | 0 <= i < |r| ensures r[i] == s[i] {
        if i != k { assert items[i].id != item.id by { if i < k { assert items[i].id != items[k].id; } } }
      }
    }
  }

  // ---------------------------------------------------------------------
  // Event sequences
  // ---------------------------------------------------------------------

  /** What the screen's handlers can do to the cart. */
  datatype CartEvent = QuantityChanged(id: string, quantity: Int32) | Removed(id: string)

  function Apply(items: seq<CartItem>, e: CartEvent): seq<CartItem>
  {
    match e
    case QuantityChanged(id, q) => SetQuantity(items, id, q)
    case Removed(id) => Without(items, id)
  }

  /** The cart after the events, in order. */
  function Replay(items: seq<CartItem>, events: seq<CartEvent>): seq<CartItem>
    decreases |events|
  {
    if events == [] then items else Replay(Apply(items, events[0]), events[1..])
  }

  /** Starting from a cart whose quantities are all at least one, whose ids
      are unique and whose prices are non-negative (the seed is one), all
      three properties hold after any sequence of quantity changes and
      removals. */
  lemma {:induction false} ReplayKeepsInvariant(items: seq<CartItem>, events: seq<CartEvent>)
    requires AllPositive(items) && UniqueIds(items) && NonNegativePrices(items)
    ensures AllPositive(Replay(items, events)) && UniqueIds(Replay(items, events))
    ensures NonNegativePrices(Replay(items, events))
    decreases |events|
  {
    if events != [] {
      var e := events[0];
      match e {
        case QuantityChanged(id, q) =>
          SetQuantityKeepsPositive(items, id, q);
          SetQuantityKeepsUnique(items, id, q);
          SetQuantityKeepsPrices(items, id, q);
        case Removed(id) =>
          SetQuantityKeepsPositive(items, id, 1);
          SetQuantityKeepsUnique(items, id, 1);
          SetQuantityKeepsPrices(items, id, 1);
      }
      ReplayKeepsInvariant(Apply(items, e), events[1..]);
    }
  }

  /** No sequence of events adds an entry: every entry of the result is an
      entry of the input with, at most, a different quantity. */
  lemma {:induction false} ReplayAddsNothing(items: seq<CartItem>, events: seq<CartEvent>, e: CartItem)
    requires e in Replay(items, events)
    ensures exists i :: 0 <= i < |items| && items[i] == e.(quantity := items[i].quantity)
    decreases |events|
  {
    if events != [] {
      var next := Apply(items, events[0]);
      ReplayAddsNothing(next, events[1..], e);
      var j :| 0 <= j < |next| && next[j] == e.(quantity := next[j].quantity);
      match events[0]
      case QuantityChanged(id, q) =>
        if q > 0 {
          assert items[j] == e.(quantity := items[j].quantity);
        } else {
          WithoutMembers(items, id, next[j]);
          var i :| 0 <= i < |items| && items[i] == next[j];
          assert items[i] == e.(quantity := items[i].quantity);
        }
      case Removed(id) =>
        WithoutMembers(items, id, next[j]);
        var i :| 0 <= i < |items| && items[i] == next[j];
        assert items[i] == e.(quantity := items[i].quantity);
    } else {
      var i :| 0 <= i < |items| && items[i] == e;
      assert items[i] == e.(quantity := items[i].quantity);
    }
  }

  // ---------------------------------------------------------------------
  // Totals
  // ---------------------------------------------------------------------

  /** The tax rate, 10%. */
  const TaxRate: real := 0.1
  /** The shipping amount shown in the summary, always zero. */
  const Shipping: real := 0.0

  /** `price * quantity` of one line. */
  function LineTotal(e: CartItem): real
  {
    e.price * e.quantity as real
  }

  /** `sumOf { it.price * it.quantity }`. */
  function Subtotal(items: seq<CartItem>): real
  {
    if items == [] then 0.0 else LineTotal(items[0]) + Subtotal(items[1..])
  }

  function Tax(subtotal: real): real
  {
    subtotal * TaxRate
  }

  function Total(subtotal: real): real
  {
    subtotal + Tax(subtotal)
  }

  /** The summary card's four amounts. */
  datatype Summary = Summary(subtotal: real, tax: real, shipping: real, total: real)

  function ComputeTotals(items: seq<CartItem>): (t: Summary)
    ensures t.subtotal == Subtotal(items)
    ensures t.tax == t.subtotal / 10.0 && t.shipping == 0.0
    ensures t.total == t.subtotal + t.tax + t.shipping
    ensures t.total == t.subtotal * 11.0 / 10.0
  {
    var s := Subtotal(items);
    Summary(s, Tax(s), Shipping, Total(s))
  }

  lemma {:induction false} SubtotalAppend(a: seq<CartItem>, b: seq<CartItem>)
    ensures Subtotal(a + b) == Subtotal(a) + Subtotal(b)
  {
    if a == [] {
      assert a + b == b;
    } else {
      assert (a + b)[1..] == a[1..] + b;
      SubtotalAppend(a[1..], b);
    }
  }

  /** With non-negative prices and positive quantities the subtotal is
      non-negative. */
  lemma {:induction false} SubtotalNonNegative(items: seq<CartItem>)
    requires NonNegativePrices(items) && AllPositive(items)
    ensures Subtotal(items) >= 0.0
  {
    if items != [] {
      assert items[0].price >= 0.0 && items[0].quantity >= 1;
      SubtotalNonNegative(items[1..]);
    }
  }

  /** The empty cart totals to zero. */
  lemma EmptyCartTotals()
    ensures ComputeTotals([]) == Summary(0.0, 0.0, 0.0, 0.0)
  {
  }

  /** A cart with non-negative prices and positive quantities has
      total >= subtotal >= 0. */
  lemma TotalsBounds(items: seq<CartItem>)
    requires NonNegativePrices(items) && AllPositive(items)
    ensures 0.0 <= ComputeTotals(items).subtotal <= ComputeTotals(items).total
  {
    SubtotalNonNegative(items);
  }

  /** The seed's summary: 699.97, 69.997, 0, 769.967. */
  lemma SeedTotals()
    ensures ComputeTotals(Seed()) == Summary(699.97, 69.997, 0.0, 769.967)
  {
  }

  /** With unique ids, removing entry `k` lowers the subtotal by exactly that
      entry's line total. */
  lemma SubtotalAfterRemove(items: seq<CartItem>, k: nat)
    requires k < |items| && UniqueIds(items)
    ensures Subtotal(Without(items, items[k].id)) == Subtotal(items) - LineTotal(items[k])
  {
    RemoveAt(items, k);
    SplitAt(items, k);
    SubtotalSplit(items[..k], items[k], items[k + 1..]);
    SubtotalAppend(items[..k], items[k + 1..]);
  }

  /** With unique ids, writing quantity `q` onto the id of entry `k` (the
      positive branch of the quantity change) changes the subtotal by
      `price * (q - old quantity)`. */
  lemma SubtotalAfterWithQuantity(items: seq<CartItem>, k: nat, q: Int32)
    requires k < |items| && UniqueIds(items)
    ensures Subtotal(WithQuantity(items, items[k].id, q))
         == Subtotal(items) + items[k].price * (q - items[k].quantity) as real
  {
    SplitAt(items, k);
    SubtotalWithQuantitySplit(items[..k], items[k], items[k + 1..], q);
  }

  lemma SubtotalWithQuantitySplit(pre: seq<CartItem>, x: CartItem, post: seq<CartItem>, q: Int32)
    requires Absent(pre, x.id) && Absent(post, x.id)
    ensures Subtotal(WithQuantity(pre + [x] + post, x.id, q))
         == Subtotal(pre + [x] + post) + x.price * (q - x.quantity) as real
  {
    WithQuantitySplit(pre, x, post, q);
    SubtotalSplit(pre, x, post);
    SubtotalSplit(pre, x.(quantity := q), post);
    LineTotalChange(x, q);
  }

  lemma LineTotalChange(x: CartItem, q: Int32)
    ensures LineTotal(x.(quantity := q)) == LineTotal(x) + x.price * (q - x.quantity) as real
  {
  }

  lemma WithQuantitySplit(pre: seq<CartItem>, x: CartItem, post: seq<CartItem>, q: Int32)
    requires Absent(pre, x.id) && Absent(post, x.id)
    ensures WithQuantity(pre + [x] + post, x.id, q) == pre + [x.(quantity := q)] + post
  {
  }

  lemma SubtotalSplit(pre: seq<CartItem>, x: CartItem, post: seq<CartItem>)
    ensures Subtotal(pre + [x] + post) == Subtotal(pre) + LineTotal(x) + Subtotal(post)
  {
    SubtotalAppend(pre + [x], post);
    SubtotalAppend(pre, [x]);
    assert Subtotal([x]) == LineTotal(x) by { assert [x][1..] == []; }
  }

  // ---------------------------------------------------------------------
  // The screen's mutable state cell
  // ---------------------------------------------------------------------

  /** The `cartItems` state cell, reassigned by the row handlers. */
  class CartLedger {
    var items: seq<CartItem>

    ghost predicate Valid()
      reads this
    {
      AllPositive(items) && UniqueIds(items) && NonNegativePrices(items)
    }

    /** The cell starts with the two demo entries. */
    constructor ()
      ensures items == Seed() && Valid()
    {
      items := Seed();
    }

    /** `onQuantityChange(newQuantity)` of the row whose item has `id`. */
    method UpdateQuantity(id: string, newQuantity: Int32)
      requires Valid()
      modifies this
      ensures Valid()
      ensures items == SetQuantity(old(items), id, newQuantity)
    {
      SetQuantityKeepsPositive(items, id, newQuantity);
      SetQuantityKeepsUnique(items, id, newQuantity);
      SetQuantityKeepsPrices(items, id, newQuantity);
      if newQuantity > 0 {
        items := WithQuantity(items, id, newQuantity);
      } else {
        items := Without(items, id);
      }
    }

    /** `onRemove` of the row whose item has `id`. */
    method Remove(id: string)
      requires Valid()
      modifies this
      ensures Valid()
      ensures items == Without(old(items), id)
      ensures Absent(items, id)
    {
      SetQuantityKeepsPositive(items, id, 1);
      SetQuantityKeepsUnique(items, id, 1);
      SetQuantityKeepsPrices(items, id, 1);
      items := Without(items, id);
    }

    /** The increase button of the row showing `item`. */
    method Increase(item: CartItem)
      requires Valid()
      modifies this
      ensures Valid()
      ensures items == Increment(old(items), item)
    {
      UpdateQuantity(item.id, IncrementArg(item.quantity));
    }

    /** The decrease button of the row showing `item`. */
    method Decrease(item: CartItem)
      requires Valid()
      modifies this
      ensures Valid()
      ensures items == Decrement(old(items), item)
    {
      UpdateQuantity(item.id, DecrementArg(item.quantity));
    }

    /** The amounts derived from the current entries on every recomposition;
        on a valid ledger they are ordered 0 <= subtotal <= total. */
    method Totals() returns (subtotal: real, tax: real, total: real)
      ensures subtotal == Subtotal(items)
      ensures tax == subtotal / 10.0
      ensures total == subtotal + tax
      ensures Valid() ==> 0.0 <= subtotal <= total
    {
      subtotal := Subtotal(items);
      tax := subtotal * TaxRate;
      total := subtotal + tax;
      if Valid() {
        SubtotalNonNegative(items);
      }
    }
  }
}
