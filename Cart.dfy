/**
 * The cart store: an insertion-ordered sequence of lines, the three
 * transformations the storefront applies to it (`addToCart`,
 * `removeFromCart`, `updateQuantity`) and the totals derived from it.
 * Each transformation is the pure function that the component hands to
 * `setCart`; the component itself is modelled in module Storefront.
 * Prices are whole Singapore dollars.
 */
module Cart {
  import opened Text
  import opened Catalog

  datatype CartItem = CartItem(id: string, name: string, nameZh: string, price: nat, quantity: int, image: string)

  /** The line `addToCart` builds for a product: its id, names and image, the parsed price, quantity 1. */
  function NewLine(p: Product): (line: CartItem)
    requires WellFormedPrice(p.price)
    ensures line.id == p.id && line.quantity == 1 && line.price == ParsePrice(p.price) && Valid([line])
    ensures Canonical(p.price[|PricePrefix|..]) ==> PriceTag(line.price) == p.price
  {
    TagOfParsePrice(p.price);
    CartItem(p.id, p.name, p.nameZh, ParsePrice(p.price), 1, p.image)
  }

  predicate Contains(cart: seq<CartItem>, id: string) {
    exists i :: 0 <= i < |cart| && cart[i].id == id
  }

  /** `cart.find(item => item.id === id)`, as the position of the first line with that id. */
  function IndexOf(cart: seq<CartItem>, id: string): (k: nat)
    requires Contains(cart, id)
    ensures k < |cart| && cart[k].id == id
    ensures forall j :: 0 <= j < k ==> cart[j].id != id
  {
    if cart[0].id == id then 0
    else
      assert exists i :: 0 <= i < |cart[1..]| && cart[1..][i].id == id by {
        var i :| 0 <= i < |cart| && cart[i].id == id;
        assert cart[1..][i - 1].id == id;
      }
      1 + IndexOf(cart[1..], id)
  }

  /** At most one line per product id. */
  predicate UniqueIds(cart: seq<CartItem>) {
    forall i, j :: 0 <= i < j < |cart| ==> cart[i].id != cart[j].id
  }

  /** No line is kept with a quantity of zero or less. */
  predicate PositiveQuantities(cart: seq<CartItem>) {
    forall i :: 0 <= i < |cart| ==> cart[i].quantity >= 1
  }

  /** The invariant every cart the storefront builds satisfies. */
  predicate Valid(cart: seq<CartItem>) {
    UniqueIds(cart) && PositiveQuantities(cart)
  }

  // ---------------------------------------------------------------------------
  // The transformations

  /** The two ways the storefront rewrites a line's quantity: one more, or a given number. */
  datatype QuantityChange = Increment | SetTo(n: int)

  function Applied(c: QuantityChange, q: int): int {
    match c
    case Increment => q + 1
    case SetTo(n) => n
  }

  /** `cart.map(item => item.id === id ? { ...item, quantity: … } : item)` */
  function MapQuantity(cart: seq<CartItem>, id: string, c: QuantityChange): (r: seq<CartItem>)
    ensures |r| == |cart|
    ensures forall i :: 0 <= i < |cart| ==> r[i].id == cart[i].id
    ensures forall i :: 0 <= i < |cart| && cart[i].id != id ==> r[i] == cart[i]
    ensures forall i :: 0 <= i < |cart| && cart[i].id == id ==> r[i] == cart[i].(quantity := Applied(c, cart[i].quantity))
  {
    if cart == [] then []
    else
      var head := if cart[0].id == id then cart[0].(quantity := Applied(c, cart[0].quantity)) else cart[0];
      [head] + MapQuantity(cart[1..], id, c)
  }

  /** `cart.filter(item => item.id !== id)` */
  function Remove(cart: seq<CartItem>, id: string): (r: seq<CartItem>)
    ensures |r| <= |cart|
  {
    if cart == [] then []
    else (if cart[0].id == id then [] else [cart[0]]) + Remove(cart[1..], id)
  }

  /** Removal keeps exactly the lines whose id differs. */
  lemma {:induction false} RemoveMembers(cart: seq<CartItem>, id: string)
    ensures forall x :: x in Remove(cart, id) <==> x in cart && x.id != id
  {
    if cart != [] {
      RemoveMembers(cart[1..], id);
      assert cart == [cart[0]] + cart[1..];
    }
  }

  /** `addToCart`: raise the quantity of the product's line, or append a new line for it. */
  function AddItem(cart: seq<CartItem>, p: Product): (r: seq<CartItem>)
    requires WellFormedPrice(p.price)
    ensures Contains(r, p.id)
    ensures |r| == if Contains(cart, p.id) then |cart| else |cart| + 1
  {
    if Contains(cart, p.id) then
      var r := MapQuantity(cart, p.id, Increment);
      assert r[IndexOf(cart, p.id)].id == p.id;
      r
    else
      var r := cart + [NewLine(p)];
      assert r[|cart|].id == p.id;
      r
  }

  /** `updateQuantity`: a quantity of zero or less removes the line, any other sets it. */
  function UpdateQuantity(cart: seq<CartItem>, id: string, n: int): (r: seq<CartItem>)
    ensures n <= 0 ==> r == Remove(cart, id)
    ensures n > 0 ==> |r| == |cart|
  {
    if n <= 0 then Remove(cart, id) else MapQuantity(cart, id, SetTo(n))
  }

  /** Adding keeps one line per id and every quantity at least 1. */
  lemma AddItemValid(cart: seq<CartItem>, p: Product)
    requires WellFormedPrice(p.price) && Valid(cart)
    ensures Valid(AddItem(cart, p))
  {
    if Contains(cart, p.id) {
      assert AddItem(cart, p) == MapQuantity(cart, p.id, Increment);
    } else {
      var r := cart + [NewLine(p)];
      assert AddItem(cart, p) == r;
      assert forall i :: 0 <= i < |cart| ==> r[i] == cart[i] && cart[i].id != p.id;
    }
  }

  /** Updating a quantity keeps one line per id and every quantity at least 1. */
  lemma UpdateQuantityValid(cart: seq<CartItem>, id: string, n: int)
    requires Valid(cart)
    ensures Valid(UpdateQuantity(cart, id, n))
  {
    if n <= 0 {
      RemoveValid(cart, id);
    }
  }

  // ---------------------------------------------------------------------------
  // What the transformations do to one line and to the others

  /** With unique ids, mapping the quantity of one id changes exactly that one line, in place. */
  lemma MapQuantityAt(cart: seq<CartItem>, id: string, c: QuantityChange, k: nat)
    requires UniqueIds(cart) && k < |cart| && cart[k].id == id
    ensures MapQuantity(cart, id, c) == cart[k := cart[k].(quantity := Applied(c, cart[k].quantity))]
  {
    var r, e := MapQuantity(cart, id, c), cart[k := cart[k].(quantity := Applied(c, cart[k].quantity))];
    forall i | 0 <= i < |r| ensures r[i] == e[i] {
      if i != k {
        assert cart[i].id != cart[k].id;
      }
    }
  }

  lemma MapQuantityAbsent(cart: seq<CartItem>, id: string, c: QuantityChange)
    requires !Contains(cart, id)
    ensures MapQuantity(cart, id, c) == cart
  {
  }

  /** Adding a product already in the cart raises that line's quantity by one and changes nothing else. */
  lemma AddExisting(cart: seq<CartItem>, p: Product, k: nat)
    requires WellFormedPrice(p.price)
    requires UniqueIds(cart) && k < |cart| && cart[k].id == p.id
    ensures AddItem(cart, p) == cart[k := cart[k].(quantity := cart[k].quantity + 1)]
  {
    assert Contains(cart, p.id);
    assert AddItem(cart, p) == MapQuantity(cart, p.id, Increment);
    MapQuantityAt(cart, p.id, Increment, k);
  }

  /** Adding a product not yet in the cart appends one line, with quantity 1 and the parsed price. */
  lemma AddNew(cart: seq<CartItem>, p: Product)
    requires WellFormedPrice(p.price) && !Contains(cart, p.id)
    ensures AddItem(cart, p) == cart + [NewLine(p)]
    ensures AddItem(cart, p)[|cart|].quantity == 1 && AddItem(cart, p)[|cart|].price == ParsePrice(p.price)
  {
  }

  lemma {:induction false} RemoveAppend(a: seq<CartItem>, b: seq<CartItem>, id: string)
    ensures Remove(a + b, id) == Remove(a, id) + Remove(b, id)
  {
    if a == [] {
      assert a + b == b;
    } else {
      assert (a + b)[1..] == a[1..] + b;
      RemoveAppend(a[1..], b, id);
    }
  }

  lemma {:induction false} RemoveAbsent(cart: seq<CartItem>, id: string)
    requires !Contains(cart, id)
    ensures Remove(cart, id) == cart
  {
    if cart != [] {
      assert !Contains(cart[1..], id) by {
        forall i | 0 <= i < |cart[1..]| ensures cart[1..][i].id != id {
          assert cart[1..][i] == cart[i + 1];
        }
      }
      RemoveAbsent(cart[1..], id);
      assert [cart[0]] + cart[1..] == cart;
    }
  }

  /** Removing twice removes nothing more. */
  lemma RemoveIdempotent(cart: seq<CartItem>, id: string)
    ensures Remove(Remove(cart, id), id) == Remove(cart, id)
  {
    var r := Remove(cart, id);
    RemoveMembers(cart, id);
    assert !Contains(r, id) by {
      forall i | 0 <= i < |r| ensures r[i].id != id {
        assert r[i] in r;
      }
    }
    RemoveAbsent(r, id);
  }

  /** With unique ids, removing an id cuts its one line out and keeps the rest in order. */
  lemma {:induction false} RemoveAt(cart: seq<CartItem>, id: string, k: nat)
    requires UniqueIds(cart) && k < |cart| && cart[k].id == id
    ensures Remove(cart, id) == cart[..k] + cart[k + 1..]
  {
    RemoveAround(cart, id, k);
    OtherLinesLackId(cart, k, 0, k);
    OtherLinesLackId(cart, k, k + 1, |cart|);
    RemoveAbsent(cart[..k], id);
    RemoveAbsent(cart[k + 1..], id);
  }

  /** Removing the id of line k from the whole cart is removing it from the stretches before and after k. */
  lemma {:induction false} RemoveAround(cart: seq<CartItem>, id: string, k: nat)
    requires k < |cart| && cart[k].id == id
    ensures Remove(cart, id) == Remove(cart[..k], id) + Remove(cart[k + 1..], id)
  {
    var before, after := cart[..k], cart[k + 1..];
    assert cart == before + ([cart[k]] + after);
    RemoveAppend(before, [cart[k]] + after, id);
    RemoveAppend([cart[k]], after, id);
    assert Remove([cart[k]], id) == [] by {
      assert [cart[k]][1..] == [];
    }
  }

  /** With unique ids, no stretch of the cart that skips line k holds line k's id. */
  lemma {:induction false} OtherLinesLackId(cart: seq<CartItem>, k: nat, lo: nat, hi: nat)
    requires UniqueIds(cart) && k < |cart| && lo <= hi <= |cart| && (hi <= k || k < lo)
    ensures !Contains(cart[lo..hi], cart[k].id)
  {
    forall i | 0 <= i < hi - lo ensures cart[lo..hi][i].id != cart[k].id {
      assert cart[lo..hi][i] == cart[lo + i];
    }
  }

  lemma {:induction false} RemoveValid(cart: seq<CartItem>, id: string)
    ensures Valid(cart) ==> Valid(Remove(cart, id))
  {
    if cart != [] && Valid(cart) {
      var head, tail := cart[0], cart[1..];
      ValidCons(cart);
      RemoveValid(tail, id);
      var rest := Remove(tail, id);
      if head.id != id {
        RemoveKeepsAbsent(tail, id, head.id);
        assert Remove(cart, id) == [head] + rest;
        ValidCons([head] + rest);
        assert ([head] + rest)[1..] == rest;
      }
    }
  }

  /** A cart of one line or more is valid exactly when its head is, its tail is, and the head's id is not in the tail. */
  lemma ValidCons(cart: seq<CartItem>)
    requires cart != []
    ensures Valid(cart) <==> cart[0].quantity >= 1 && !Contains(cart[1..], cart[0].id) && Valid(cart[1..])
  {
    var tail := cart[1..];
    assert forall i :: 0 <= i < |tail| ==> tail[i] == cart[i + 1];
    if !Valid(cart) && cart[0].quantity >= 1 && !Contains(tail, cart[0].id) {
      assert !UniqueIds(tail) || !PositiveQuantities(tail) by {
        if UniqueIds(tail) && PositiveQuantities(tail) {
          assert UniqueIds(cart) && PositiveQuantities(cart) by {
            forall i, j | 0 <= i < j < |cart| ensures cart[i].id != cart[j].id {
              if i > 0 { assert cart[i] == tail[i - 1] && cart[j] == tail[j - 1]; }
              else { assert cart[j] == tail[j - 1]; }
            }
          }
        }
      }
    }
  }

  /** Removal never brings in an id the cart did not hold. */
  lemma RemoveKeepsAbsent(cart: seq<CartItem>, id: string, other: string)
    requires !Contains(cart, other)
    ensures !Contains(Remove(cart, id), other)
  {
    var r := Remove(cart, id);
    RemoveMembers(cart, id);
    forall i | 0 <= i < |r| ensures r[i].id != other {
      assert r[i] in r;
    }
  }

  /** Updating to a positive quantity sets that line's quantity in place and changes nothing else. */
  lemma UpdateQuantityAt(cart: seq<CartItem>, id: string, n: int, k: nat)
    requires n > 0 && UniqueIds(cart) && k < |cart| && cart[k].id == id
    ensures UpdateQuantity(cart, id, n) == cart[k := cart[k].(quantity := n)]
  {
    MapQuantityAt(cart, id, SetTo(n), k);
  }

  /** Updating an id that is not in the cart changes nothing, whatever the quantity. */
  lemma UpdateQuantityAbsent(cart: seq<CartItem>, id: string, n: int)
    requires !Contains(cart, id)
    ensures UpdateQuantity(cart, id, n) == cart
  {
    if n <= 0 {
      RemoveAbsent(cart, id);
    } else {
      MapQuantityAbsent(cart, id, SetTo(n));
    }
  }

  // ---------------------------------------------------------------------------
  // Repeated adds

  predicate AllPriced(ps: seq<Product>) {
    forall i :: 0 <= i < |ps| ==> WellFormedPrice(ps[i].price)
  }

  /** The cart after `addToCart` has been called with each product of `ps` in turn. */
  function AddAll(cart: seq<CartItem>, ps: seq<Product>): seq<CartItem>
    requires AllPriced(ps)
    decreases ps
  {
    if ps == [] then cart else AddAll(AddItem(cart, ps[0]), ps[1..])
  }

  lemma {:induction false} AddAllToLine(line: CartItem, ps: seq<Product>)
    requires AllPriced(ps)
    requires forall i :: 0 <= i < |ps| ==> ps[i].id == line.id
    ensures AddAll([line], ps) == [line.(quantity := line.quantity + |ps|)]
    decreases ps
  {
    if ps != [] {
      SameIdTail(ps);
      AddExisting([line], ps[0], 0);
      AddAllToLine(line.(quantity := line.quantity + 1), ps[1..]);
    }
  }

  /**
   * k adds of one product id into an empty cart give one line with quantity k,
   * and that line keeps the price and names of the first add even when later
   * adds carry a different product record for the same id.
   */
  lemma {:induction false} RepeatedAdd(ps: seq<Product>)
    requires |ps| >= 1 && AllPriced(ps)
    requires forall i :: 0 <= i < |ps| ==> ps[i].id == ps[0].id
    ensures AddAll([], ps) == [NewLine(ps[0]).(quantity := |ps|)]
  {
    var line := NewLine(ps[0]);
    SameIdTail(ps);
    AddNew([], ps[0]);
    assert AddAll([], ps) == AddAll([line], ps[1..]);
    AddAllToLine(line, ps[1..]);
    assert line.(quantity := line.quantity + |ps[1..]|) == line.(quantity := |ps|);
  }

  lemma SameIdTail(ps: seq<Product>)
    requires |ps| >= 1 && AllPriced(ps)
    requires forall i :: 0 <= i < |ps| ==> ps[i].id == ps[0].id
    ensures AllPriced(ps[1..]) && forall i :: 0 <= i < |ps[1..]| ==> ps[1..][i].id == ps[0].id
  {
    assert forall i :: 0 <= i < |ps[1..]| ==> ps[1..][i] == ps[i + 1];
  }

  // ---------------------------------------------------------------------------
  // Totals

  /** The reference sum of f over the lines. */
  function SumBy(cart: seq<CartItem>, f: CartItem -> int): int {
    if cart == [] then 0 else f(cart[0]) + SumBy(cart[1..], f)
  }

  /** `cart.reduce((acc, item) => acc + f(item), acc)`: a left fold. */
  function Reduce(acc: int, cart: seq<CartItem>, f: CartItem -> int): int
    decreases cart
  {
    if cart == [] then acc else Reduce(acc + f(cart[0]), cart[1..], f)
  }

  lemma {:induction false} ReduceIsSum(acc: int, cart: seq<CartItem>, f: CartItem -> int)
    ensures Reduce(acc, cart, f) == acc + SumBy(cart, f)
    decreases cart
  {
    if cart != [] {
      ReduceIsSum(acc + f(cart[0]), cart[1..], f);
    }
  }

  lemma {:induction false} SumByAppend(a: seq<CartItem>, b: seq<CartItem>, f: CartItem -> int)
    ensures SumBy(a + b, f) == SumBy(a, f) + SumBy(b, f)
  {
    if a == [] {
      assert a + b == b;
    } else {
      assert (a + b)[1..] == a[1..] + b;
      SumByAppend(a[1..], b, f);
    }
  }

  lemma {:induction false} SumByUpdate(cart: seq<CartItem>, k: nat, x: CartItem, f: CartItem -> int)
    requires k < |cart|
    ensures SumBy(cart[k := x], f) == SumBy(cart, f) - f(cart[k]) + f(x)
  {
    var before, after := cart[..k], cart[k + 1..];
    assert cart == before + ([cart[k]] + after);
    assert cart[k := x] == before + ([x] + after);
    SumByAppend(before, [cart[k]] + after, f);
    SumByAppend(before, [x] + after, f);
    SumByAppend([cart[k]], after, f);
    SumByAppend([x], after, f);
  }

  function LineTotal(item: CartItem): int {
    item.price * item.quantity
  }

  function LineQuantity(item: CartItem): int {
    item.quantity
  }

  /** `getSubtotal`: the fold over the lines that sums price times quantity. */
  function Subtotal(cart: seq<CartItem>): (r: int)
    ensures r == SumBy(cart, LineTotal)
  {
    ReduceIsSum(0, cart, LineTotal);
    Reduce(0, cart, LineTotal)
  }

  /** `getTotalItems`: the fold over the lines that sums the quantities. */
  function TotalItems(cart: seq<CartItem>): (r: int)
    ensures r == SumBy(cart, LineQuantity)
  {
    ReduceIsSum(0, cart, LineQuantity);
    Reduce(0, cart, LineQuantity)
  }

  const ShippingFee: nat := 20

  /** `getShippingCost`: a flat fee for any non-empty cart. */
  function ShippingCost(cart: seq<CartItem>): (fee: nat)
    ensures fee == ShippingFee <==> cart != []
    ensures fee == 0 <==> cart == []
  {
    if |cart| > 0 then ShippingFee else 0
  }

  /** The sum `getTotalPrice` formats. */
  function TotalAmount(cart: seq<CartItem>): int {
    Subtotal(cart) + ShippingCost(cart)
  }

  /** `getTotalPrice`: the grand total with two decimals. */
  function TotalPrice(cart: seq<CartItem>): string {
    Fixed2(TotalAmount(cart))
  }

  /** Shipping is the flat fee exactly when the cart has a line; an empty cart costs nothing. */
  lemma TotalAmountCases(cart: seq<CartItem>)
    ensures cart == [] ==> ShippingCost(cart) == 0 && TotalAmount(cart) == 0 && TotalPrice(cart) == "0.00"
    ensures cart != [] ==> ShippingCost(cart) == ShippingFee && TotalAmount(cart) == Subtotal(cart) + ShippingFee
  {
  }

  /** `getTotalPrice` ends in ".00", and the digits before it read back as subtotal plus shipping. */
  lemma TotalPriceReadBack(cart: seq<CartItem>)
    ensures |TotalPrice(cart)| >= 4 && TotalPrice(cart)[|TotalPrice(cart)| - 3..] == ".00"
    ensures ParseInt(TotalPrice(cart)[..|TotalPrice(cart)| - 3]) == Some(Subtotal(cart) + ShippingCost(cart))
  {
    Fixed2ReadBack(TotalAmount(cart));
  }

  /** In a valid cart no total is negative and the item count is at least the number of lines. */
  lemma {:induction false} ValidTotals(cart: seq<CartItem>)
    requires PositiveQuantities(cart)
    ensures Subtotal(cart) >= 0
    ensures TotalItems(cart) >= |cart|
    ensures TotalItems(cart) == 0 <==> cart == []
  {
    if cart != [] {
      assert PositiveQuantities(cart[1..]) by {
        forall i | 0 <= i < |cart[1..]| ensures cart[1..][i] == cart[i + 1] { }
      }
      ValidTotals(cart[1..]);
    }
  }

  /** The price an add contributes: the snapshot of the existing line, or the parsed tag for a new one. */
  function AddedUnitPrice(cart: seq<CartItem>, p: Product): nat
    requires WellFormedPrice(p.price)
  {
    if Contains(cart, p.id) then cart[IndexOf(cart, p.id)].price else ParsePrice(p.price)
  }

  /** Each add raises the item count by one and the subtotal by exactly one unit price. */
  lemma AddItemTotals(cart: seq<CartItem>, p: Product)
    requires WellFormedPrice(p.price) && UniqueIds(cart)
    ensures Subtotal(AddItem(cart, p)) == Subtotal(cart) + AddedUnitPrice(cart, p)
    ensures TotalItems(AddItem(cart, p)) == TotalItems(cart) + 1
  {
    if Contains(cart, p.id) {
      AddExistingTotals(cart, p, IndexOf(cart, p.id));
    } else {
      AddNewTotals(cart, p);
    }
  }

  lemma AddExistingTotals(cart: seq<CartItem>, p: Product, k: nat)
    requires WellFormedPrice(p.price) && UniqueIds(cart) && k < |cart| && cart[k].id == p.id
    ensures Subtotal(AddItem(cart, p)) == Subtotal(cart) + cart[k].price
    ensures TotalItems(AddItem(cart, p)) == TotalItems(cart) + 1
  {
    AddExisting(cart, p, k);
    ReplaceLineTotals(cart, k, cart[k].quantity + 1);
  }

  /** Giving line k quantity n changes the subtotal by its price times the change, and the item count by the change. */
  lemma ReplaceLineTotals(cart: seq<CartItem>, k: nat, n: int)
    requires k < |cart|
    ensures Subtotal(cart[k := cart[k].(quantity := n)]) == Subtotal(cart) + cart[k].price * (n - cart[k].quantity)
    ensures TotalItems(cart[k := cart[k].(quantity := n)]) == TotalItems(cart) + n - cart[k].quantity
  {
    var line := cart[k].(quantity := n);
    SumByUpdate(cart, k, line, LineTotal);
    SumByUpdate(cart, k, line, LineQuantity);
    assert LineTotal(line) - LineTotal(cart[k]) == cart[k].price * (n - cart[k].quantity);
  }

  lemma AddNewTotals(cart: seq<CartItem>, p: Product)
    requires WellFormedPrice(p.price) && !Contains(cart, p.id)
    ensures Subtotal(AddItem(cart, p)) == Subtotal(cart) + ParsePrice(p.price)
    ensures TotalItems(AddItem(cart, p)) == TotalItems(cart) + 1
  {
    AddNew(cart, p);
    SumByAppend(cart, [NewLine(p)], LineTotal);
    SumByAppend(cart, [NewLine(p)], LineQuantity);
    assert [NewLine(p)][1..] == [];
  }

  lemma {:induction false} SumByCut(cart: seq<CartItem>, k: nat, f: CartItem -> int)
    requires k < |cart|
    ensures SumBy(cart[..k] + cart[k + 1..], f) == SumBy(cart, f) - f(cart[k])
  {
    var before, after := cart[..k], cart[k + 1..];
    assert cart == before + ([cart[k]] + after);
    SumByAppend(before, after, f);
    SumByAppend(before, [cart[k]] + after, f);
    SumByAppend([cart[k]], after, f);
  }

  /** Removing a line takes exactly its amount and its quantity off the totals. */
  lemma RemoveTotals(cart: seq<CartItem>, id: string, k: nat)
    requires UniqueIds(cart) && k < |cart| && cart[k].id == id
    ensures Subtotal(Remove(cart, id)) == Subtotal(cart) - LineTotal(cart[k])
    ensures TotalItems(Remove(cart, id)) == TotalItems(cart) - cart[k].quantity
  {
    RemoveAt(cart, id, k);
    SumByCut(cart, k, LineTotal);
    SumByCut(cart, k, LineQuantity);
  }

  /** Setting a positive quantity replaces that line's share of the totals. */
  lemma UpdateQuantityTotals(cart: seq<CartItem>, id: string, n: int, k: nat)
    requires n > 0 && UniqueIds(cart) && k < |cart| && cart[k].id == id
    ensures Subtotal(UpdateQuantity(cart, id, n)) == Subtotal(cart) + cart[k].price * (n - cart[k].quantity)
    ensures TotalItems(UpdateQuantity(cart, id, n)) == TotalItems(cart) + n - cart[k].quantity
  {
    UpdateQuantityAt(cart, id, n, k);
    ReplaceLineTotals(cart, k, n);
  }

  /** One bottle of the Añejo added twice: one line of two, subtotal 300, grand total 320. */
  lemma TwoAnejos()
    ensures AddAll([], [Anejo, Anejo]) == [NewLine(Anejo).(quantity := 2)]
    ensures Subtotal(AddAll([], [Anejo, Anejo])) == 300
    ensures TotalAmount(AddAll([], [Anejo, Anejo])) == 320
    ensures TotalPrice(AddAll([], [Anejo, Anejo])) == "320.00"
  {
    AnejoPrice();
    RepeatedAdd([Anejo, Anejo]);
    SingleLineSubtotal(NewLine(Anejo).(quantity := 2));
    RenderedThreeTwenty();
  }

  /** The rendering of 320 with two decimals. */
  lemma RenderedThreeTwenty()
    ensures Fixed2(320) == "320.00"
  {
    assert NatToString(320) == "320" by { assert NatToString(32) == "32"; }
  }

  /** A one-line cart's subtotal is that line's amount. */
  lemma SingleLineSubtotal(line: CartItem)
    ensures Subtotal([line]) == LineTotal(line)
  {
    assert SumBy([line], LineTotal) == LineTotal(line) + SumBy([], LineTotal) by {
      assert [line][1..] == [];
    }
  }
}
