/**
 * The cart document: an owner and a list of line items, each a product
 * reference, an optional display name and image, a quantity (default 1, no
 * lower bound) and a price (at least 0), with the derived `totalPrice`.
 * Prices and quantities are integers in minor currency units.
 */
module CartModel {
  import opened Wrappers
  import opened Schema

  /** A line item as submitted in a request; each field may be missing. */
  datatype ItemInput = ItemInput(
    product: Option<string>,
    name: Option<string>,
    image: Option<string>,
    quantity: Option<int>,
    price: Option<int>)

  /** The fields handed to the cart for one item, before defaults and validation. */
  datatype ItemFields = ItemFields(product: Option<string>, quantity: Option<int>, price: Option<int>)

  /** A stored line item. */
  datatype CartItem = CartItem(product: string, name: Option<string>, image: Option<string>, quantity: int, price: int)

  datatype Cart = Cart(id: nat, user: nat, items: seq<CartItem>)

  /** What the item schema accepts: a non-empty product and a price of at least 0.
      Quantity is never rejected: a missing one takes the default 1, and no minimum is declared. */
  predicate ItemAccepted(f: ItemFields) {
    && f.product.Some? && f.product.value != ""
    && f.price.Some? && f.price.value >= 0
  }

  /** The validation errors of the item at position `index`, in schema order. */
  function ItemErrors(f: ItemFields, index: nat): (r: seq<FieldError>)
    ensures r == [] <==> ItemAccepted(f)
  {
    var at := "items." + NatToString(index) + ".";
    (if f.product.None? || f.product.value == "" then [FieldError(at + "product", RequiredMessage("product"))] else [])
    + (if f.price.None? then [FieldError(at + "price", RequiredMessage("price"))]
       else if f.price.value < 0 then [FieldError(at + "price", MinMessage("price", f.price.value, 0))]
       else [])
  }

  function CartErrorsFrom(fs: seq<ItemFields>, start: nat): (r: seq<FieldError>)
    ensures r == [] <==> forall i :: 0 <= i < |fs| ==> ItemAccepted(fs[i])
    decreases |fs|
  {
    if fs == [] then [] else ItemErrors(fs[0], start) + CartErrorsFrom(fs[1..], start + 1)
  }

  /** The validation errors of a cart built from these items: none exactly when every item is accepted. */
  function CartErrors(fs: seq<ItemFields>): (r: seq<FieldError>)
    ensures r == [] <==> forall i :: 0 <= i < |fs| ==> ItemAccepted(fs[i])
  {
    CartErrorsFrom(fs, 0)
  }

  /** The stored form of an accepted item: a missing quantity becomes 1. */
  function StoredItem(f: ItemFields): (r: CartItem)
    requires ItemAccepted(f)
    ensures r.product == f.product.value && r.price == f.price.value
    ensures r.quantity == (if f.quantity.Some? then f.quantity.value else 1)
    ensures r.name.None? && r.image.None?
  {
    CartItem(f.product.value, None, None, f.quantity.GetOr(1), f.price.value)
  }

  /** The stored items of an accepted cart, position by position. */
  function Materialize(fs: seq<ItemFields>): (r: seq<CartItem>)
    requires forall i :: 0 <= i < |fs| ==> ItemAccepted(fs[i])
    ensures |r| == |fs|
    ensures forall i :: 0 <= i < |fs| ==> r[i] == StoredItem(fs[i])
  {
    seq(|fs|, i requires 0 <= i < |fs| => StoredItem(fs[i]))
  }

  function LineTotal(item: CartItem): int {
    item.quantity * item.price
  }

  /** The `totalPrice` virtual: a left fold adding quantity × price, starting from 0. */
  function Total(items: seq<CartItem>): (r: int)
    ensures items == [] ==> r == 0
    ensures |items| == 1 ==> r == LineTotal(items[0])
    decreases |items|
  {
    if items == [] then 0 else Total(items[..|items| - 1]) + LineTotal(items[|items| - 1])
  }

  /** An empty cart totals 0. */
  lemma TotalEmpty()
    ensures Total([]) == 0
  {
  }

  /** Appending an item raises the total by exactly that item's quantity × price. */
  lemma TotalAppend(items: seq<CartItem>, x: CartItem)
    ensures Total(items + [x]) == Total(items) + x.quantity * x.price
  {
    assert (items + [x])[..|items + [x]| - 1] == items;
  }

  /** The total of two lists laid end to end is the sum of their totals. */
  lemma {:induction false} TotalConcat(a: seq<CartItem>, b: seq<CartItem>)
    ensures Total(a + b) == Total(a) + Total(b)
    decreases |b|
  {
    if b == [] {
      assert a + b == a;
    } else {
      var init := b[..|b| - 1];
      var last := b[|b| - 1];
      assert b == init + [last];
      assert a + b == (a + init) + [last];
      TotalAppend(a + init, last);
      TotalConcat(a, init);
      TotalAppend(init, last);
    }
  }

  /** Removing the item at `k` lowers the total by that item's line total. */
  lemma TotalRemove(items: seq<CartItem>, k: nat)
    requires k < |items|
    ensures Total(items) == LineTotal(items[k]) + Total(items[..k] + items[k + 1..])
  {
    var pre, x, post := items[..k], items[k], items[k + 1..];
    assert items == pre + ([x] + post);
    calc {
      Total(items);
    ==  { TotalConcat(pre, [x] + post); }
      Total(pre) + Total([x] + post);
    ==  { TotalConcat([x], post); }
      Total(pre) + LineTotal(x) + Total(post);
    ==  { TotalConcat(pre, post); }
      LineTotal(x) + Total(pre + post);
    }
  }

  lemma RemoveAtMultiset<T>(s: seq<T>, k: nat)
    requires k < |s|
    ensures multiset(s[..k] + s[k + 1..]) == multiset(s) - multiset{s[k]}
  {
    assert s == s[..k] + [s[k]] + s[k + 1..];
  }

  /** The total does not depend on the order of the items. */
  lemma {:induction false} TotalPermutation(a: seq<CartItem>, b: seq<CartItem>)
    requires multiset(a) == multiset(b)
    ensures Total(a) == Total(b)
    decreases |a|
  {
    if a == [] {
      assert |b| == |multiset(b)| == 0;
    } else {
      var last := a[|a| - 1];
      var init := a[..|a| - 1];
      assert a == init + [last];
      assert last in multiset(b);
      var k :| 0 <= k < |b| && b[k] == last;
      var rest := b[..k] + b[k + 1..];
      RemoveAtMultiset(b, k);
      assert multiset(a) == multiset(init) + multiset{last};
      TotalPermutation(init, rest);
      TotalAppend(init, last);
      TotalRemove(b, k);
    }
  }

  /** With prices of at least 0 (the schema's bound) and quantities of at least 0,
      the total is at least 0. */
  lemma {:induction false} TotalNonNegative(items: seq<CartItem>)
    requires forall i :: 0 <= i < |items| ==> items[i].quantity >= 0 && items[i].price >= 0
    ensures Total(items) >= 0
    decreases |items|
  {
    if items != [] {
      TotalNonNegative(items[..|items| - 1]);
    }
  }

  /** Two of one product at 10 and one of another at 5 total 25. */
  lemma TotalExample()
    ensures Total([CartItem("p1", None, None, 2, 10), CartItem("p2", None, None, 1, 5)]) == 25
  {
    var items := [CartItem("p1", None, None, 2, 10), CartItem("p2", None, None, 1, 5)];
    assert items[..1] == [items[0]];
    assert [items[0]][..0] == [];
  }

  /** The schema accepts an item with a negative quantity, and the cart's total is then negative. */
  lemma NegativeQuantityAccepted()
    ensures ItemAccepted(ItemFields(Some("p1"), Some(-1), Some(5)))
    ensures Total(Materialize([ItemFields(Some("p1"), Some(-1), Some(5))])) == -5
  {
    var items := Materialize([ItemFields(Some("p1"), Some(-1), Some(5))]);
    assert items == [CartItem("p1", None, None, -1, 5)];
    assert items[..0] == [];
  }
}
