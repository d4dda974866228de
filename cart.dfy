/** The storefront's grouping of the cart into order items: every cart entry is a product,
    and the submit handler folds the cart into `itemsMap`, keyed by product id, whose
    `Object.values` become the order's `items`.

    `Tally` and `Grouped` are the reference meaning (counts and first prices per id);
    `GroupCart` is the `forEach` loop that builds the map, proved to produce `Grouped`. */
module Cart {
  import opened Orders

  /** A product id that `Object.values` treats as an array index: a non-negative integer
      below 2^32 - 1. Such keys are listed in ascending order; larger ones are not. */
  type ProductId = x: nat | x < 0xFFFF_FFFF

  datatype Product = Product(id: ProductId, name: string, price: Money)

  /** The ids that occur in `cart`. */
  function CartIds(cart: seq<Product>): (ids: set<nat>)
    ensures forall i :: 0 <= i < |cart| ==> cart[i].id in ids
    ensures forall id :: id in ids ==> exists i :: 0 <= i < |cart| && cart[i].id == id
  {
    if cart == [] then {}
    else CartIds(cart[..|cart| - 1]) + {cart[|cart| - 1].id}
  }

  /** How many entries of `cart` carry `id`. */
  function Count(cart: seq<Product>, id: nat): (n: nat)
    ensures n <= |cart|
    ensures n > 0 <==> id in CartIds(cart)
  {
    if cart == [] then 0
    else Count(cart[..|cart| - 1], id) + (if cart[|cart| - 1].id == id then 1 else 0)
  }

  /** The price of the earliest entry of `cart` that carries `id`. */
  function FirstPrice(cart: seq<Product>, id: nat): Money
    requires id in CartIds(cart)
  {
    var init := cart[..|cart| - 1];
    if id in CartIds(init) then FirstPrice(init, id) else cart[|cart| - 1].price
  }

  /** `FirstPrice` is the price of the first entry with that id. */
  lemma {:induction false} FirstPriceIsFirstEntry(cart: seq<Product>, id: nat)
    requires id in CartIds(cart)
    ensures exists i :: 0 <= i < |cart| && cart[i].id == id && cart[i].price == FirstPrice(cart, id) &&
                        forall j :: 0 <= j < i ==> cart[j].id != id
  {
    var init := cart[..|cart| - 1];
    assert CartIds(cart) == CartIds(init) + {cart[|cart| - 1].id};
    if id in CartIds(init) {
      assert FirstPrice(cart, id) == FirstPrice(init, id);
      FirstPriceIsFirstEntry(init, id);
      var i :| 0 <= i < |init| && init[i].id == id && init[i].price == FirstPrice(init, id) &&
               forall j :: 0 <= j < i ==> init[j].id != id;
      forall j | 0 <= j <= i ensures cart[j] == init[j] {
      }
      assert cart[i].id == id && cart[i].price == FirstPrice(cart, id);
    } else {
      var i := |cart| - 1;
      assert cart[i].id == id && cart[i].price == FirstPrice(cart, id);
      forall j | 0 <= j < i ensures cart[j].id != id {
        assert cart[j] == init[j];
        assert init[j].id in CartIds(init);
      }
    }
  }

  /** What `itemsMap` holds once every entry of `cart` has been folded in: one item per id,
      with the first entry's price and the number of entries as quantity. */
  function Tally(cart: seq<Product>): map<nat, Item>
  {
    map id | id in CartIds(cart) :: Item(id, Count(cart, id), FirstPrice(cart, id))
  }

  /** A bound above every id in `cart`. */
  function Bound(cart: seq<Product>): (b: nat)
    ensures forall i :: 0 <= i < |cart| ==> cart[i].id < b
  {
    if cart == [] then 0
    else
      var b := Bound(cart[..|cart| - 1]);
      var last := cart[|cart| - 1];
      if last.id < b then b else last.id + 1
  }

  /** `Object.values` of a map whose keys are non-negative integers below `n`: the values
      in ascending key order (not insertion order). */
  function InKeyOrder(m: map<nat, Item>, n: nat): seq<Item>
  {
    if n == 0 then []
    else InKeyOrder(m, n - 1) + (if n - 1 in m then [m[n - 1]] else [])
  }

  /** The `items` the submit handler sends for `cart`. */
  function Grouped(cart: seq<Product>): seq<Item>
  {
    InKeyOrder(Tally(cart), Bound(cart))
  }

  /** The total of the quantities of `items`. */
  function TotalQuantity(items: seq<Item>): int
  {
    if items == [] then 0
    else TotalQuantity(items[..|items| - 1]) + items[|items| - 1].quantity
  }

  /** How many entries of `cart` carry an id below `n`. */
  function CountBelow(cart: seq<Product>, n: nat): nat
  {
    if cart == [] then 0
    else CountBelow(cart[..|cart| - 1], n) + (if cart[|cart| - 1].id < n then 1 else 0)
  }

  /** Folding one more entry into the map: create the item with quantity 0 if the id is
      new, then increment its quantity. */
  lemma TallySnoc(cart: seq<Product>, p: Product)
    ensures var m := Tally(cart);
      var created := if p.id in m then m else m[p.id := Item(p.id, 0, p.price)];
      Tally(cart + [p]) == created[p.id := created[p.id].(quantity := created[p.id].quantity + 1)]
  {
    var c := cart + [p];
    assert c[..|c| - 1] == cart;
    var m := Tally(cart);
    var created := if p.id in m then m else m[p.id := Item(p.id, 0, p.price)];
    var stepped := created[p.id := created[p.id].(quantity := created[p.id].quantity + 1)];
    assert CartIds(c) == CartIds(cart) + {p.id};
    assert Tally(c).Keys == stepped.Keys;
    forall id | id in stepped ensures Tally(c)[id] == stepped[id] {
      assert Count(c, id) == Count(cart, id) + (if p.id == id then 1 else 0);
      assert FirstPrice(c, id) == if id in CartIds(cart) then FirstPrice(cart, id) else p.price;
      if id in m {
        assert m[id] == Item(id, Count(cart, id), FirstPrice(cart, id));
      } else {
        assert Count(cart, id) == 0;
      }
    }
    assert Tally(c) == stepped;
  }

  /** The `forEach` over the cart, then `Object.values(itemsMap)`. */
  method GroupCart(cart: seq<Product>) returns (items: seq<Item>)
    ensures items == Grouped(cart)
  {
    var itemsMap: map<nat, Item> := map[];
    var i := 0;
    while i < |cart|
      invariant 0 <= i <= |cart|
      invariant itemsMap == Tally(cart[..i])
    {
      var p := cart[i];
      TallySnoc(cart[..i], p);
      assert cart[..i + 1] == cart[..i] + [p];
      if p.id !in itemsMap {
        itemsMap := itemsMap[p.id := Item(p.id, 0, p.price)];
      }
      itemsMap := itemsMap[p.id := itemsMap[p.id].(quantity := itemsMap[p.id].quantity + 1)];
      i := i + 1;
    }
    assert cart[..i] == cart;
    items := InKeyOrder(itemsMap, Bound(cart));
  }

  /** Every key of `m` is the product id of its item. */
  ghost predicate KeyedById(m: map<nat, Item>)
  {
    forall k :: k in m ==> m[k].productId == k
  }

  /** `InKeyOrder` lists exactly the entries of `m` below `n`, by strictly ascending id. */
  lemma {:induction false} InKeyOrderShape(m: map<nat, Item>, n: nat)
    requires KeyedById(m)
    ensures forall j :: 0 <= j < |InKeyOrder(m, n)| ==>
      0 <= InKeyOrder(m, n)[j].productId < n && InKeyOrder(m, n)[j].productId in m &&
      m[InKeyOrder(m, n)[j].productId] == InKeyOrder(m, n)[j]
    ensures forall j, k :: 0 <= j < k < |InKeyOrder(m, n)| ==>
      InKeyOrder(m, n)[j].productId < InKeyOrder(m, n)[k].productId
    ensures forall key :: key in m && key < n ==>
      exists j :: 0 <= j < |InKeyOrder(m, n)| && InKeyOrder(m, n)[j].productId == key
  {
    if n > 0 {
      InKeyOrderShape(m, n - 1);
      var prev := InKeyOrder(m, n - 1);
      if n - 1 in m {
        var s := prev + [m[n - 1]];
        assert InKeyOrder(m, n) == s;
        assert s[..|prev|] == prev;
        forall j | 0 <= j < |s|
          ensures 0 <= s[j].productId < n && s[j].productId in m && m[s[j].productId] == s[j]
        {
          if j < |prev| {
            assert s[j] == prev[j];
          } else {
            assert s[j] == m[n - 1];
          }
        }
        forall key | key in m && key < n ensures exists j :: 0 <= j < |s| && s[j].productId == key {
          if key < n - 1 {
            var j :| 0 <= j < |prev| && prev[j].productId == key;
            assert s[j] == prev[j];
          } else {
            assert s[|prev|] == m[key];
          }
        }
      } else {
        assert InKeyOrder(m, n) == prev;
      }
    }
  }

  lemma TallyKeyedById(cart: seq<Product>)
    ensures KeyedById(Tally(cart))
  {
  }

  /** Each product id appears once, in ascending id order. */
  lemma GroupedIdsAscending(cart: seq<Product>)
    ensures forall j, k :: 0 <= j < k < |Grouped(cart)| ==>
      Grouped(cart)[j].productId < Grouped(cart)[k].productId
  {
    TallyKeyedById(cart);
    InKeyOrderShape(Tally(cart), Bound(cart));
  }

  /** Each grouped item stands for the cart entries with its id: its quantity is their
      number (at least one) and its price is the first such entry's. */
  lemma GroupedItemsCountEntries(cart: seq<Product>)
    ensures forall j :: 0 <= j < |Grouped(cart)| ==>
      && Grouped(cart)[j].productId in CartIds(cart)
      && Grouped(cart)[j].quantity == Count(cart, Grouped(cart)[j].productId) >= 1
      && Grouped(cart)[j].price == FirstPrice(cart, Grouped(cart)[j].productId)
  {
    TallyKeyedById(cart);
    InKeyOrderShape(Tally(cart), Bound(cart));
  }

  /** Every cart entry is represented by a grouped item with its id. */
  lemma GroupedCoversCart(cart: seq<Product>)
    ensures forall i :: 0 <= i < |cart| ==>
      exists j :: 0 <= j < |Grouped(cart)| && Grouped(cart)[j].productId == cart[i].id
  {
    TallyKeyedById(cart);
    InKeyOrderShape(Tally(cart), Bound(cart));
    var g := InKeyOrder(Tally(cart), Bound(cart));
    assert Grouped(cart) == g;
    forall i | 0 <= i < |cart| ensures exists j :: 0 <= j < |g| && g[j].productId == cart[i].id {
      assert cart[i].id in Tally(cart) && cart[i].id < Bound(cart);
    }
  }

  lemma {:induction false} CountBelowNext(cart: seq<Product>, n: nat)
    ensures CountBelow(cart, n + 1) == CountBelow(cart, n) + Count(cart, n)
  {
    if cart != [] {
      CountBelowNext(cart[..|cart| - 1], n);
    }
  }

  lemma {:induction false} CountBelowAll(cart: seq<Product>, n: nat)
    requires forall i :: 0 <= i < |cart| ==> cart[i].id < n
    ensures CountBelow(cart, n) == |cart|
  {
    if cart != [] {
      var init := cart[..|cart| - 1];
      assert forall i :: 0 <= i < |init| ==> init[i] == cart[i];
      CountBelowAll(init, n);
    }
  }

  lemma CountBelowZero(cart: seq<Product>)
    ensures CountBelow(cart, 0) == 0
  {
  }

  lemma {:induction false} InKeyOrderTotal(cart: seq<Product>, n: nat)
    ensures TotalQuantity(InKeyOrder(Tally(cart), n)) == CountBelow(cart, n)
  {
    if n == 0 {
      CountBelowZero(cart);
    } else {
      InKeyOrderTotal(cart, n - 1);
      CountBelowNext(cart, n - 1);
      var prev := InKeyOrder(Tally(cart), n - 1);
      if n - 1 in Tally(cart) {
        var s := prev + [Tally(cart)[n - 1]];
        assert InKeyOrder(Tally(cart), n) == s;
        assert s[..|s| - 1] == prev;
        assert Tally(cart)[n - 1].quantity == Count(cart, n - 1);
      } else {
        assert Count(cart, n - 1) == 0;
        assert InKeyOrder(Tally(cart), n) == prev;
      }
    }
  }

  /** The quantities of the grouped items add up to the number of cart entries. */
  lemma GroupedQuantitiesSumToCartLength(cart: seq<Product>)
    ensures TotalQuantity(Grouped(cart)) == |cart|
  {
    InKeyOrderTotal(cart, Bound(cart));
    CountBelowAll(cart, Bound(cart));
  }

  /** A non-empty cart groups into a non-empty item list, and an empty one into none. */
  lemma GroupedNonEmpty(cart: seq<Product>)
    ensures |Grouped(cart)| > 0 <==> |cart| > 0
  {
    GroupedQuantitiesSumToCartLength(cart);
    if |cart| == 0 {
      assert Bound(cart) == 0;
    }
  }
}
