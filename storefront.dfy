/** The storefront page's state and handlers: the product list loaded with retries, the
    cart that `addToCart` appends to, and the order form's submit handler, which groups
    the cart, posts the order and empties the cart when the server accepts it.

    The network is replaced by injected outcomes: `Attempt` for each product fetch and
    `PostResult` for the order post. */
module Storefront {
  import opened Orders
  import opened Cart
  import OrderStore
  import OrderRoute

  /** `products.find(p => p.id === id)`: the first product with that id, if any. */
  function FindProduct(products: seq<Product>, id: ProductId): (r: Option<Product>)
    ensures r.None? <==> forall i :: 0 <= i < |products| ==> products[i].id != id
    ensures r.Some? ==> exists i :: 0 <= i < |products| && products[i] == r.value && r.value.id == id &&
                                    forall j :: 0 <= j < i ==> products[j].id != id
  {
    if products == [] then None
    else if products[0].id == id then Some(products[0])
    else
      var r := FindProduct(products[1..], id);
      assert forall i :: 1 <= i < |products| ==> products[i] == products[1..][i - 1];
      r
  }

  /** How the order post ends: the request fails outright, or an HTTP status arrives. */
  datatype PostResult = NetworkError | Answered(status: int)

  /** `res.ok`: a status in the 200-299 range. */
  predicate Ok(r: PostResult)
  {
    r.Answered? && 200 <= r.status <= 299
  }

  /** Every cart entry is a product (`find` found it). */
  predicate AllFound(cart: seq<Option<Product>>)
  {
    forall i :: 0 <= i < |cart| ==> cart[i].Some?
  }

  function Found(cart: seq<Option<Product>>): (ps: seq<Product>)
    requires AllFound(cart)
    ensures |ps| == |cart|
    ensures forall i :: 0 <= i < |cart| ==> cart[i] == Some(ps[i])
  {
    if cart == [] then [] else Found(cart[..|cart| - 1]) + [cart[|cart| - 1].value]
  }

  /** The order the submit handler posts for `cart`, or `None` when it posts nothing: an
      empty cart only raises an alert, and an entry that is not a product makes the total's
      `reduce` throw before the request is built. */
  function OrderToSend(cart: seq<Option<Product>>, name: string, email: string, total: Money): (r: Option<OrderData>)
    ensures r.Some? <==> |cart| > 0 && AllFound(cart)
    ensures r.Some? ==> HasItems(r.value)
    ensures r.Some? ==> r.value.customerName == name && r.value.customerEmail == email
    ensures r.Some? ==> r.value.items == Some(Grouped(Found(cart)))
  {
    if |cart| == 0 || !AllFound(cart) then None
    else
      GroupedNonEmpty(Found(cart));
      Some(OrderData(name, email, total, Some(Grouped(Found(cart)))))
  }

  /** One product fetch: the request fails, the response is not ok, or a list is parsed. */
  datatype Attempt = Rejected | NotOk | Parsed(list: seq<Product>)

  /** Whether `fetchProducts` keeps the outcome of an attempt made with `retries` left: a
      parsed list is kept unless it is empty while retries remain. */
  predicate Accepts(a: Attempt, retries: nat)
  {
    a.Parsed? && (|a.list| > 0 || retries == 0)
  }

  /** A run of `fetchProducts`: the attempts made, the delays waited between them, the
      last list parsed (what `products` was last set to), and whether the list was rendered
      (otherwise the error message is shown). */
  datatype LoadRun = LoadRun(attempts: nat, waits: seq<nat>, lastParsed: Option<seq<Product>>, rendered: bool)

  /** The list parsed by the last of the attempts numbered `n` to `m - 1` that parsed one,
      or none when none of them did. */
  function LastParsed(outcome: nat -> Attempt, n: nat, m: nat): Option<seq<Product>>
    decreases m - n
  {
    if m <= n then None
    else
      var later := LastParsed(outcome, n + 1, m);
      if later.Some? then later
      else if outcome(n).Parsed? then Some(outcome(n).list)
      else None
  }

  /** `LastParsed` is none exactly when no attempt parsed, and otherwise the list of a
      parsing attempt after which none parsed. */
  lemma {:induction false} LastParsedIsLastList(outcome: nat -> Attempt, n: nat, m: nat)
    ensures LastParsed(outcome, n, m).None? <==> forall k :: n <= k < m ==> !outcome(k).Parsed?
    ensures LastParsed(outcome, n, m).Some? ==>
      exists k :: n <= k < m && outcome(k).Parsed? && LastParsed(outcome, n, m).value == outcome(k).list &&
                  forall k' :: k < k' < m ==> !outcome(k').Parsed?
    decreases m - n
  {
    if n < m {
      LastParsedIsLastList(outcome, n + 1, m);
    }
  }

  /** `fetchProducts(retries, delay)` whose attempts, numbered from `n`, end as `outcome`
      says; each retry is scheduled with `setTimeout(.., delay)` and doubles the delay. */
  function LoadProducts(retries: nat, delay: nat, outcome: nat -> Attempt, n: nat): (r: LoadRun)
    decreases retries
    ensures 1 <= r.attempts <= retries + 1
    ensures |r.waits| == r.attempts - 1
    ensures |r.waits| > 0 ==> r.waits[0] == delay
    ensures forall k :: 0 <= k < |r.waits| - 1 ==> r.waits[k + 1] == 2 * r.waits[k]
    ensures forall k :: n <= k < n + r.attempts - 1 ==> !Accepts(outcome(k), retries - (k - n))
    ensures r.rendered <==> Accepts(outcome(n + r.attempts - 1), retries - (r.attempts - 1))
    ensures !r.rendered ==> r.attempts == retries + 1
    ensures r.rendered ==> r.lastParsed.Some?
    ensures r.rendered ==> r.lastParsed == Some(outcome(n + r.attempts - 1).list)
    ensures r.rendered && r.lastParsed.value == [] ==> r.attempts == retries + 1
    // every attempt that parses sets `products`, so the run keeps the last list parsed
    ensures r.lastParsed == LastParsed(outcome, n, n + r.attempts)
  {
    var a := outcome(n);
    var parsedHere := if a.Parsed? then Some(a.list) else None;
    if Accepts(a, retries) then LoadRun(1, [], parsedHere, true)
    else if retries == 0 then LoadRun(1, [], parsedHere, false)
    else
      var rest := LoadProducts(retries - 1, delay * 2, outcome, n + 1);
      LoadRun(rest.attempts + 1, [delay] + rest.waits,
              if rest.lastParsed.Some? then rest.lastParsed else parsedHere,
              rest.rendered)
  }

  function Pow2(k: nat): nat
  {
    if k == 0 then 1 else 2 * Pow2(k - 1)
  }

  /** The k-th wait is `delay * 2^k`. */
  lemma {:induction false} WaitsDoubleFromDelay(retries: nat, delay: nat, outcome: nat -> Attempt, n: nat, k: nat)
    requires k < |LoadProducts(retries, delay, outcome, n).waits|
    ensures LoadProducts(retries, delay, outcome, n).waits[k] == delay * Pow2(k)
  {
    var w := LoadProducts(retries, delay, outcome, n).waits;
    if k > 0 {
      WaitsDoubleFromDelay(retries, delay, outcome, n, k - 1);
      assert w[k] == 2 * w[k - 1];
      assert delay * Pow2(k) == 2 * (delay * Pow2(k - 1));
    }
  }

  /** The page loads with `fetchProducts()`, whose defaults are 5 retries and a 1000 ms
      first delay. */
  const DefaultRetries: nat := 5
  const DefaultDelay: nat := 1000

  /** With the defaults: at most six attempts, waiting 1000 ms, 2000 ms, 4000 ms, ... between
      them. */
  lemma DefaultSchedule(outcome: nat -> Attempt)
    ensures LoadProducts(DefaultRetries, DefaultDelay, outcome, 0).attempts <= 6
    ensures forall k :: 0 <= k < |LoadProducts(DefaultRetries, DefaultDelay, outcome, 0).waits| ==>
      LoadProducts(DefaultRetries, DefaultDelay, outcome, 0).waits[k] == 1000 * Pow2(k)
  {
  }

  /** The page's state: the loaded products and the cart. */
  class Shop {
    var products: seq<Product>
    var cart: seq<Option<Product>>

    constructor ()
      ensures products == [] && cart == []
    {
      products, cart := [], [];
    }

    /** `addToCart(id)`: appends what `find` returns (possibly nothing) at the end. */
    method AddToCart(id: ProductId)
      modifies this
      ensures cart == old(cart) + [FindProduct(products, id)]
      ensures products == old(products)
    {
      var product := FindProduct(products, id);
      cart := cart + [product];
    }

    /** The order form's submit handler with the page's floating-point `total`. */
    method SubmitOrder(name: string, email: string, total: Money, response: PostResult)
      returns (sent: Option<OrderData>)
      modifies this
      ensures sent == OrderToSend(old(cart), name, email, total)
      ensures cart == (if sent.Some? && Ok(response) then [] else old(cart))
      ensures products == old(products)
    {
      if |cart| == 0 {
        return None;
      }
      if !AllFound(cart) {
        return None;
      }
      var items := GroupCart(Found(cart));
      sent := Some(OrderData(name, email, total, Some(items)));
      if Ok(response) {
        cart := [];
      }
    }

    /** `fetchProducts(retries, delay)`: `products` ends as the last list parsed. */
    method FetchProducts(retries: nat, delay: nat, outcome: nat -> Attempt) returns (run: LoadRun)
      modifies this
      ensures run == LoadProducts(retries, delay, outcome, 0)
      ensures products == (if run.lastParsed.Some? then run.lastParsed.value else old(products))
      ensures run.lastParsed == LastParsed(outcome, 0, run.attempts)
      ensures cart == old(cart)
    {
      run := LoadProducts(retries, delay, outcome, 0);
      if run.lastParsed.Some? {
        products := run.lastParsed.value;
      }
    }
  }

  /** End to end: an order the page posts always passes the server's validation and is
      answered 201 or 202 by the handler as written, so the page empties its cart. */
  lemma PostedCartIsAccepted(cart: seq<Option<Product>>, name: string, email: string, total: Money,
                             producer: bool, race: OrderRoute.Race, t: OrderStore.Tables, db: OrderStore.DbOutcome)
    requires OrderToSend(cart, name, email, total).Some?
    ensures OrderRoute.HandleOrder(OrderToSend(cart, name, email, total).value, producer, race, t, db).reply.status in {201, 202}
    ensures Ok(Answered(OrderRoute.HandleOrder(OrderToSend(cart, name, email, total).value, producer, race, t, db).reply.status))
  {
  }
}
