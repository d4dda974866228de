/** The order store: the `orders` and `order_items` tables behind a connection pool, and
    `processOrder`, which writes one order and its items in one transaction.

    The database driver is replaced by injected outcomes (`DbOutcome`): whether
    `getConnection`, `beginTransaction` and `commit` succeed, and which INSERT, if any,
    is the first to fail. */
module OrderStore {
  import opened Orders

  datatype Status = Processed

  datatype OrderRow = OrderRow(
    id: nat,
    customerName: string,
    customerEmail: string,
    totalAmount: Money,
    status: Status)

  datatype ItemRow = ItemRow(orderId: nat, productId: int, quantity: int, price: Money)

  /** The committed, visible content of the two tables and the AUTO_INCREMENT counter of
      `orders`. */
  datatype Tables = Tables(orders: seq<OrderRow>, items: seq<ItemRow>, nextId: nat)

  /** What the database does with one `processOrder` call. `failingInsert` is the index of
      the first INSERT that throws: 0 is the `orders` row, j >= 1 the row of the j-th item;
      an index past the last statement, or `None`, means every INSERT succeeds. */
  datatype DbOutcome = DbOutcome(
    connects: bool,
    begins: bool,
    failingInsert: Option<nat>,
    commits: bool)

  /** How a `processOrder` call ends. `RolledBack(idTaken)` records whether the `orders`
      INSERT had already run, which consumes an AUTO_INCREMENT value that a rollback does
      not give back. */
  datatype TxEnd = NoConnection | BeginFailed | RolledBack(idTaken: bool) | Committed

  function OrderRowFor(id: nat, d: OrderData): OrderRow
  {
    OrderRow(id, d.customerName, d.customerEmail, d.totalAmount, Processed)
  }

  function ItemRowFor(orderId: nat, it: Item): ItemRow
  {
    ItemRow(orderId, it.productId, it.quantity, it.price)
  }

  /** The `order_items` rows written for `items`, one per item, in input order. */
  function ItemRowsFor(orderId: nat, items: seq<Item>): (rows: seq<ItemRow>)
    ensures |rows| == |items|
    ensures forall j :: 0 <= j < |items| ==> rows[j] == ItemRowFor(orderId, items[j])
  {
    if items == [] then []
    else ItemRowsFor(orderId, items[..|items| - 1]) + [ItemRowFor(orderId, items[|items| - 1])]
  }

  /** Whether one of the first `n` item INSERTs (statements 1..n) fails. */
  predicate ItemInsertFails(db: DbOutcome, n: nat)
  {
    db.failingInsert.Some? && 1 <= db.failingInsert.value <= n
  }

  /** Which way `processOrder(d)` leaves, given the database's behaviour. */
  function TxEndOf(d: OrderData, db: DbOutcome): (e: TxEnd)
    ensures e == Committed ==> d.items.Some?
  {
    if !db.connects then NoConnection
    else if !db.begins then BeginFailed
    else if db.failingInsert == Some(0) then RolledBack(false)
    // `for (const item of items)` over an absent `items` throws a TypeError
    else if d.items.None? then RolledBack(true)
    else if ItemInsertFails(db, |d.items.value|) then RolledBack(true)
    else if !db.commits then RolledBack(true)
    else Committed
  }

  /** The tables after `processOrder(d)`. */
  function Persisted(t: Tables, d: OrderData, db: DbOutcome): Tables
  {
    match TxEndOf(d, db)
    case Committed =>
      Tables(t.orders + [OrderRowFor(t.nextId, d)],
             t.items + ItemRowsFor(t.nextId, d.items.value),
             t.nextId + 1)
    case RolledBack(taken) => t.(nextId := if taken then t.nextId + 1 else t.nextId)
    case _ => t
  }

  function OrderIds(orders: seq<OrderRow>): set<nat>
  {
    set i | 0 <= i < |orders| :: orders[i].id
  }

  /** Identifiers are issued in increasing order below the counter, and every item row
      references an existing order (the `order_id` foreign key). */
  ghost predicate Integrity(t: Tables)
  {
    && (forall i :: 0 <= i < |t.orders| ==> t.orders[i].id < t.nextId)
    && (forall i, j :: 0 <= i < j < |t.orders| ==> t.orders[i].id < t.orders[j].id)
    && (forall k :: 0 <= k < |t.items| ==> t.items[k].orderId in OrderIds(t.orders))
  }

  /** A transaction commits exactly when every step succeeded. */
  lemma CommitsIffEveryStepSucceeds(d: OrderData, db: DbOutcome)
    ensures TxEndOf(d, db) == Committed <==>
      db.connects && db.begins && db.failingInsert != Some(0) && d.items.Some? &&
      !ItemInsertFails(db, |d.items.value|) && db.commits
  {
  }

  /** All or nothing: `processOrder` either leaves both tables as they were, or appends
      exactly one `Processed` order and one item row per input item, in input order, each
      carrying the new order's id. */
  lemma PersistedAllOrNothing(t: Tables, d: OrderData, db: DbOutcome)
    ensures var r := Persisted(t, d, db);
      || (TxEndOf(d, db) != Committed && r.orders == t.orders && r.items == t.items)
      || (&& TxEndOf(d, db) == Committed
          && |r.orders| == |t.orders| + 1
          && r.orders[..|t.orders|] == t.orders
          && r.orders[|t.orders|] == OrderRowFor(t.nextId, d)
          && r.orders[|t.orders|].status == Processed
          && |r.items| == |t.items| + |d.items.value|
          && r.items[..|t.items|] == t.items
          && forall j :: 0 <= j < |d.items.value| ==>
               r.items[|t.items| + j] == ItemRowFor(r.orders[|t.orders|].id, d.items.value[j]))
  {
  }

  /** A failed write (after the transaction began, or before) leaves no row behind. */
  lemma FailedWriteLeavesNoRows(t: Tables, d: OrderData, db: DbOutcome)
    requires TxEndOf(d, db) != Committed
    ensures Persisted(t, d, db).orders == t.orders
    ensures Persisted(t, d, db).items == t.items
    ensures Persisted(t, d, db).nextId <= t.nextId + 1
  {
  }

  lemma OrderIdsAppend(orders: seq<OrderRow>, o: OrderRow)
    ensures OrderIds(orders + [o]) == OrderIds(orders) + {o.id}
  {
    var s := orders + [o];
    forall x | x in OrderIds(orders) ensures x in OrderIds(s) {
      var i :| 0 <= i < |orders| && orders[i].id == x;
      assert s[i].id == x;
    }
    assert s[|orders|].id == o.id;
  }

  /** `processOrder` preserves the integrity of the tables. */
  lemma PersistedKeepsIntegrity(t: Tables, d: OrderData, db: DbOutcome)
    requires Integrity(t)
    ensures Integrity(Persisted(t, d, db))
  {
    if TxEndOf(d, db) == Committed {
      var r := Persisted(t, d, db);
      OrderIdsAppend(t.orders, OrderRowFor(t.nextId, d));
      assert t.nextId in OrderIds(r.orders);
      forall k | 0 <= k < |r.items| ensures r.items[k].orderId in OrderIds(r.orders) {
        if k < |t.items| {
          assert r.items[k] == t.items[k];
        } else {
          assert r.items[k] == ItemRowFor(t.nextId, d.items.value[k - |t.items|]);
        }
      }
    }
  }

  /** The connection pool and the database behind it. The fields hold the committed rows;
      the rows a transaction writes are held in its write set until it commits.
      `checkedOut` counts connections taken from the pool and not yet released. */
  class Database {
    var orders: seq<OrderRow>
    var itemRows: seq<ItemRow>
    var nextId: nat
    var checkedOut: nat

    function Snapshot(): Tables
      reads this
    {
      Tables(orders, itemRows, nextId)
    }

    ghost predicate Valid()
      reads this
    {
      Integrity(Snapshot())
    }

    /** Empty tables; AUTO_INCREMENT starts at 1. */
    constructor ()
      ensures Valid()
      ensures Snapshot() == Tables([], [], 1) && checkedOut == 0
    {
      orders, itemRows, nextId, checkedOut := [], [], 1, 0;
    }

    /** The body of the inner `try`/`catch` of `processOrder`, on a connection whose
        transaction has begun: the INSERTs, then `commit`; on any error, `rollback`. */
    method Transact(d: OrderData, db: DbOutcome) returns (end: TxEnd)
      requires Valid() && db.connects && db.begins
      modifies this`orders, this`itemRows, this`nextId
      ensures Valid()
      ensures end == TxEndOf(d, db)
      ensures Snapshot() == Persisted(old(Snapshot()), d, db)
    {
      if db.failingInsert == Some(0) {
        return RolledBack(false);
      }
      var orderId := nextId;
      nextId := nextId + 1;
      var orderRow := OrderRowFor(orderId, d);
      if d.items.None? {
        return RolledBack(true);
      }
      var items := d.items.value;
      var pending: seq<ItemRow> := [];
      var k := 0;
      while k < |items|
        invariant 0 <= k <= |items|
        invariant pending == ItemRowsFor(orderId, items[..k])
        invariant !ItemInsertFails(db, k)
      {
        if db.failingInsert == Some(k + 1) {
          return RolledBack(true);
        }
        assert items[..k + 1][..k] == items[..k];
        pending := pending + [ItemRowFor(orderId, items[k])];
        k := k + 1;
      }
      assert items[..k] == items;
      if !db.commits {
        return RolledBack(true);
      }
      PersistedKeepsIntegrity(old(Snapshot()), d, db);
      orders := orders + [orderRow];
      itemRows := itemRows + pending;
      end := Committed;
    }

    /** `processOrder` as written: it never reports failure to its caller (the outer
        `catch` logs and swallows every error), and it releases the connection only in the
        inner `finally`, so a `beginTransaction` failure leaves a connection checked out.
        `end` is ghost: it names the exit for the proofs, and callers cannot branch on it. */
    method ProcessOrder(d: OrderData, db: DbOutcome) returns (ghost end: TxEnd)
      requires Valid()
      modifies this
      ensures Valid()
      ensures end == TxEndOf(d, db)
      ensures Snapshot() == Persisted(old(Snapshot()), d, db)
      ensures checkedOut == old(checkedOut) + (if end == BeginFailed then 1 else 0)
    {
      if !db.connects {
        return NoConnection;
      }
      checkedOut := checkedOut + 1;
      if !db.begins {
        return BeginFailed;
      }
      end := Transact(d, db);
      checkedOut := checkedOut - 1;
    }

    /** `processOrder` with the release moved to a `finally` that also covers
        `beginTransaction`: every connection taken is returned. Errors are still swallowed,
        so `end` is ghost here too. */
    method ProcessOrderReleasing(d: OrderData, db: DbOutcome) returns (ghost end: TxEnd)
      requires Valid()
      modifies this
      ensures Valid()
      ensures end == TxEndOf(d, db)
      ensures Snapshot() == Persisted(old(Snapshot()), d, db)
      ensures checkedOut == old(checkedOut)
    {
      if !db.connects {
        return NoConnection;
      }
      checkedOut := checkedOut + 1;
      if db.begins {
        end := Transact(d, db);
      } else {
        end := BeginFailed;
      }
      checkedOut := checkedOut - 1;
    }
  }

  /** A concrete run of `processOrder` as written in which `beginTransaction` fails: the
      connection it took is still checked out afterwards. */
  method ConnectionLeakWitness() returns (leaked: nat)
    ensures leaked == 1
  {
    var store := new Database();
    var order := OrderData("Ana", "a@x.com", 1998, Some([Item(1, 2, 999)]));
    ghost var _ := store.ProcessOrder(order, DbOutcome(true, false, None, true));
    leaked := store.checkedOut;
  }
}
