/** The Event Hub wiring: the start-up gate that creates the producer and the consumer only
    when both configuration values are set, and the consumer's `processEvents` handler,
    which writes each received order with `processOrder`, one event after another.

    Client construction and the database's behaviour per event are injected outcomes. */
module EventHub {
  import opened Orders
  import opened OrderStore

  /** The two environment values that enable the broker path; `None` when unset. */
  datatype HubConfig = HubConfig(connectionString: Option<string>, hubName: Option<string>)

  /** Which process-wide clients exist after start-up. */
  datatype Clients = Clients(producer: bool, consumer: bool)

  /** JavaScript truthiness of an environment value: set and not the empty string. */
  predicate IsSet(v: Option<string>)
  {
    v.Some? && v.value != ""
  }

  /** `initEventHub`: nothing is created unless both values are set; the producer is
      built first, and a constructor that throws ends the `try`, leaving the clients built
      so far. */
  function InitEventHub(cfg: HubConfig, producerBuilds: bool, consumerBuilds: bool): (c: Clients)
    ensures c.producer <==> IsSet(cfg.connectionString) && IsSet(cfg.hubName) && producerBuilds
    ensures c.consumer ==> c.producer && consumerBuilds
    ensures c.producer && consumerBuilds ==> c.consumer
  {
    if !IsSet(cfg.connectionString) || !IsSet(cfg.hubName) then Clients(false, false)
    else if !producerBuilds then Clients(false, false)
    else Clients(true, consumerBuilds)
  }

  /** One received event: its body and what the database does when it is written. */
  datatype Delivery = Delivery(body: OrderData, db: DbOutcome)

  /** The tables after writing `batch` one event at a time. */
  function ConsumeAll(t: Tables, batch: seq<Delivery>): Tables
  {
    if batch == [] then t
    else
      var last := batch[|batch| - 1];
      Persisted(ConsumeAll(t, batch[..|batch| - 1]), last.body, last.db)
  }

  /** Connections left checked out by the events of `batch` (one per failed
      `beginTransaction`). */
  function Leaked(batch: seq<Delivery>): nat
  {
    if batch == [] then 0
    else
      var last := batch[|batch| - 1];
      Leaked(batch[..|batch| - 1]) + (if TxEndOf(last.body, last.db) == BeginFailed then 1 else 0)
  }

  /** The bodies of the events whose write commits, in batch order. */
  function CommittedBodies(batch: seq<Delivery>): seq<OrderData>
  {
    if batch == [] then []
    else
      var last := batch[|batch| - 1];
      CommittedBodies(batch[..|batch| - 1]) + (if TxEndOf(last.body, last.db) == Committed then [last.body] else [])
  }

  /** `processEvents`: `processOrder` once per event, in batch order. Since `processOrder`
      never throws, a failed event does not stop the loop. */
  method ProcessEvents(store: Database, batch: seq<Delivery>)
    requires store.Valid()
    modifies store
    ensures store.Valid()
    ensures store.Snapshot() == ConsumeAll(old(store.Snapshot()), batch)
    ensures store.checkedOut == old(store.checkedOut) + Leaked(batch)
  {
    for i := 0 to |batch|
      invariant store.Valid()
      invariant store.Snapshot() == ConsumeAll(old(store.Snapshot()), batch[..i])
      invariant store.checkedOut == old(store.checkedOut) + Leaked(batch[..i])
    {
      assert batch[..i + 1][..i] == batch[..i];
      ghost var _ := store.ProcessOrder(batch[i].body, batch[i].db);
    }
    assert batch[..|batch|] == batch;
  }

  /** Every event whose write commits adds its order, whatever happened to the events
      before it: the new `orders` rows are exactly the committed events' orders, in batch
      order. */
  lemma {:induction false} ConsumedOrdersFollowBatch(t: Tables, batch: seq<Delivery>)
    ensures var r := ConsumeAll(t, batch);
      && |r.orders| == |t.orders| + |CommittedBodies(batch)|
      && r.orders[..|t.orders|] == t.orders
      && t.nextId <= r.nextId
      && forall k :: 0 <= k < |CommittedBodies(batch)| ==>
           && r.orders[|t.orders| + k].(id := 0) == OrderRowFor(0, CommittedBodies(batch)[k])
           && t.nextId <= r.orders[|t.orders| + k].id < r.nextId
  {
    if batch != [] {
      var init := batch[..|batch| - 1];
      var last := batch[|batch| - 1];
      ConsumedOrdersFollowBatch(t, init);
      var mid := ConsumeAll(t, init);
      PersistedAllOrNothing(mid, last.body, last.db);
      var r := ConsumeAll(t, batch);
      assert r == Persisted(mid, last.body, last.db);
      assert r.orders[..|mid.orders|] == mid.orders;
      assert r.orders[..|t.orders|] == mid.orders[..|t.orders|];
      forall k | 0 <= k < |CommittedBodies(batch)|
        ensures r.orders[|t.orders| + k].(id := 0) == OrderRowFor(0, CommittedBodies(batch)[k])
        ensures t.nextId <= r.orders[|t.orders| + k].id < r.nextId
      {
        if k < |CommittedBodies(init)| {
          assert r.orders[|t.orders| + k] == mid.orders[|t.orders| + k];
        }
      }
    }
  }

  /** The consumer keeps the tables' integrity over a whole batch. */
  lemma {:induction false} ConsumeKeepsIntegrity(t: Tables, batch: seq<Delivery>)
    requires Integrity(t)
    ensures Integrity(ConsumeAll(t, batch))
  {
    if batch != [] {
      ConsumeKeepsIntegrity(t, batch[..|batch| - 1]);
      var last := batch[|batch| - 1];
      PersistedKeepsIntegrity(ConsumeAll(t, batch[..|batch| - 1]), last.body, last.db);
    }
  }

  /** No deduplication: the same order delivered twice, with both writes committing, is
      stored twice. */
  lemma DuplicateDeliveryStoredTwice(t: Tables, d: OrderData, db: DbOutcome)
    requires TxEndOf(d, db) == Committed
    ensures var r := ConsumeAll(t, [Delivery(d, db), Delivery(d, db)]);
      |r.orders| == |t.orders| + 2 &&
      r.orders[|t.orders|] == OrderRowFor(t.nextId, d) &&
      r.orders[|t.orders| + 1] == OrderRowFor(t.nextId + 1, d)
  {
    var b := [Delivery(d, db), Delivery(d, db)];
    assert b[..1] == [Delivery(d, db)];
    assert b[..1][..0] == [];
    var once := Persisted(t, d, db);
    assert ConsumeAll(t, b[..1]) == once;
    PersistedAllOrNothing(t, d, db);
    PersistedAllOrNothing(once, d, db);
  }
}
