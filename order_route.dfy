/** The `POST /api/orders` handler: validate, publish to the broker under a 5-second
    deadline when a producer exists, otherwise (or when publishing fails or times out)
    write the order directly with `processOrder`.

    The race between the publish and the timer is an injected outcome (`Race`); the store
    is the pure `Persisted` effect of `processOrder`. */
module OrderRoute {
  import opened Orders
  import opened OrderStore

  /** How `Promise.race` between `createBatch`/`sendBatch` and the 5-second timer settles. */
  datatype Race = Sent | SendError | Timeout

  datatype Reply = Reply(status: int, text: string)

  /** What one request produced: the HTTP reply, how many publishes were started, how many
      times `processOrder` ran, and the tables afterwards. */
  datatype Handled = Handled(reply: Reply, publishes: nat, persistCalls: nat, tables: Tables)

  const NoItemsError := "No items in order"
  const QueuedMessage := "Order placed successfully! Processing in background."
  const DirectMessage := "Order placed and processed."
  const LocalModeMessage := "Order placed successfully (Local Mode due to Network)."
  const FailedError := "Failed to process order."

  /** The handler as written. `processOrder` never throws (its outer `catch` swallows every
      error), so the fallback's own `catch`, the 500 reply, cannot be reached. */
  function HandleOrder(req: OrderData, producer: bool, race: Race, t: Tables, db: DbOutcome): (h: Handled)
    // validation: 400 exactly for absent or empty items, before any broker or store work
    ensures h.reply.status == 400 <==> !HasItems(req)
    ensures !HasItems(req) ==> h.publishes == 0 && h.persistCalls == 0 && h.tables == t
    // the publish is attempted once when a producer exists, and never retried
    ensures h.publishes == (if HasItems(req) && producer then 1 else 0)
    // 202 only for a publish that won the race; the request then writes nothing itself
    ensures h.reply.status == 202 <==> HasItems(req) && producer && race == Sent
    ensures h.reply.status == 202 ==> h.persistCalls == 0 && h.tables == t
    // every other valid request reaches processOrder exactly once and is answered 201
    ensures HasItems(req) && (!producer || race != Sent) ==>
      h.persistCalls == 1 && h.reply.status == 201 && h.tables == Persisted(t, req, db)
    ensures h.reply.status != 500
    // the wording tells a fallback after a broker failure from the local-only path
    ensures HasItems(req) && producer && race != Sent ==> h.reply.text == LocalModeMessage
    ensures HasItems(req) && !producer ==> h.reply.text == DirectMessage
  {
    if !HasItems(req) then
      Handled(Reply(400, NoItemsError), 0, 0, t)
    else if producer && race == Sent then
      Handled(Reply(202, QueuedMessage), 1, 0, t)
    else if producer then
      Handled(Reply(201, LocalModeMessage), 1, 1, Persisted(t, req, db))
    else
      Handled(Reply(201, DirectMessage), 0, 1, Persisted(t, req, db))
  }

  /** The handler unchanged, with `processOrder` rethrowing a failed write instead of
      swallowing it, as the fallback's `catch` and its 500 reply evidently expect. The
      direct call sits inside the outer `try`, so a failed direct write falls into that
      `catch` and is tried once more; `retry` is what the database does on that second
      call. On the fallback path `db` governs the one call in the `catch`. */
  function HandleOrderChecked(req: OrderData, producer: bool, race: Race, t: Tables,
                              db: DbOutcome, retry: DbOutcome): (h: Handled)
    ensures h.reply.status == 400 <==> !HasItems(req)
    ensures h.reply.status == 202 <==> HasItems(req) && producer && race == Sent
    // the direct path writes once, or twice when the first write fails; the fallback once
    ensures h.persistCalls ==
      (if !HasItems(req) || (producer && race == Sent) then 0
       else if producer || TxEndOf(req, db) == Committed then 1
       else 2)
    // 201 exactly when one of those writes committed, 500 exactly when none did
    ensures h.reply.status == 201 <==>
      h.persistCalls >= 1 && (TxEndOf(req, db) == Committed || (h.persistCalls == 2 && TxEndOf(req, retry) == Committed))
    ensures h.reply.status == 500 <==> h.persistCalls >= 1 && h.reply.status != 201
    ensures h.reply.status == 201 ==>
      |h.tables.orders| == |t.orders| + 1 && h.tables.orders[..|t.orders|] == t.orders
    ensures h.reply.status == 500 ==> h.tables.orders == t.orders && h.tables.items == t.items
    // a direct order stored on the second try is reported with the broker-failure wording
    ensures h.persistCalls == 2 && h.reply.status == 201 ==> h.reply.text == LocalModeMessage
  {
    if !HasItems(req) then
      Handled(Reply(400, NoItemsError), 0, 0, t)
    else if producer && race == Sent then
      Handled(Reply(202, QueuedMessage), 1, 0, t)
    else if !producer && TxEndOf(req, db) == Committed then
      Handled(Reply(201, DirectMessage), 0, 1, Persisted(t, req, db))
    else
      // the outer `catch`: one `processOrder` call, answered 201 or 500
      var before := if producer then t else Persisted(t, req, db);
      var calls := if producer then 1 else 2;
      var second := if producer then db else retry;
      var publishes := if producer then 1 else 0;
      if TxEndOf(req, second) == Committed then
        Handled(Reply(201, LocalModeMessage), publishes, calls, Persisted(before, req, second))
      else
        Handled(Reply(500, FailedError), publishes, calls, Persisted(before, req, second))
  }

  /** The handler as written answers 201 on the direct path even when nothing was stored:
      a failed `getConnection` (or any failed write) still yields "Order placed and
      processed." with no new row. */
  lemma CreatedWithoutStoredOrder(req: OrderData, t: Tables, db: DbOutcome)
    requires HasItems(req) && !db.connects
    ensures HandleOrder(req, false, Sent, t, db).reply == Reply(201, DirectMessage)
    ensures HandleOrder(req, false, Sent, t, db).tables.orders == t.orders
    ensures HandleOrderChecked(req, false, Sent, t, db, db).reply.status == 500
  {
  }

  /** On the fallback path a request is answered identically whatever the store did:
      the reply never reveals whether the order was written. */
  lemma FallbackReplyIndependentOfStore(req: OrderData, producer: bool, race: Race,
                                        t: Tables, db1: DbOutcome, db2: DbOutcome)
    requires HasItems(req) && (!producer || race != Sent)
    ensures HandleOrder(req, producer, race, t, db1).reply == HandleOrder(req, producer, race, t, db2).reply
  {
  }

  /** The one-item order for "Ana" with no broker configured, every database call
      succeeding and empty tables: one `Processed` order row, one item row with quantity 2
      and unit price 9.99 (amounts in cents), and a 201 reply. */
  lemma DirectOrderScenario()
    ensures var req := OrderData("Ana", "a@x.com", 1998, Some([Item(1, 2, 999)]));
      var h := HandleOrder(req, false, Timeout, Tables([], [], 1), DbOutcome(true, true, None, true));
      && h.reply.status == 201
      && h.tables.orders == [OrderRow(1, "Ana", "a@x.com", 1998, Processed)]
      && h.tables.items == [ItemRow(1, 1, 2, 999)]
  {
    var req := OrderData("Ana", "a@x.com", 1998, Some([Item(1, 2, 999)]));
    var rows := ItemRowsFor(1, [Item(1, 2, 999)]);
    assert rows == [ItemRow(1, 1, 2, 999)];
  }

  /** A request never leaves the tables damaged: integrity holds after any request. */
  lemma HandleOrderKeepsIntegrity(req: OrderData, producer: bool, race: Race, t: Tables,
                                  db: DbOutcome, retry: DbOutcome)
    requires Integrity(t)
    ensures Integrity(HandleOrder(req, producer, race, t, db).tables)
    ensures Integrity(HandleOrderChecked(req, producer, race, t, db, retry).tables)
  {
    PersistedKeepsIntegrity(t, req, db);
    PersistedKeepsIntegrity(t, req, retry);
    PersistedKeepsIntegrity(Persisted(t, req, db), req, retry);
  }
}
