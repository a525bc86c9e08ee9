/** The migration that adds `partition_key` to an outbox table written before the column existed. */
module Migration {
  import opened Types
  import opened Messages
  import opened OrderMachine
  import opened OrderInvariants

  /** One outbox row; `partitionKey` is `None` for NULL and for a column that does not exist. */
  datatype Row = Row(id: Uuid, aggregateType: string, aggregateId: Uuid, payload: Json, partitionKey: Option<Uuid>)

  /** The value of a SQL expression, or an error that aborts the statement. */
  datatype Value = Null | Key(id: Uuid) | CastError

  /** `payload->>'order_id'` as text; `None` is NULL. Numbers and objects have a text that is no UUID. */
  function OrderIdText(payload: Json): Option<Text> {
    if !payload.JObject? || "order_id" !in payload.fields then None
    else
      match payload.fields["order_id"]
      case JNull => None
      case JText(text) => Some(text)
      case _ => Some(Plain("other"))
  }

  function CastToUuid(text: Option<Text>): Value {
    match text
    case None => Null
    case Some(t) => if t.Parse().Some? then Key(t.Parse().value) else CastError
  }

  /** The CASE expression of the UPDATE. */
  function Backfill(row: Row): Value {
    if row.aggregateType == "order" then Key(row.aggregateId)
    else if row.aggregateType == "payment" then CastToUuid(OrderIdText(row.payload))
    else Null
  }

  /** The aborted transaction leaves the table as it was. */
  method RollBack(rows: array<Row>, saved: seq<Row>)
    requires |saved| == rows.Length
    modifies rows
    ensures rows[..] == saved
  {
    for i := 0 to rows.Length
      invariant rows[..i] == saved[..i]
    {
      rows[i] := saved[i];
    }
  }

  /** ADD COLUMN: every row starts with NULL. */
  method AddColumn(rows: array<Row>)
    modifies rows
    ensures forall i | 0 <= i < rows.Length :: rows[i] == old(rows[i]).(partitionKey := None)
  {
    for i := 0 to rows.Length
      invariant forall k | 0 <= k < i :: rows[k] == old(rows[k]).(partitionKey := None)
      invariant forall k | i <= k < rows.Length :: rows[k] == old(rows[k])
    {
      rows[i] := rows[i].(partitionKey := None);
    }
  }

  /** The UPDATE; a cast that fails aborts it. */
  method FillColumn(rows: array<Row>) returns (ok: bool)
    requires forall i | 0 <= i < rows.Length :: rows[i].partitionKey.None?
    modifies rows
    ensures ok <==> forall i | 0 <= i < rows.Length :: !Backfill(old(rows[i])).CastError?
    ensures ok ==> forall i | 0 <= i < rows.Length ::
                     rows[i] == match Backfill(old(rows[i]))
                                case Key(id) => old(rows[i]).(partitionKey := Some(id))
                                case _ => old(rows[i])
  {
    for i := 0 to rows.Length
      invariant forall k | 0 <= k < i :: !Backfill(old(rows[k])).CastError?
      invariant forall k | 0 <= k < i ::
                  rows[k] == match Backfill(old(rows[k]))
                             case Key(id) => old(rows[k]).(partitionKey := Some(id))
                             case _ => old(rows[k])
      invariant forall k | i <= k < rows.Length :: rows[k] == old(rows[k])
    {
      match Backfill(rows[i])
      case CastError => return false;
      case Null =>
      case Key(id) => rows[i] := rows[i].(partitionKey := Some(id));
    }
    ok := true;
  }

  /** SET NOT NULL looks at every row. */
  method CheckNotNull(rows: array<Row>) returns (ok: bool)
    ensures ok <==> forall i | 0 <= i < rows.Length :: rows[i].partitionKey.Some?
  {
    for i := 0 to rows.Length
      invariant forall k | 0 <= k < i :: rows[k].partitionKey.Some?
    {
      if rows[i].partitionKey.None? {
        return false;
      }
    }
    ok := true;
  }

  /**
   The migration as one transaction: it succeeds exactly on the tables in which every row has a key to
   find, then gives each row that key and changes nothing else; otherwise the table stays as it was.
   */
  method Up(rows: array<Row>) returns (ok: bool)
    modifies rows
    ensures ok <==> forall i | 0 <= i < rows.Length :: Backfill(old(rows[i])).Key?
    ensures ok ==> forall i | 0 <= i < rows.Length ::
                     rows[i] == old(rows[i]).(partitionKey := Some(Backfill(old(rows[i])).id))
    ensures !ok ==> rows[..] == old(rows[..])
  {
    var saved := rows[..];
    AddColumn(rows);
    ghost var bare := rows[..];
    forall i | 0 <= i < rows.Length
      ensures Backfill(bare[i]) == Backfill(old(rows[i]))
    {
      SameBackfill(old(rows[i]));
    }
    ok := FillColumn(rows);
    if ok {
      ok := CheckNotNull(rows);
    }
    if !ok {
      RollBack(rows, saved);
    }
  }

  lemma SameBackfill(row: Row)
    ensures Backfill(row.(partitionKey := None)) == Backfill(row)
  {
  }

  /** Down: the column is dropped again. */
  method Down(rows: array<Row>)
    modifies rows
    ensures forall i | 0 <= i < rows.Length :: rows[i] == old(rows[i]).(partitionKey := None)
  {
    AddColumn(rows);
  }

  /** A row of the service as it was stored before the column existed. */
  function Legacy(e: Event): Row {
    Row(e.id, e.aggregateType.Name(), e.aggregateId, Marshal(e.payload), None)
  }

  /** The backfill finds the key the service itself writes for the same event. */
  lemma BackfillAgrees(db: Db, e: Event)
    requires OrdersOk(db) && EventFits(db, e)
    ensures Backfill(Legacy(e)) == Key(e.partitionKey)
  {
    PayloadFields(e.payload);
    assert |"order"| == 5 && |"payment"| == 7;
  }

  /**
   On the outbox of any run of the service, stored without the column, the migration finds for every
   row the key the service writes today, which is the id of an existing order.
   */
  lemma LegacyOutboxMigrates(cfg: Config, steps: seq<Step>, i: nat)
    requires Exec(cfg, steps).Some? && i < |Exec(cfg, steps).value.db.outbox|
    ensures var db := Exec(cfg, steps).value.db;
      && Backfill(Legacy(db.outbox[i])) == Key(db.outbox[i].partitionKey)
      && db.outbox[i].partitionKey in db.orders
  {
    hide Exec;
    RunKeepsInv(cfg, steps);
    var db := Exec(cfg, steps).value.db;
    assert EventFits(db, db.outbox[i]);
    BackfillAgrees(db, db.outbox[i]);
  }

  /**
   The key that the backfill finds, exactly: the aggregate of an order row, the UUID in the payload's `order_id` of a
   payment row, and none for any other row. The cast fails exactly for a payment whose `order_id` is there but is no UUID.
   */
  lemma BackfillExactly(row: Row, id: Uuid)
    ensures Backfill(row) == Key(id) <==>
              || (row.aggregateType == "order" && row.aggregateId == id)
              || (row.aggregateType == "payment" && row.payload.JObject? && "order_id" in row.payload.fields
                  && row.payload.fields["order_id"].JText? && row.payload.fields["order_id"].text.Parse() == Some(id))
    ensures Backfill(row) == CastError <==>
              && row.aggregateType == "payment" && row.payload.JObject? && "order_id" in row.payload.fields
              && !row.payload.fields["order_id"].JNull?
              && (row.payload.fields["order_id"].JText? ==> row.payload.fields["order_id"].text.Parse().None?)
  {
    assert |"order"| == 5 && |"payment"| == 7;
  }

  /** A payment row without an order id, or with one that is no UUID, stops the whole migration. */
  lemma PaymentNeedsOrderId(row: Row)
    requires row.aggregateType == "payment"
    ensures Backfill(row).Key? <==>
              row.payload.JObject? && "order_id" in row.payload.fields
              && row.payload.fields["order_id"].JText? && row.payload.fields["order_id"].text.Parse().Some?
  {
    assert |"order"| == 5 && |"payment"| == 7;
  }
}
