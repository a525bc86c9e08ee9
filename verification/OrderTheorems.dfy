/** What a reader of the committed tables may rely on after any run of the order service. */
module OrderTheorems {
  import opened Types
  import opened Totals
  import opened Messages
  import opened OrderMachine
  import opened OrderInvariants

  /******* Requests *******/

  /**
   What the input checks are for: after any run every stored order has a positive amount and a currency, every
   payment a positive amount, and every idempotency row a key that is not blank.
   */
  lemma StoredRowsAreClean(cfg: Config, steps: seq<Step>)
    requires Exec(cfg, steps).Some?
    ensures
      var db := Exec(cfg, steps).value.db;
      && (forall o | o in db.orders :: db.orders[o].amountCents > 0 && db.orders[o].currency != "")
      && (forall p | p in db.payments :: db.payments[p].amountCents > 0)
      && (forall k | k in db.idem :: k.1 != "")
  {
    hide Exec;
    RunKeepsInv(cfg, steps);
    var db := Exec(cfg, steps).value.db;
    forall p | p in db.payments
      ensures db.payments[p].amountCents > 0
    {
      assert PaymentFits(db, p);
    }
  }

  /** Creations that differ only in case or surrounding space are one request, so each replays the other. */
  lemma SpellingDoesNotMatter(cfg: Config, a: Request, b: Request, row: IdemRow)
    requires a.CreateRequest? && b.CreateRequest? && Admit(cfg, a).Looking?
    requires a.user == b.user && a.httpMethod == b.httpMethod && a.path == b.path && a.amountCents == b.amountCents
    requires cfg.trim(a.key) == cfg.trim(b.key) && cfg.trim(a.description) == cfg.trim(b.description)
    requires cfg.trim(cfg.upper(a.currency)) == cfg.trim(cfg.upper(b.currency))
    ensures Admit(cfg, b).Looking?
    ensures Matches(cfg, Admit(cfg, a).request, row) <==> Matches(cfg, Admit(cfg, b).request, row)
    ensures HasKey(Admit(cfg, a).request) ==>
              HasKey(Admit(cfg, b).request) && KeyOf(Admit(cfg, a).request) == KeyOf(Admit(cfg, b).request)
  {
  }

  /** A process works on what it received last. */
  lemma RequestStays(cfg: Config, s: State, step: Step, p: nat)
    requires Enabled(cfg, s, step) && p in Apply(cfg, s, step).procs && !(step.Receive? && step.p == p)
    ensures p in s.procs && Apply(cfg, s, step).procs[p].request == s.procs[p].request
  {
    hide Committed, NewOrder, NewPayment, EventFor, RowFor, Resulting, Complete, Matches;
  }

  lemma {:induction false} ReceivedAs(cfg: Config, steps: seq<Step>, p: nat) returns (k: nat)
    requires Exec(cfg, steps).Some? && p in Exec(cfg, steps).value.procs
    ensures k < |steps| && steps[k].Receive? && steps[k].p == p
    ensures Exec(cfg, steps).value.procs[p].request == Normalised(cfg, steps[k].request)
  {
    hide Enabled, Apply, Normalised;
    var last := |steps| - 1;
    var s := Exec(cfg, steps[..last]).value;
    if steps[last].Receive? && steps[last].p == p {
      k := last;
      ReceivedIs(cfg, s, steps[last]);
    } else {
      RequestStays(cfg, s, steps[last], p);
      k := ReceivedAs(cfg, steps[..last], p);
    }
  }

  lemma ReceivedIs(cfg: Config, s: State, step: Step)
    requires Enabled(cfg, s, step) && step.Receive?
    ensures step.p in Apply(cfg, s, step).procs
    ensures Apply(cfg, s, step).procs[step.p].request == Normalised(cfg, step.request)
  {
  }

  /**
   Every payment or cancellation that commits, in any run, was asked for by an admin or by the user who owns the
   order, and the order was pending or failed until then.
   */
  lemma OnlyOwnersAndAdmins(cfg: Config, steps: seq<Step>, p: nat, reported: bool) returns (k: nat)
    requires Exec(cfg, steps).Some? && Enabled(cfg, Exec(cfg, steps).value, OrderMachine.Step.Commit(p, reported))
    requires !Exec(cfg, steps).value.procs[p].request.CreateRequest?
    ensures k < |steps| && steps[k].Receive? && steps[k].p == p && !steps[k].request.CreateRequest?
    ensures
      var db, sent := Exec(cfg, steps).value.db, steps[k].request;
      && sent.orderId.Parse().Some? && sent.orderId.Parse().value in db.orders
      && var o := db.orders[sent.orderId.Parse().value];
      && (sent.admin || sent.user == IdText(o.userId))
      && (o.status == PendingPayment || o.status == PaymentFailed)
  {
    hide Exec, Inv, TxOk, Complete;
    k := ReceivedAs(cfg, steps, p);
    RunKeepsInv(cfg, steps);
    var s := Exec(cfg, steps).value;
    ProcIsOk(cfg, s, p);
    CommitIsAllowed(cfg, s.db, s.procs[p].request, s.procs[p].tx);
  }

  lemma CommitIsAllowed(cfg: Config, db: Db, r: Request, tx: Tx)
    requires !r.CreateRequest? && Complete(r, tx) && TxOk(cfg, db, r, tx)
    ensures r.orderId.Parse().Some? && r.orderId.Parse().value in db.orders
    ensures
      var o := db.orders[r.orderId.Parse().value];
      (r.admin || r.user == IdText(o.userId)) && (o.status == PendingPayment || o.status == PaymentFailed)
  {
  }

  /******* The event history of an order *******/

  /** Created, then `declined` declined payments, then at most one closing event. */
  function Shaped(declined: nat, closing: Option<EventType>): seq<EventType> {
    [OrderCreated] + seq(declined, _ => PaymentDeclined) + if closing.Some? then [closing.value] else []
  }

  predicate Closing(closing: Option<EventType>) {
    closing.Some? ==> closing.value == PaymentSucceeded || closing.value == OrderCancelled
  }

  function StatusOf(declined: nat, closing: Option<EventType>): OrderStatus {
    if closing == Some(PaymentSucceeded) then Paid
    else if closing == Some(OrderCancelled) then Cancelled
    else if declined > 0 then PaymentFailed
    else PendingPayment
  }

  lemma {:induction false} ShapedFolds(declined: nat, closing: Option<EventType>)
    requires Closing(closing)
    ensures Fold(Shaped(declined, closing)) == In(StatusOf(declined, closing))
    decreases declined, closing.Some?
  {
    var h := Shaped(declined, closing);
    if closing.Some? {
      ShapedFolds(declined, None);
      assert h[..|h| - 1] == Shaped(declined, None);
    } else if declined > 0 {
      ShapedFolds(declined - 1, None);
      assert h[..|h| - 1] == Shaped(declined - 1, None);
    } else {
      assert h == [OrderCreated];
      assert h[..0] == [];
    }
  }

  lemma ShapedMore(declined: nat, closing: EventType)
    ensures Shaped(declined + 1, None) == Shaped(declined, None) + [PaymentDeclined]
    ensures Shaped(declined, Some(closing)) == Shaped(declined, None) + [closing]
  {
  }

  lemma {:induction false} FoldsShaped(h: seq<EventType>) returns (declined: nat, closing: Option<EventType>)
    requires Fold(h).In?
    ensures Closing(closing) && h == Shaped(declined, closing)
  {
    var init, last := h[..|h| - 1], h[|h| - 1];
    if init == [] {
      declined, closing := 0, None;
    } else {
      assert Fold(init) == Advance(Fold(init[..|init| - 1]), init[|init| - 1]);
      declined, closing := FoldsShaped(init);
      ShapedFolds(declined, closing);
      ShapedMore(declined, last);
      hide Shaped;
      if last == PaymentDeclined {
        declined := declined + 1;
      } else {
        closing := Some(last);
      }
    }
  }

  /**
   In every reachable state the events of an order are created, declined*, and then nothing, one
   success or one cancellation; that shape, and no other, is the order's status.
   */
  lemma HistoryDeterminesStatus(cfg: Config, steps: seq<Step>, o: Uuid) returns (declined: nat, closing: Option<EventType>)
    requires Exec(cfg, steps).Some? && o in Exec(cfg, steps).value.db.orders
    ensures
      var db := Exec(cfg, steps).value.db;
      Closing(closing) && History(db.outbox, o) == Shaped(declined, closing)
      && db.orders[o].status == StatusOf(declined, closing)
  {
    RunKeepsInv(cfg, steps);
    var db := Exec(cfg, steps).value.db;
    assert Fold(History(db.outbox, o)) == PhaseOf(db, o);
    declined, closing := FoldsShaped(History(db.outbox, o));
    ShapedFolds(declined, closing);
  }

  lemma EventsLeaveNoOrder(h: seq<EventType>)
    ensures Fold(h).NoOrder? ==> h == []
  {
    if h != [] {
      var before, last := Fold(h[..|h| - 1]), h[|h| - 1];
      assert Fold(h) == Advance(before, last);
    }
  }

  /** An id that names no order has no events. */
  lemma NoOrderNoEvents(cfg: Config, steps: seq<Step>, o: Uuid)
    requires Exec(cfg, steps).Some?
    ensures var db := Exec(cfg, steps).value.db; o !in db.orders ==> History(db.outbox, o) == []
  {
    hide Exec, Fold, History, ProcsOk, OrdersOk, LedgerOk, OutboxOk, IdemOk, CountsOk;
    RunKeepsInv(cfg, steps);
    var db := Exec(cfg, steps).value.db;
    assert Fold(History(db.outbox, o)) == PhaseOf(db, o);
    if o !in db.orders {
      EventsLeaveNoOrder(History(db.outbox, o));
    }
  }

  /******* Payments *******/

  /** The last character of the canonical text of an id. */
  function LastDigit(id: Uuid): char {
    "0123456789abcdef"[id % 16]
  }

  /** A payment is declined exactly if its id ends in 0 or f; it has a reference or a reason, never both. */
  lemma MockPaymentByLastDigit(id: Uuid)
    ensures var (status, providerRef, reason) := MockPayment(id);
      && (status == Declined <==> LastDigit(id) == '0' || LastDigit(id) == 'f')
      && (status == Succeeded <==> providerRef == MockRef(id))
      && (status == Succeeded <==> reason == "")
      && (status == Declined <==> providerRef.Blank())
  {
    var digits := "0123456789abcdef";
    assert |digits| == 16 && digits[0] == '0' && digits[15] == 'f';
    assert forall k | 0 < k < 15 :: digits[k] != '0' && digits[k] != 'f';
    assert |"mock payment declined"| == 21;
  }

  ghost predicate HasPayment(db: Db, o: Uuid) {
    exists id, st :: IsPayment(db, id, o, st)
  }

  ghost predicate HasSuccess(db: Db, o: Uuid) {
    exists id :: IsPayment(db, id, o, Succeeded)
  }

  /**
   The payments of an order against its status. Having payments and no success among them is the same as
   `payment_failed` for exactly those orders that were not cancelled after a payment, and having no payment is
   the same as `pending_payment` for exactly those that were not cancelled before one.
   */
  lemma PaymentsMatchStatus(cfg: Config, steps: seq<Step>, o: Uuid)
    requires Exec(cfg, steps).Some? && o in Exec(cfg, steps).value.db.orders
    ensures
      var db := Exec(cfg, steps).value.db;
      var status := db.orders[o].status;
      && (status == Paid <==> exists id :: OnlySuccess(db, id, o))
      && (status == Paid <==> HasSuccess(db, o))
      && ((status == PaymentFailed <==> HasPayment(db, o) && !HasSuccess(db, o))
          <==> !(status == Cancelled && HasPayment(db, o)))
      && ((status == PendingPayment <==> !HasPayment(db, o)) <==> !(status == Cancelled && !HasPayment(db, o)))
  {
    hide MockPayment, Exec;
    RunKeepsInv(cfg, steps);
    var db := Exec(cfg, steps).value.db;
    if db.orders[o].status == Paid {
      var id :| OnlySuccess(db, id, o);
      assert IsPayment(db, id, o, Succeeded);
    } else if db.orders[o].status == PaymentFailed {
      var id :| IsPayment(db, id, o, Declined);
    }
    if HasPayment(db, o) && !HasSuccess(db, o) {
      var id, st :| IsPayment(db, id, o, st);
      assert IsPayment(db, id, o, Succeeded) || IsPayment(db, id, o, Declined);
    }
  }

  /** The money received is exactly the money of the paid orders. */
  lemma MoneyIsConserved(cfg: Config, steps: seq<Step>)
    requires Exec(cfg, steps).Some?
    ensures
      var db := Exec(cfg, steps).value.db;
      Total(map p | p in db.payments :: if db.payments[p].status == Succeeded then db.payments[p].amountCents else 0)
      == Total(map o | o in db.orders :: if db.orders[o].status == Paid then db.orders[o].amountCents else 0)
  {
    RunKeepsInv(cfg, steps);
    var db := Exec(cfg, steps).value.db;
    assert Total(ReceivedAmounts(db.payments)) == Total(PaidAmounts(db.orders));
  }

  /******* Across the tables *******/

  /** Idempotency rows pair off with orders and payments, and every outbox row has its cause. */
  lemma TablesAgree(cfg: Config, steps: seq<Step>)
    requires Exec(cfg, steps).Some?
    ensures
      var db := Exec(cfg, steps).value.db;
      && |db.idem| == |db.orders| + |db.payments|
      && (forall k | k in db.idem :: Exists(db, db.idem[k].resource))
      && (forall k, l | k in db.idem && l in db.idem && k != l :: db.idem[k].resource != db.idem[l].resource)
      && (forall res | Exists(db, res) :: exists k :: k in db.idem && db.idem[k].resource == res)
      && |db.outbox| == |db.orders| + |db.payments| + |set o | o in db.orders && db.orders[o].status == Cancelled|
  {
    RunKeepsInv(cfg, steps);
    var db := Exec(cfg, steps).value.db;
    OnesCount(db.orders);
    assert CancelledOrders(db.orders) == set o | o in db.orders && db.orders[o].status == Cancelled;
    forall k | k in db.idem
      ensures Exists(db, db.idem[k].resource)
    {
      var r :| WrittenFor(cfg, db, k, r);
    }
  }

  /** Every outbox row is keyed by a live order, and its payload names that order and its user. */
  lemma EventsNameTheirOrder(cfg: Config, steps: seq<Step>, i: nat)
    requires Exec(cfg, steps).Some? && i < |Exec(cfg, steps).value.db.outbox|
    ensures
      var db := Exec(cfg, steps).value.db;
      var e := db.outbox[i];
      && e.partitionKey in db.orders
      && e.payload.orderId == e.partitionKey
      && e.payload.userId == db.orders[e.partitionKey].userId
      && (e.aggregateType.OrderAggregate? <==> e.eventType.OrderCreated? || e.eventType.OrderCancelled?)
  {
    RunKeepsInv(cfg, steps);
    var db := Exec(cfg, steps).value.db;
    assert EventFits(db, db.outbox[i]);
  }

  /** The envelope of a record, around these payload fields. */
  predicate Wraps(value: Json, e: Event, aggregate: string, aggregateId: Uuid, kind: string, payload: map<string, Json>) {
    && value.JObject? && value.fields.Keys == {"id", "aggregate_type", "aggregate_id", "event_type", "payload"}
    && value.fields["id"] == JText(IdText(e.id))
    && value.fields["aggregate_type"] == JText(Plain(aggregate)) && value.fields["aggregate_id"] == JText(IdText(aggregateId))
    && value.fields["event_type"] == JText(Plain(kind)) && value.fields["payload"] == JObject(payload)
  }

  /** What is sent about a payment attempt: the mock provider's reference, or the reason it declined. */
  predicate TellsOfPayment(value: Json, e: Event, o: Order, p: Payment) {
    if p.status == Succeeded then
      Wraps(value, e, "payment", p.id, "payment.succeeded", map[
        "payment_id" := JText(IdText(p.id)), "order_id" := JText(IdText(o.id)), "user_id" := JText(IdText(o.userId)),
        "status" := JText(Plain("succeeded")), "amount_cents" := JNumber(o.amountCents),
        "currency" := JText(Plain(o.currency)), "provider" := JText(Plain("mock")),
        "provider_ref" := JText(MockRef(p.id))])
    else
      Wraps(value, e, "payment", p.id, "payment.failed", map[
        "payment_id" := JText(IdText(p.id)), "order_id" := JText(IdText(o.id)), "user_id" := JText(IdText(o.userId)),
        "status" := JText(Plain("failed")), "amount_cents" := JNumber(o.amountCents),
        "currency" := JText(Plain(o.currency)), "provider" := JText(Plain("mock")),
        "failure_reason" := JText(Plain("mock payment declined"))])
  }

  /** What is sent about an order, or about a payment of it, read off the tables. */
  predicate Tells(value: Json, e: Event, db: Db)
    requires e.partitionKey in db.orders
  {
    var o := db.orders[e.partitionKey];
    match e.eventType
    case OrderCreated =>
      Wraps(value, e, "order", o.id, "order.created", map[
        "order_id" := JText(IdText(o.id)), "user_id" := JText(IdText(o.userId)),
        "status" := JText(Plain("pending_payment")), "amount_cents" := JNumber(o.amountCents),
        "currency" := JText(Plain(o.currency)), "description" := JText(Plain(o.description))])
    case OrderCancelled =>
      o.status == Cancelled && Wraps(value, e, "order", o.id, "order.cancelled", map[
        "order_id" := JText(IdText(o.id)), "user_id" := JText(IdText(o.userId)), "status" := JText(Plain("cancelled"))])
    case _ =>
      && e.aggregateId in db.payments && db.payments[e.aggregateId].orderId == o.id
      && TellsOfPayment(value, e, o, db.payments[e.aggregateId])
  }

  lemma TellsIfFits(db: Db, e: Event)
    requires OrdersOk(db) && LedgerOk(db) && EventFits(db, e)
    ensures Tells(Envelope(e), e, db)
  {
    EnvelopeFields(e);
    if e.eventType.PaymentSucceeded? || e.eventType.PaymentDeclined? {
      assert PaymentFits(db, e.aggregateId);
      hide EventFits, LedgerOk, OrdersOk;
      PaymentTells(e, db.orders[e.partitionKey], db.payments[e.aggregateId]);
    } else {
      hide LedgerOk, MockPayment, TellsOfPayment;
    }
  }

  lemma PaymentTells(e: Event, o: Order, p: Payment)
    requires e == PaymentEvent(o, p, e.id, e.createdAt) && p.amountCents == o.amountCents
    requires (p.status, p.providerRef, p.failureReason) == MockPayment(p.id)
    ensures TellsOfPayment(Envelope(e), e, o, p)
  {
    EnvelopeFields(e);
  }

  /** After any run, each outbox row is sent as a record that tells, field by field, what the tables hold. */
  lemma RecordsTellTheTables(cfg: Config, steps: seq<Step>, i: nat)
    requires Exec(cfg, steps).Some? && i < |Exec(cfg, steps).value.db.outbox|
    ensures
      var db := Exec(cfg, steps).value.db;
      var e := db.outbox[i];
      && e.partitionKey in db.orders
      && Message(e).key == IdText(e.partitionKey) && Message(e).value.Some? && Tells(Message(e).value.value, e, db)
  {
    hide Exec, Tells;
    RunKeepsInv(cfg, steps);
    var db := Exec(cfg, steps).value.db;
    assert EventFits(db, db.outbox[i]);
    TellsIfFits(db, db.outbox[i]);
  }
}
