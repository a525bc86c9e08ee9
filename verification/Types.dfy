/** The rows, messages and small value types shared by every component. */
module Types {

  datatype Option<+T> = None | Some(value: T)

  /** A UUID as a number; the last hexadecimal digit of its canonical text is `id % 16`. */
  type Uuid = nat

  /**
   A string: the canonical text of a UUID, another text for the same UUID (such as one in upper case),
   "mock_" followed by the canonical text, or any other text.
   */
  datatype Text = Plain(s: string) | IdText(id: Uuid) | Spelled(id: Uuid, form: nat) | MockRef(id: Uuid) {
    predicate Blank() {
      this == Plain("")
    }

    /** The UUID that the text is read as. */
    function Parse(): Option<Uuid> {
      if IdText? || Spelled? then Some(id) else None
    }
  }

  datatype Json =
    | JNull
    | JText(text: Text)
    | JNumber(n: int)
    | JObject(fields: map<string, Json>)

  datatype OrderStatus = PendingPayment | Paid | PaymentFailed | Cancelled {
    predicate Open() {
      PendingPayment? || PaymentFailed?
    }

    function Name(): string {
      match this
      case PendingPayment => "pending_payment"
      case Paid => "paid"
      case PaymentFailed => "payment_failed"
      case Cancelled => "cancelled"
    }
  }

  datatype PaymentStatus = Succeeded | Declined {
    function Name(): string {
      match this
      case Succeeded => "succeeded"
      case Declined => "failed"
    }
  }

  datatype AggregateType = OrderAggregate | PaymentAggregate {
    function Name(): string {
      match this
      case OrderAggregate => "order"
      case PaymentAggregate => "payment"
    }
  }

  datatype EventType = OrderCreated | OrderCancelled | PaymentSucceeded | PaymentDeclined {
    function Name(): string {
      match this
      case OrderCreated => "order.created"
      case OrderCancelled => "order.cancelled"
      case PaymentSucceeded => "payment.succeeded"
      case PaymentDeclined => "payment.failed"
    }
  }

  datatype Order = Order(
    id: Uuid, userId: Uuid, status: OrderStatus, amountCents: int, currency: string, description: string)

  datatype Payment = Payment(
    id: Uuid, orderId: Uuid, status: PaymentStatus, amountCents: int,
    providerRef: Text, failureReason: string)

  /** The three payload structs of the service. */
  datatype Payload =
    | CreatedPayload(orderId: Uuid, userId: Uuid, status: OrderStatus, amountCents: int,
                     currency: string, description: string)
    | PaymentPayload(paymentId: Uuid, orderId: Uuid, userId: Uuid, paymentStatus: PaymentStatus,
                     amountCents: int, currency: string, providerRef: Text, failureReason: string)
    | CancelledPayload(orderId: Uuid, userId: Uuid, status: OrderStatus)

  /** One outbox row as the service inserts it; `createdAt` is the start time of its transaction. */
  datatype Event = Event(
    id: Uuid, aggregateType: AggregateType, aggregateId: Uuid, partitionKey: Uuid,
    eventType: EventType, payload: Payload, createdAt: nat)

  /** The payload as it is stored and sent, field names as in the struct tags. */
  function Marshal(p: Payload): Json {
    match p
    case CreatedPayload(orderId, userId, status, amountCents, currency, description) =>
      JObject(map[
        "order_id" := JText(IdText(orderId)),
        "user_id" := JText(IdText(userId)),
        "status" := JText(Plain(status.Name())),
        "amount_cents" := JNumber(amountCents),
        "currency" := JText(Plain(currency)),
        "description" := JText(Plain(description))])
    case PaymentPayload(paymentId, orderId, userId, status, amountCents, currency, providerRef, failureReason) =>
      JObject(
        map[
          "payment_id" := JText(IdText(paymentId)),
          "order_id" := JText(IdText(orderId)),
          "user_id" := JText(IdText(userId)),
          "status" := JText(Plain(status.Name())),
          "amount_cents" := JNumber(amountCents),
          "currency" := JText(Plain(currency)),
          "provider" := JText(Plain("mock"))]
        + (if providerRef.Blank() then map[] else map["provider_ref" := JText(providerRef)])
        + (if failureReason == "" then map[] else map["failure_reason" := JText(Plain(failureReason))]))
    case CancelledPayload(orderId, userId, status) =>
      JObject(map[
        "order_id" := JText(IdText(orderId)),
        "user_id" := JText(IdText(userId)),
        "status" := JText(Plain(status.Name()))])
  }

  /** There is always a number that is not in use. */
  lemma {:induction false} Unused(ids: set<nat>) returns (free: nat)
    ensures forall id | id in ids :: id < free
  {
    if ids == {} {
      free := 0;
    } else {
      var id :| id in ids;
      var rest := Unused(ids - {id});
      free := if rest > id then rest else id + 1;
      forall other | other in ids
        ensures other < free
      {
        assert other == id || other in ids - {id};
      }
    }
  }
}
