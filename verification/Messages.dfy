/** The Kafka record the publisher sends for an outbox row, and what the consumer makes of a record. */
module Messages {
  import opened Types

  /** `value` is `None` for bytes that are not JSON. */
  datatype Record = Record(key: Text, value: Option<Json>)

  /** The publisher's envelope, field names as in its struct tags. */
  function Envelope(e: Event): Json {
    JObject(map[
      "id" := JText(IdText(e.id)),
      "aggregate_type" := JText(Plain(e.aggregateType.Name())),
      "aggregate_id" := JText(IdText(e.aggregateId)),
      "event_type" := JText(Plain(e.eventType.Name())),
      "payload" := Marshal(e.payload)])
  }

  function Message(e: Event): Record {
    Record(IdText(e.partitionKey), Some(Envelope(e)))
  }

  datatype Reason =
    | BadEnvelope | IdRequired | BadId | TypeRequired | BadPayload | UserRequired | BadUser

  datatype Verdict = Accepted(eventId: Uuid, user: Text, eventType: Text) | Discarded(reason: Reason)

  /** A string field of a struct: absent or null leaves it empty, any other kind is a decode error. */
  function StringField(fields: map<string, Json>, name: string): Option<Text> {
    if name !in fields || fields[name].JNull? then Some(Plain(""))
    else if fields[name].JText? then Some(fields[name].text)
    else None
  }

  /** The fields an object decodes to; a JSON null decodes to a struct left empty. */
  function ObjectFields(j: Json): Option<map<string, Json>> {
    match j
    case JObject(fields) => Some(fields)
    case JNull => Some(map[])
    case _ => None
  }

  /** The validation prefix of the consumer's Handle, check by check. */
  function Decode(value: Option<Json>): Verdict {
    if value.None? || ObjectFields(value.value).None? then Discarded(BadEnvelope)
    else
      var fields := ObjectFields(value.value).value;
      var id, eventType := StringField(fields, "id"), StringField(fields, "event_type");
      if id.None? || eventType.None?
         || StringField(fields, "aggregate_type").None? || StringField(fields, "aggregate_id").None?
      then Discarded(BadEnvelope)
      else if id.value.Blank() then Discarded(IdRequired)
      else if id.value.Parse().None? then Discarded(BadId)
      else if eventType.value.Blank() then Discarded(TypeRequired)
      else if "payload" !in fields || ObjectFields(fields["payload"]).None? then Discarded(BadPayload)
      else
        var user := StringField(ObjectFields(fields["payload"]).value, "user_id");
        if user.None? then Discarded(BadPayload)
        else if user.value.Blank() then Discarded(UserRequired)
        else if user.value.Parse().None? then Discarded(BadUser)
        else Accepted(id.value.Parse().value, user.value, eventType.value)
  }

  /** The name is absent, or stands for a text or null. */
  predicate TextOrNothing(f: map<string, Json>, name: string) {
    name in f ==> f[name].JNull? || f[name].JText?
  }

  /**
   Exactly these records are accepted: an object with a UUID as `id`, a text that is not empty as `event_type`, no
   other kind than text as the aggregate's type and id, and a payload object with a UUID as `user_id`.
   */
  lemma AcceptedExactly(value: Option<Json>, id: Uuid, user: Text, eventType: Text)
    ensures Decode(value) == Accepted(id, user, eventType) <==>
              && value.Some? && value.value.JObject?
              && var f := value.value.fields;
              && "id" in f && f["id"].JText? && f["id"].text.Parse() == Some(id)
              && "event_type" in f && f["event_type"] == JText(eventType) && eventType != Plain("")
              && TextOrNothing(f, "aggregate_type") && TextOrNothing(f, "aggregate_id")
              && "payload" in f && f["payload"].JObject?
              && "user_id" in f["payload"].fields && f["payload"].fields["user_id"] == JText(user)
              && user.Parse().Some?
  {
  }

  /** The event types as the service's constants spell them. */
  function TypeText(t: EventType): string {
    match t
    case OrderCreated => "order.created"
    case PaymentSucceeded => "payment.succeeded"
    case PaymentDeclined => "payment.failed"
    case OrderCancelled => "order.cancelled"
  }

  /** The order statuses as the service's constants spell them. */
  function StatusText(status: OrderStatus): string {
    match status
    case PendingPayment => "pending_payment"
    case Paid => "paid"
    case PaymentFailed => "payment_failed"
    case Cancelled => "cancelled"
  }

  /** The field names are pairwise different, so each one is read back as it was written. */
  lemma EnvelopeFields(e: Event)
    ensures Message(e).key == IdText(e.partitionKey) && Message(e).value == Some(Envelope(e)) && Envelope(e).JObject?
    ensures var f := Envelope(e).fields;
      && f.Keys == {"id", "aggregate_type", "aggregate_id", "event_type", "payload"}
      && f["id"] == JText(IdText(e.id))
      && f["aggregate_type"] == JText(Plain(if e.aggregateType == OrderAggregate then "order" else "payment"))
      && f["aggregate_id"] == JText(IdText(e.aggregateId))
      && f["event_type"] == JText(Plain(TypeText(e.eventType)))
      && f["payload"] == Marshal(e.payload)
  {
    assert |"id"| == 2 && |"payload"| == 7 && |"event_type"| == 10;
    assert |"aggregate_type"| == 14 && |"aggregate_id"| == 12;
  }

  /** A text field that is there only if it is not empty. */
  predicate Omitted(f: map<string, Json>, name: string, text: Text) {
    (name in f <==> text != Plain("")) && (name in f ==> f[name] == JText(text))
  }

  /** What is read back from a payload under every name; there are no other names. */
  predicate ReadsBack(f: map<string, Json>, p: Payload) {
    match p
    case CreatedPayload(orderId, userId, status, amountCents, currency, description) =>
      && f.Keys == {"order_id", "user_id", "status", "amount_cents", "currency", "description"}
      && f["order_id"] == JText(IdText(orderId)) && f["user_id"] == JText(IdText(userId))
      && f["status"] == JText(Plain(StatusText(status))) && f["amount_cents"] == JNumber(amountCents)
      && f["currency"] == JText(Plain(currency)) && f["description"] == JText(Plain(description))
    case PaymentPayload(paymentId, orderId, userId, status, amountCents, currency, providerRef, failureReason) =>
      && {"payment_id", "order_id", "user_id", "status", "amount_cents", "currency", "provider"} <= f.Keys
      && f.Keys <= {"payment_id", "order_id", "user_id", "status", "amount_cents", "currency", "provider",
                    "provider_ref", "failure_reason"}
      && f["payment_id"] == JText(IdText(paymentId))
      && f["order_id"] == JText(IdText(orderId)) && f["user_id"] == JText(IdText(userId))
      && f["status"] == JText(Plain(if status == Succeeded then "succeeded" else "failed"))
      && f["amount_cents"] == JNumber(amountCents) && f["currency"] == JText(Plain(currency))
      && f["provider"] == JText(Plain("mock"))
      && Omitted(f, "provider_ref", providerRef) && Omitted(f, "failure_reason", Plain(failureReason))
    case CancelledPayload(orderId, userId, status) =>
      && f.Keys == {"order_id", "user_id", "status"}
      && f["order_id"] == JText(IdText(orderId)) && f["user_id"] == JText(IdText(userId))
      && f["status"] == JText(Plain(StatusText(status)))
  }

  /** Two more fields with names of their own, each left out if its text is empty. */
  lemma OmittedFields(f: map<string, Json>, a: string, textA: Text, b: string, textB: Text)
    requires a !in f && b !in f && a != b
    ensures
      var g := f + (if textA == Plain("") then map[] else map[a := JText(textA)])
                 + (if textB == Plain("") then map[] else map[b := JText(textB)]);
      && Omitted(g, a, textA) && Omitted(g, b, textB)
      && f.Keys <= g.Keys <= f.Keys + {a, b} && forall name | name in f :: g[name] == f[name]
  {
  }

  /** The fields that every payment payload has. */
  function PaymentBase(p: Payload): (f: map<string, Json>)
    requires p.PaymentPayload?
    ensures f.Keys == {"payment_id", "order_id", "user_id", "status", "amount_cents", "currency", "provider"}
    ensures f["payment_id"] == JText(IdText(p.paymentId)) && f["order_id"] == JText(IdText(p.orderId))
    ensures f["user_id"] == JText(IdText(p.userId)) && f["amount_cents"] == JNumber(p.amountCents)
    ensures f["status"] == JText(Plain(if p.paymentStatus == Succeeded then "succeeded" else "failed"))
    ensures f["currency"] == JText(Plain(p.currency)) && f["provider"] == JText(Plain("mock"))
  {
    assert |"user_id"| == 7 && |"status"| == 6 && |"payment_id"| == 10 && |"amount_cents"| == 12;
    assert "currency"[0] == 'c' && "order_id"[0] == 'o' && "provider"[0] == 'p';
    map[
      "payment_id" := JText(IdText(p.paymentId)),
      "order_id" := JText(IdText(p.orderId)),
      "user_id" := JText(IdText(p.userId)),
      "status" := JText(Plain(p.paymentStatus.Name())),
      "amount_cents" := JNumber(p.amountCents),
      "currency" := JText(Plain(p.currency)),
      "provider" := JText(Plain("mock"))]
  }

  lemma PaymentFields(p: Payload)
    requires p.PaymentPayload?
    ensures Marshal(p).JObject? && ReadsBack(Marshal(p).fields, p)
  {
    var base := PaymentBase(p);
    assert "provider_ref" !in base && "failure_reason" !in base && |"provider_ref"| != |"failure_reason"| by {
      assert |"user_id"| == 7 && |"order_id"| == |"currency"| == |"provider"| == 8 && |"status"| == 6;
      assert |"payment_id"| == 10 && |"failure_reason"| == 14;
      assert |"amount_cents"| == |"provider_ref"| == 12 && "provider_ref"[0] == 'p' && "amount_cents"[0] == 'a';
    }
    OmittedFields(base, "provider_ref", p.providerRef, "failure_reason", Plain(p.failureReason));
    hide Omitted;
    assert Marshal(p).fields ==
           base + (if p.providerRef == Plain("") then map[] else map["provider_ref" := JText(p.providerRef)])
           + (if Plain(p.failureReason) == Plain("") then map[]
              else map["failure_reason" := JText(Plain(p.failureReason))]);
  }

  /** Each field of a payload is sent under its own name, an empty reference or reason not at all, and nothing else. */
  lemma PayloadFields(p: Payload)
    ensures Marshal(p).JObject? && ReadsBack(Marshal(p).fields, p)
    ensures "user_id" in Marshal(p).fields && Marshal(p).fields["user_id"] == JText(IdText(p.userId))
    ensures "order_id" in Marshal(p).fields && Marshal(p).fields["order_id"] == JText(IdText(p.orderId))
  {
    if p.PaymentPayload? {
      PaymentFields(p);
    } else {
      assert |"user_id"| == 7 && |"order_id"| == 8 && |"status"| == 6 && |"amount_cents"| == 12;
      assert "currency"[0] == 'c' && "order_id"[0] == 'o' && |"description"| == 11;
    }
  }

  /** The consumer accepts everything the publisher sends, and reads the id, user and type that were sent. */
  lemma ConsumerAcceptsPublisher(e: Event)
    ensures Decode(Message(e).value) == Accepted(e.id, IdText(e.payload.userId), Plain(TypeText(e.eventType)))
  {
    EnvelopeFields(e);
    PayloadFields(e.payload);
  }

  /** Different outbox rows are sent as different records. */
  lemma MessageInjective(a: Event, b: Event)
    requires Message(a) == Message(b)
    ensures a.id == b.id
  {
    EnvelopeFields(a);
    EnvelopeFields(b);
  }
}
