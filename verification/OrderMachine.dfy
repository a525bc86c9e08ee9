/**
 The order service as a step machine: any number of API processes run CreateOrder, PayOrder
 and CancelOrder against shared tables, one statement at a time.

 Committed tables are in `Db`; what an open transaction has written is in its `Tx` and reaches the
 tables only at commit. A row lock or a pending unique key of one transaction makes the
 statements of others wait, and any statement of a transaction may fail and roll it back.
 */
module OrderMachine {
  import opened Types

  /** The text and hash functions of the runtime, which the service only calls. */
  datatype Config = Config(hash: RequestBody -> string, trim: string -> string, upper: string -> string)

  datatype RequestBody =
    | CreateBody(amountCents: int, currency: string, description: string)
    | PayBody(orderId: Text)

  datatype Request =
    | CreateRequest(user: Text, key: string, httpMethod: string, path: string,
                    amountCents: int, currency: string, description: string)
    | PayRequest(user: Text, admin: bool, orderId: Text, key: string, httpMethod: string, path: string)
    | CancelRequest(user: Text, admin: bool, orderId: Text)

  datatype ApiError =
    | InvalidInput | KeyRequired | IdempotencyConflict
    | NotFound | Forbidden | InvalidStatus
    | StoreError

  datatype Resource = OrderResource(id: Uuid) | PaymentResource(id: Uuid)

  datatype Outcome =
    | Answer(resource: Resource, statusCode: nat, cached: bool)
    | CancelDone(orderId: Uuid)
    | Failed(error: ApiError)

  datatype Response = Response(request: Request, outcome: Outcome)

  type Key = (Uuid, string)

  /** `statusCode` 0 stands for NULL. */
  datatype IdemRow = IdemRow(
    httpMethod: string, path: string, requestHash: string, statusCode: nat, resource: Resource)

  datatype Db = Db(
    orders: map<Uuid, Order>,
    payments: map<Uuid, Payment>,
    idem: map<Key, IdemRow>,
    outbox: seq<Event>)

  /** What an open transaction has locked and written; a field is `None` until its statement has run. */
  datatype Tx = Tx(
    startedAt: nat,
    locked: Option<Order>,
    payment: Option<Payment>,
    order: Option<Order>,
    event: Option<Event>,
    idem: Option<IdemRow>)

  datatype Proc =
    | Looking(request: Request)
    | Replaying(request: Request, row: IdemRow)
    | Ready(request: Request)
    | InTx(request: Request, tx: Tx)
    | Answering(request: Request, outcome: Outcome)

  datatype State = State(db: Db, procs: map<nat, Proc>, clock: nat, responses: seq<Response>)

  datatype Step =
    | Tick
    | Receive(p: nat, request: Request)
    | Lookup(p: nat, ok: bool)
    | ReadBack(p: nat, ok: bool)
    | Begin(p: nat)
    | InsertOrder(p: nat, id: Uuid)
    | LockOrder(p: nat)
    | InsertPayment(p: nat, id: Uuid)
    | UpdateStatus(p: nat)
    | InsertEvent(p: nat, id: Uuid)
    | InsertIdem(p: nat)
    | Commit(p: nat, reported: bool)
    | Fail(p: nat)
    | Respond(p: nat)
    | Crash(p: nat)

  function Init(): State {
    State(Db(map[], map[], map[], []), map[], 0, [])
  }

  /******* The service's own branches *******/

  /** The request that the service works on: key, currency and description trimmed, the currency in upper case. */
  function Normalised(cfg: Config, r: Request): Request {
    match r
    case CreateRequest(user, key, m, path, amount, currency, description) =>
      CreateRequest(user, cfg.trim(key), m, path, amount, cfg.trim(cfg.upper(currency)), cfg.trim(description))
    case PayRequest(user, admin, orderId, key, m, path) => PayRequest(user, admin, orderId, cfg.trim(key), m, path)
    case CancelRequest(user, admin, orderId) => CancelRequest(user, admin, orderId)
  }

  /** Input checks and normalisation, in the order of the source. */
  function Admit(cfg: Config, r: Request): (res: Proc)
    ensures res.Looking? || res.Ready? || res.Answering?
    ensures res.request == Normalised(cfg, r)
  {
    match r
    case CreateRequest(user, key, m, path, amount, currency, description) =>
      var key := cfg.trim(key);
      var currency := cfg.trim(cfg.upper(currency));
      var n := CreateRequest(user, key, m, path, amount, currency, cfg.trim(description));
      if key == "" then Answering(n, Failed(KeyRequired))
      else if user.Blank() || amount <= 0 || currency == "" then Answering(n, Failed(InvalidInput))
      else Looking(n)
    case PayRequest(user, admin, orderId, key, m, path) =>
      var key := cfg.trim(key);
      var n := PayRequest(user, admin, orderId, key, m, path);
      if user.Blank() || orderId.Blank() then Answering(n, Failed(InvalidInput))
      else if key == "" then Answering(n, Failed(KeyRequired))
      else Looking(n)
    case CancelRequest(user, admin, orderId) =>
      if user.Blank() || orderId.Blank() then Answering(r, Failed(InvalidInput))
      else Ready(r)
  }

  predicate Keyed(r: Request) {
    r.CreateRequest? || r.PayRequest?
  }

  function BodyOf(r: Request): RequestBody
    requires Keyed(r)
  {
    if r.CreateRequest? then CreateBody(r.amountCents, r.currency, r.description) else PayBody(r.orderId)
  }

  predicate HasKey(r: Request) {
    Keyed(r) && r.user.Parse().Some?
  }

  function KeyOf(r: Request): Key
    requires HasKey(r)
  {
    (r.user.Parse().value, r.key)
  }

  predicate Matches(cfg: Config, r: Request, row: IdemRow)
    requires Keyed(r)
  {
    row.httpMethod == r.httpMethod && row.path == r.path && row.requestHash == cfg.hash(BodyOf(r))
  }

  function RowFor(cfg: Config, r: Request, resource: Resource): IdemRow
    requires Keyed(r)
  {
    IdemRow(r.httpMethod, r.path, cfg.hash(BodyOf(r)), if r.CreateRequest? then 201 else 200, resource)
  }

  /** GetIdempotencyKey and what the service does with its result; any error counts as a miss. */
  function AfterLookup(cfg: Config, db: Db, r: Request, ok: bool): Proc
    requires Keyed(r)
  {
    if !ok || !HasKey(r) || KeyOf(r) !in db.idem then Ready(r)
    else if !Matches(cfg, r, db.idem[KeyOf(r)]) then Answering(r, Failed(IdempotencyConflict))
    else Replaying(r, db.idem[KeyOf(r)])
  }

  /** The replay branch: GetOrder, or GetPayment followed by GetOrder, on the stored resource id. */
  function AfterReadBack(db: Db, r: Request, row: IdemRow, ok: bool): Proc
    requires Keyed(r)
  {
    var code := if row.statusCode == 0 then 200 else row.statusCode;
    var id := row.resource.id;
    if !ok then Answering(r, Failed(StoreError))
    else if r.CreateRequest? then
      if id in db.orders then Answering(r, Answer(OrderResource(id), code, true))
      else Answering(r, Failed(StoreError))
    else
      if id in db.payments && db.payments[id].orderId in db.orders
      then Answering(r, Answer(PaymentResource(id), code, true))
      else Answering(r, Failed(StoreError))
  }

  predicate MayTouch(r: Request, o: Order)
    requires r.PayRequest? || r.CancelRequest?
  {
    r.admin || r.user == IdText(o.userId)
  }

  /** GetOrderForUpdate and the two guards that follow it. */
  function AfterLock(db: Db, r: Request, tx: Tx): Proc
    requires r.PayRequest? || r.CancelRequest?
  {
    if r.orderId.Parse().None? || r.orderId.Parse().value !in db.orders then Answering(r, Failed(NotFound))
    else
      var o := db.orders[r.orderId.Parse().value];
      if !MayTouch(r, o) then Answering(r, Failed(Forbidden))
      else if !o.status.Open() then Answering(r, Failed(InvalidStatus))
      else InTx(r, tx.(locked := Some(o)))
  }

  function NewOrder(r: Request, id: Uuid): Order
    requires r.CreateRequest? && r.user.Parse().Some?
  {
    Order(id, r.user.Parse().value, PendingPayment, r.amountCents, r.currency, r.description)
  }

  /** Declines exactly the ids whose last hexadecimal digit is 0 or f. */
  function MockPayment(id: Uuid): (PaymentStatus, Text, string) {
    if id % 16 == 0 || id % 16 == 15 then (Declined, Plain(""), "mock payment declined")
    else (Succeeded, MockRef(id), "")
  }

  function NewPayment(o: Order, id: Uuid): Payment {
    var (status, providerRef, reason) := MockPayment(id);
    Payment(id, o.id, status, o.amountCents, providerRef, reason)
  }

  function NextStatus(p: PaymentStatus): OrderStatus {
    if p.Declined? then PaymentFailed else Paid
  }

  function CreatedEvent(o: Order, id: Uuid, at: nat): Event {
    Event(id, OrderAggregate, o.id, o.id, OrderCreated,
          CreatedPayload(o.id, o.userId, PendingPayment, o.amountCents, o.currency, o.description), at)
  }

  function PaymentEvent(o: Order, p: Payment, id: Uuid, at: nat): Event {
    Event(id, PaymentAggregate, p.id, o.id, if p.status.Declined? then PaymentDeclined else PaymentSucceeded,
          PaymentPayload(p.id, o.id, o.userId, p.status, p.amountCents, o.currency, p.providerRef, p.failureReason),
          at)
  }

  function CancelledEvent(o: Order, id: Uuid, at: nat): Event {
    Event(id, OrderAggregate, o.id, o.id, OrderCancelled, CancelledPayload(o.id, o.userId, Cancelled), at)
  }

  /******* Locks and unique indexes *******/

  /** The order row this transaction holds: the one it locked, or the one it inserted. */
  function HeldOrder(tx: Tx): Option<Uuid> {
    if tx.locked.Some? then Some(tx.locked.value.id)
    else if tx.order.Some? then Some(tx.order.value.id)
    else None
  }

  predicate OtherTx(s: State, p: nat, q: nat) {
    q in s.procs && q != p && s.procs[q].InTx?
  }

  predicate OrderFree(s: State, p: nat, id: Uuid) {
    forall q | q in s.procs && OtherTx(s, p, q) :: HeldOrder(s.procs[q].tx) != Some(id)
  }

  predicate PaymentIdFree(s: State, p: nat, id: Uuid) {
    id !in s.db.payments
    && forall q | q in s.procs && OtherTx(s, p, q) :: s.procs[q].tx.payment.Some? ==> s.procs[q].tx.payment.value.id != id
  }

  predicate EventIdFree(s: State, p: nat, id: Uuid) {
    (forall e | e in s.db.outbox :: e.id != id)
    && forall q | q in s.procs && OtherTx(s, p, q) :: s.procs[q].tx.event.Some? ==> s.procs[q].tx.event.value.id != id
  }

  /** Whether a transaction of this request has inserted an idempotency row under `k`. */
  predicate Reserves(proc: Proc, k: Key) {
    proc.InTx? && proc.tx.idem.Some? && HasKey(proc.request) && KeyOf(proc.request) == k
  }

  predicate KeyFree(s: State, p: nat, k: Key) {
    k !in s.db.idem && forall q | q in s.procs && OtherTx(s, p, q) :: !Reserves(s.procs[q], k)
  }

  /******* Steps *******/

  function Resulting(r: Request, tx: Tx): Outcome
    requires Complete(r, tx)
  {
    match r
    case CreateRequest(_, _, _, _, _, _, _) => Answer(OrderResource(tx.order.value.id), 201, false)
    case PayRequest(_, _, _, _, _, _) => Answer(PaymentResource(tx.payment.value.id), 200, false)
    case CancelRequest(_, _, _) => CancelDone(tx.order.value.id)
  }

  /** Every statement of the transaction has run. */
  predicate Complete(r: Request, tx: Tx) {
    match r
    case CreateRequest(_, _, _, _, _, _, _) => HasKey(r) && tx.idem.Some? && tx.order.Some? && tx.event.Some?
    case PayRequest(_, _, _, _, _, _) =>
      HasKey(r) && tx.idem.Some? && tx.order.Some? && tx.event.Some? && tx.payment.Some?
    case CancelRequest(_, _, _) => tx.order.Some? && tx.event.Some?
  }

  predicate Enabled(cfg: Config, s: State, step: Step) {
    match step
    case Tick => true
    case Receive(p, _) => p !in s.procs
    case Lookup(p, _) => p in s.procs && s.procs[p].Looking? && Keyed(s.procs[p].request)
    case ReadBack(p, _) => p in s.procs && s.procs[p].Replaying? && Keyed(s.procs[p].request)
    case Begin(p) => p in s.procs && s.procs[p].Ready?
    case Fail(p) => p in s.procs && (s.procs[p].InTx? || s.procs[p].Ready?)
    case Respond(p) => p in s.procs && s.procs[p].Answering?
    case Crash(p) => p in s.procs
    case Commit(p, _) => Running(s, p) && Complete(s.procs[p].request, s.procs[p].tx)
    case InsertOrder(p, id) =>
      && Running(s, p)
      && var r, tx := s.procs[p].request, s.procs[p].tx;
      && r.CreateRequest? && r.user.Parse().Some? && tx.order.None?
      && id !in s.db.orders && OrderFree(s, p, id)
    case LockOrder(p) =>
      && Running(s, p)
      && var r, tx := s.procs[p].request, s.procs[p].tx;
      && (r.PayRequest? || r.CancelRequest?) && tx.locked.None?
      && (r.orderId.Parse().Some? ==> OrderFree(s, p, r.orderId.Parse().value))
    case InsertPayment(p, id) =>
      && Running(s, p)
      && var r, tx := s.procs[p].request, s.procs[p].tx;
      && r.PayRequest? && tx.locked.Some? && tx.payment.None? && PaymentIdFree(s, p, id)
    case UpdateStatus(p) =>
      && Running(s, p)
      && var r, tx := s.procs[p].request, s.procs[p].tx;
      && tx.locked.Some? && tx.order.None?
      && (r.CancelRequest? || (r.PayRequest? && tx.payment.Some?))
    case InsertEvent(p, id) =>
      && Running(s, p)
      && var r, tx := s.procs[p].request, s.procs[p].tx;
      && tx.order.Some? && tx.event.None? && EventIdFree(s, p, id)
      && (r.PayRequest? ==> tx.payment.Some? && tx.locked.Some?)
    case InsertIdem(p) =>
      && Running(s, p)
      && var r, tx := s.procs[p].request, s.procs[p].tx;
      && HasKey(r) && tx.event.Some? && tx.idem.None? && tx.order.Some? && KeyFree(s, p, KeyOf(r))
      && (r.PayRequest? ==> tx.payment.Some?)
  }

  predicate Running(s: State, p: nat) {
    p in s.procs && s.procs[p].InTx?
  }

  /** The tables after the commit of a complete transaction. */
  function Committed(db: Db, r: Request, tx: Tx): Db
    requires Complete(r, tx)
  {
    Db(
      db.orders[tx.order.value.id := tx.order.value],
      if r.PayRequest? then db.payments[tx.payment.value.id := tx.payment.value] else db.payments,
      if Keyed(r) then db.idem[KeyOf(r) := tx.idem.value] else db.idem,
      db.outbox + [tx.event.value])
  }

  /** The event a statement of transaction `tx` inserts. */
  function EventFor(r: Request, tx: Tx, id: Uuid): Event
    requires tx.order.Some? && (r.PayRequest? ==> tx.payment.Some? && tx.locked.Some?)
  {
    match r
    case CreateRequest(_, _, _, _, _, _, _) => CreatedEvent(tx.order.value, id, tx.startedAt)
    case PayRequest(_, _, _, _, _, _) => PaymentEvent(tx.locked.value, tx.payment.value, id, tx.startedAt)
    case CancelRequest(_, _, _) => CancelledEvent(tx.order.value, id, tx.startedAt)
  }

  /** What a failing statement makes the caller see; a failed locking read always means "not found". */
  function FailureOf(proc: Proc): ApiError {
    if proc.InTx? && (proc.request.PayRequest? || proc.request.CancelRequest?) && proc.tx.locked.None?
    then NotFound else StoreError
  }

  /** The process after a step that changes nothing but the process. */
  function Local(cfg: Config, s: State, step: Step): Proc
    requires Enabled(cfg, s, step)
    requires !step.Tick? && !step.Commit? && !step.Respond? && !step.Crash?
  {
    match step
    case Receive(p, r) => Admit(cfg, r)
    case Lookup(p, ok) => AfterLookup(cfg, s.db, s.procs[p].request, ok)
    case ReadBack(p, ok) => AfterReadBack(s.db, s.procs[p].request, s.procs[p].row, ok)
    case Begin(p) => InTx(s.procs[p].request, Tx(s.clock, None, None, None, None, None))
    case Fail(p) => Answering(s.procs[p].request, Failed(FailureOf(s.procs[p])))
    case InsertOrder(p, id) => s.procs[p].(tx := s.procs[p].tx.(order := Some(NewOrder(s.procs[p].request, id))))
    case LockOrder(p) => AfterLock(s.db, s.procs[p].request, s.procs[p].tx)
    case InsertPayment(p, id) =>
      s.procs[p].(tx := s.procs[p].tx.(payment := Some(NewPayment(s.procs[p].tx.locked.value, id))))
    case UpdateStatus(p) =>
      var tx := s.procs[p].tx;
      var status := if s.procs[p].request.CancelRequest? then Cancelled else NextStatus(tx.payment.value.status);
      s.procs[p].(tx := tx.(order := Some(tx.locked.value.(status := status))))
    case InsertEvent(p, id) =>
      s.procs[p].(tx := s.procs[p].tx.(event := Some(EventFor(s.procs[p].request, s.procs[p].tx, id))))
    case InsertIdem(p) =>
      var r, tx := s.procs[p].request, s.procs[p].tx;
      var resource := if r.CreateRequest? then OrderResource(tx.order.value.id) else PaymentResource(tx.payment.value.id);
      s.procs[p].(tx := tx.(idem := Some(RowFor(cfg, r, resource))))
  }

  function Apply(cfg: Config, s: State, step: Step): State
    requires Enabled(cfg, s, step)
  {
    match step
    case Tick => s.(clock := s.clock + 1)
    case Commit(p, reported) =>
      var r, tx := s.procs[p].request, s.procs[p].tx;
      var outcome := if reported then Resulting(r, tx) else Failed(StoreError);
      s.(db := Committed(s.db, r, tx), procs := s.procs[p := Answering(r, outcome)])
    case Respond(p) =>
      s.(procs := s.procs - {p},
         responses := s.responses + [Response(s.procs[p].request, s.procs[p].outcome)])
    case Crash(p) => s.(procs := s.procs - {p})
    case _ => s.(procs := s.procs[step.p := Local(cfg, s, step)])
  }

  /** The state after a run of steps from the empty database, if each of them was possible. */
  ghost function Exec(cfg: Config, steps: seq<Step>): Option<State> {
    if steps == [] then Some(Init())
    else
      var before := Exec(cfg, steps[..|steps| - 1]);
      if before.Some? && Enabled(cfg, before.value, steps[|steps| - 1])
      then Some(Apply(cfg, before.value, steps[|steps| - 1]))
      else None
  }
}
