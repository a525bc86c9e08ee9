/**
 CreateOrder, PayOrder and CancelOrder as the service runs them, statement by statement, while other
 processes run theirs in between and any statement may fail.
 */
module OrderService {
  import opened Types
  import opened OrderMachine
  import opened OrderInvariants
  import opened Idempotency

  /******* What one call does to the tables *******/

  /** Nothing committed is taken back, and a paid or cancelled order keeps its status. */
  ghost predicate Later(a: Db, b: Db) {
    && Grows(a, b)
    && forall id | id in a.orders && !a.orders[id].status.Open() :: id in b.orders && b.orders[id].status == a.orders[id].status
  }

  lemma LaterOnwards(a: Db, b: Db, c: Db)
    requires Later(a, b) && Later(b, c)
    ensures Later(a, c)
  {
  }

  lemma LaterSelf(a: Db)
    ensures Later(a, a)
  {
  }

  /** The key of a creation or a payment: the user's id and the text of the key. */
  function KeyIn(r: Request): Option<Key> {
    if r.CancelRequest? || r.user.Parse().None? then None else Some((r.user.Parse().value, r.key))
  }

  /** The hash of what a request asks for: of a creation the amount, currency and description, of a payment the order. */
  function BodyHash(cfg: Config, r: Request): string
    requires !r.CancelRequest?
  {
    match r
    case CreateRequest(_, _, _, _, amount, currency, description) => cfg.hash(CreateBody(amount, currency, description))
    case PayRequest(_, _, orderId, _, _, _) => cfg.hash(PayBody(orderId))
  }

  /** The row was kept for a request like this one. */
  predicate Agrees(cfg: Config, r: Request, row: IdemRow)
    requires !r.CancelRequest?
  {
    row.httpMethod == r.httpMethod && row.path == r.path && row.requestHash == BodyHash(cfg, r)
  }

  lemma AgreesIsMatches(cfg: Config, r: Request, row: IdemRow)
    requires Keyed(r)
    ensures Agrees(cfg, r, row) <==> Matches(cfg, r, row)
  {
  }

  lemma KeyInIsKeyOf(r: Request)
    ensures KeyIn(r).Some? <==> HasKey(r)
    ensures HasKey(r) ==> KeyIn(r).value == KeyOf(r)
  {
  }

  /** The row that CreateOrder or PayOrder keeps under the key of request `r`. */
  predicate KeptFor(cfg: Config, row: IdemRow, r: Request, resource: Resource)
    requires !r.CancelRequest?
  {
    row == IdemRow(r.httpMethod, r.path, BodyHash(cfg, r), if r.CreateRequest? then 201 else 200, resource)
  }

  /** The outbox grew by one new event about order `o`, stamped with the start of its transaction. */
  ghost predicate OneMoreEvent(a: Db, b: Db, o: Uuid, kind: EventType, aggregate: Uuid, payload: Payload, at: nat) {
    && |b.outbox| == |a.outbox| + 1 && a.outbox <= b.outbox
    && var e := b.outbox[|a.outbox|];
    && EventIdNew(a, e.id) && e.partitionKey == o && e.aggregateId == aggregate
    && e.aggregateType == (if kind in {OrderCreated, OrderCancelled} then OrderAggregate else PaymentAggregate)
    && e.eventType == kind && e.payload == payload && e.createdAt == at
  }

  /** CreateOrder wrote order `id` for request `r`, its event and its idempotency row, and nothing else. */
  ghost predicate OrderPlaced(cfg: Config, a: Db, b: Db, r: Request, id: Uuid, at: nat)
    requires r.CreateRequest? && KeyIn(r).Some?
  {
    && KeyIn(r).value !in a.idem && id !in a.orders && KeyIn(r).value in b.idem
    && b.orders == a.orders[id := Order(id, r.user.Parse().value, PendingPayment, r.amountCents, r.currency, r.description)]
    && b.payments == a.payments
    && b.idem == a.idem[KeyIn(r).value := b.idem[KeyIn(r).value]] && KeptFor(cfg, b.idem[KeyIn(r).value], r, OrderResource(id))
    && OneMoreEvent(a, b, id, OrderCreated, id,
                    CreatedPayload(id, r.user.Parse().value, PendingPayment, r.amountCents, r.currency, r.description), at)
  }

  /** The order that a pay or cancel request names, if the caller may change it as it is now. */
  predicate Changeable(db: Db, r: Request)
    requires r.PayRequest? || r.CancelRequest?
  {
    && r.orderId.Parse().Some? && r.orderId.Parse().value in db.orders
    && var o := db.orders[r.orderId.Parse().value];
    && (r.admin || r.user == IdText(o.userId)) && (o.status == PendingPayment || o.status == PaymentFailed)
  }

  /** PayOrder wrote payment `id`, the order's next status, the event and the idempotency row. */
  ghost predicate PaymentMade(cfg: Config, a: Db, b: Db, r: Request, id: Uuid, at: nat)
    requires r.PayRequest? && KeyIn(r).Some?
  {
    && KeyIn(r).value !in a.idem && id !in a.payments && Changeable(a, r) && KeyIn(r).value in b.idem && id in b.payments
    && var paid := r.orderId.Parse().value;
    && var o, p := a.orders[paid], b.payments[id];
    && p.id == id && p.orderId == paid && p.amountCents == o.amountCents
    && (p.status, p.providerRef, p.failureReason) == MockPayment(id)
    && b.orders == a.orders[paid := o.(status := if p.status == Succeeded then Paid else PaymentFailed)]
    && b.payments == a.payments[id := p]
    && b.idem == a.idem[KeyIn(r).value := b.idem[KeyIn(r).value]] && KeptFor(cfg, b.idem[KeyIn(r).value], r, PaymentResource(id))
    && OneMoreEvent(a, b, paid, if p.status == Succeeded then PaymentSucceeded else PaymentDeclined, id,
                    PaymentPayload(id, paid, o.userId, p.status, o.amountCents, o.currency, p.providerRef, p.failureReason),
                    at)
  }

  /** CancelOrder closed the order and wrote the event. */
  ghost predicate OrderClosed(a: Db, b: Db, r: Request, at: nat)
    requires r.CancelRequest?
  {
    && Changeable(a, r)
    && var closed := r.orderId.Parse().value;
    && var o := a.orders[closed];
    && b.orders == a.orders[closed := o.(status := Cancelled)]
    && b.payments == a.payments && b.idem == a.idem
    && OneMoreEvent(a, b, closed, OrderCancelled, closed, CancelledPayload(closed, o.userId, Cancelled), at)
  }

  /** The call wrote everything its request asks for; `resource` is what it created. */
  ghost predicate Done(cfg: Config, a: Db, b: Db, r: Request, id: Uuid, at: nat) {
    match r
    case CreateRequest(_, _, _, _, _, _, _) => KeyIn(r).Some? && OrderPlaced(cfg, a, b, r, id, at)
    case PayRequest(_, _, _, _, _, _) => KeyIn(r).Some? && PaymentMade(cfg, a, b, r, id, at)
    case CancelRequest(_, _, _) => r.orderId.Parse() == Some(id) && OrderClosed(a, b, r, at)
  }

  function OutcomeFor(r: Request, id: Uuid): Outcome {
    match r
    case CreateRequest(_, _, _, _, _, _, _) => Answer(OrderResource(id), 201, false)
    case PayRequest(_, _, _, _, _, _) => Answer(PaymentResource(id), 200, false)
    case CancelRequest(_, _, _) => CancelDone(id)
  }

  function SubjectOf(r: Request, tx: Tx): Uuid
    requires Complete(r, tx)
  {
    if r.PayRequest? then tx.payment.value.id else tx.order.value.id
  }

  /** The commit of a complete transaction is the whole effect of its call. */
  lemma CommitIsDone(cfg: Config, db: Db, r: Request, tx: Tx)
    requires Complete(r, tx) && TxOk(cfg, db, r, tx) && OrdersOk(db)
    ensures Done(cfg, db, Committed(db, r, tx), r, SubjectOf(r, tx), tx.startedAt)
    ensures Resulting(r, tx) == OutcomeFor(r, SubjectOf(r, tx))
  {
    assert EventIdNew(db, tx.event.value.id);
  }

  /** What an answer says about the tables, and what a conflict does. */
  ghost predicate Backed(cfg: Config, db: Db, r: Request, o: Outcome) {
    match o
    case Answer(resource, code, _) =>
      && KeyIn(r).Some? && KeyIn(r).value in db.idem && Agrees(cfg, r, db.idem[KeyIn(r).value]) && Exists(db, resource)
      && (r.CreateRequest? <==> resource.OrderResource?)
      && db.idem[KeyIn(r).value].resource.id == resource.id
      && code == if db.idem[KeyIn(r).value].statusCode == 0 then 200 else db.idem[KeyIn(r).value].statusCode
    case CancelDone(id) =>
      r.CancelRequest? && r.orderId.Parse() == Some(id) && id in db.orders && db.orders[id].status == Cancelled
    case Failed(error) =>
      && (error.IdempotencyConflict? ==> KeyIn(r).Some? && KeyIn(r).value in db.idem && !Agrees(cfg, r, db.idem[KeyIn(r).value]))
      && Justified(db, r, error)
  }

  lemma BackedLater(cfg: Config, a: Db, b: Db, r: Request, o: Outcome)
    requires Backed(cfg, a, r, o) && Later(a, b)
    ensures Backed(cfg, b, r, o)
  {
  }

  lemma DoneIsBacked(cfg: Config, a: Db, b: Db, r: Request, id: Uuid, at: nat)
    requires Done(cfg, a, b, r, id, at) && OrdersOk(a)
    ensures Backed(cfg, b, r, OutcomeFor(r, id))
  {
  }

  lemma ReadBackIsBacked(cfg: Config, db: Db, r: Request, row: IdemRow, ok: bool)
    requires KeyIn(r).Some? && KeyIn(r).value in db.idem && db.idem[KeyIn(r).value] == row && Agrees(cfg, r, row)
    ensures AfterReadBack(db, r, row, ok).Answering? && AfterReadBack(db, r, row, ok).request == r
    ensures Backed(cfg, db, r, AfterReadBack(db, r, row, ok).outcome)
  {
  }

  predicate ByOthers(p: nat, step: Step) {
    match step
    case Tick => true
    case _ => step.p != p
  }

  /** Steps of other processes leave a process and what it counts on alone. */
  lemma OthersDoNotDisturb(cfg: Config, s: State, step: Step, p: nat)
    requires Inv(cfg, s) && Enabled(cfg, s, step) && ByOthers(p, step) && p in s.procs
    ensures p in Apply(cfg, s, step).procs && Apply(cfg, s, step).procs[p] == s.procs[p]
  {
  }

  lemma StepIsLater(cfg: Config, s: State, step: Step)
    requires Inv(cfg, s) && Enabled(cfg, s, step)
    ensures Later(s.db, Apply(cfg, s, step).db)
  {
    if step.Commit? {
      assert ProcOk(cfg, s.db, s.procs[step.p]);
    }
    StepGrows(cfg, s, step);
  }

  /******* Fresh ids *******/

  predicate OrderIdFree(s: State, p: nat, id: Uuid) {
    id !in s.db.orders && OrderFree(s, p, id)
  }

  lemma OrderIdExists(s: State, p: nat)
    ensures exists id: Uuid :: OrderIdFree(s, p, id)
  {
    var held := set q | q in s.procs && s.procs[q].InTx? && HeldOrder(s.procs[q].tx).Some? :: HeldOrder(s.procs[q].tx).value;
    var free := Unused(s.db.orders.Keys + held);
    forall q | q in s.procs && OtherTx(s, p, q)
      ensures HeldOrder(s.procs[q].tx) != Some(free)
    {
      if HeldOrder(s.procs[q].tx).Some? {
        assert HeldOrder(s.procs[q].tx).value in held;
      }
    }
    assert OrderIdFree(s, p, free);
  }

  lemma PaymentIdExists(s: State, p: nat)
    ensures exists id: Uuid :: PaymentIdFree(s, p, id)
  {
    var pending := set q | q in s.procs && s.procs[q].InTx? && s.procs[q].tx.payment.Some? :: s.procs[q].tx.payment.value.id;
    var free := Unused(s.db.payments.Keys + pending);
    forall q | q in s.procs && OtherTx(s, p, q) && s.procs[q].tx.payment.Some?
      ensures s.procs[q].tx.payment.value.id != free
    {
      assert s.procs[q].tx.payment.value.id in pending;
    }
    assert PaymentIdFree(s, p, free);
  }

  lemma EventIdExists(s: State, p: nat)
    ensures exists id: Uuid :: EventIdFree(s, p, id)
  {
    var pending := set q | q in s.procs && s.procs[q].InTx? && s.procs[q].tx.event.Some? :: s.procs[q].tx.event.value.id;
    var used := set e | e in s.db.outbox :: e.id;
    var free := Unused(used + pending);
    forall e | e in s.db.outbox
      ensures e.id != free
    {
      assert e.id in used;
    }
    forall q | q in s.procs && OtherTx(s, p, q) && s.procs[q].tx.event.Some?
      ensures s.procs[q].tx.event.value.id != free
    {
      assert s.procs[q].tx.event.value.id in pending;
    }
    assert EventIdFree(s, p, free);
  }

  /******* One statement *******/

  /** The state of the service, and the steps that led there. */
  datatype Moment = Moment(db: Db, procs: map<nat, Proc>, clock: nat, responses: seq<Response>, trace: seq<Step>)

  predicate CommitOf(step: Step, p: nat) {
    step.Commit? && step.p == p
  }

  /** Between the two traces process `p` committed nothing. */
  ghost predicate Silent(before: seq<Step>, after: seq<Step>, p: nat) {
    before <= after && forall k | |before| <= k < |after| :: !CommitOf(after[k], p)
  }

  lemma SilentOnwards(a: seq<Step>, b: seq<Step>, c: seq<Step>, p: nat)
    requires Silent(a, b, p) && Silent(b, c, p)
    ensures Silent(a, c, p)
  {
  }

  lemma SilentStep(a: seq<Step>, b: seq<Step>, step: Step, p: nat)
    requires Silent(a, b, p) && !CommitOf(step, p)
    ensures Silent(a, b + [step], p)
  {
  }

  /** Step `k` of the trace is a commit of process `p` that turned the tables `before` into `after`. */
  ghost predicate CommittedAt(cfg: Config, trace: seq<Step>, k: nat, p: nat, before: Db, after: Db) {
    && k < |trace| && CommitOf(trace[k], p)
    && Exec(cfg, trace[..k]).Some? && Exec(cfg, trace[..k]).value.db == before
    && Exec(cfg, trace[..k + 1]).Some? && Exec(cfg, trace[..k + 1]).value.db == after
  }

  lemma CommittedOnwards(cfg: Config, a: seq<Step>, b: seq<Step>, k: nat, p: nat, before: Db, after: Db)
    requires CommittedAt(cfg, a, k, p, before, after) && a <= b
    ensures CommittedAt(cfg, b, k, p, before, after)
  {
    assert b[..k] == a[..k] && b[..k + 1] == a[..k + 1];
  }

  /** What an error still says about the tables when other processes run. */
  predicate Justified(db: Db, r: Request, error: ApiError) {
    && (error.KeyRequired? ==> !r.CancelRequest? && r.key == "")
    && (error.InvalidInput? ==>
          || r.user == Plain("")
          || (if r.CreateRequest? then r.amountCents <= 0 || r.currency == "" else r.orderId == Plain("")))
    && (error.NotFound? ==> !r.CreateRequest?)
    && (error.Forbidden? ==>
          Names(db, r) && !r.admin && r.user != IdText(db.orders[r.orderId.Parse().value].userId))
    && (error.InvalidStatus? ==> Names(db, r) && db.orders[r.orderId.Parse().value].status in {Paid, Cancelled})
  }

  /** The request names an existing order. */
  predicate Names(db: Db, r: Request) {
    !r.CreateRequest? && r.orderId.Parse().Some? && r.orderId.Parse().value in db.orders
  }

  /** The errors that a transaction can end with. */
  predicate FromTx(error: ApiError) {
    error.StoreError? || error.NotFound? || error.Forbidden? || error.InvalidStatus?
  }

  /**
   From `a` to `b` process `p` ran one or more statements of its transaction: it is still open, or it
   rolled back and the request has failed. Alone means that no other process made a step meanwhile.
   */
  ghost predicate Ran(a: Moment, b: Moment, p: nat, ok: bool, alone: bool) {
    && Later(a.db, b.db) && p in a.procs && p in b.procs && b.procs[p].request == a.procs[p].request
    && (alone ==> b.db == a.db && b.procs.Keys == a.procs.Keys && b.clock == a.clock)
    && Silent(a.trace, b.trace, p)
    && (if ok then b.procs[p].InTx?
        else
          && b.procs[p].Answering? && b.procs[p].outcome.Failed? && FromTx(b.procs[p].outcome.error)
          && Justified(b.db, b.procs[p].request, b.procs[p].outcome.error))
  }

  lemma RanOnwards(a: Moment, b: Moment, c: Moment, p: nat, ok: bool, alone: bool)
    requires Ran(a, b, p, true, alone) && Ran(b, c, p, ok, alone)
    ensures Ran(a, c, p, ok, alone)
  {
  }

  /** The error of a pay or cancel request that names an order it may not change. */
  function Refusal(db: Db, r: Request): ApiError
    requires r.PayRequest? || r.CancelRequest?
  {
    if r.orderId.Parse().None? || r.orderId.Parse().value !in db.orders then NotFound
    else if !r.admin && r.user != IdText(db.orders[r.orderId.Parse().value].userId) then Forbidden
    else InvalidStatus
  }

  /**
   From `a` to `b` process `p` ran its transaction to the end. With an `id` it committed at once on top
   of the tables `before`, and at most the answer got lost; otherwise it wrote nothing.
   */
  ghost predicate Finished(cfg: Config, a: Moment, b: Moment, p: nat, alone: bool, faults: bool,
                           before: Db, id: Option<Uuid>, at: nat) {
    && Later(a.db, b.db) && p in a.procs && p in b.procs && b.procs[p].request == a.procs[p].request
    && b.procs[p].Answering? && (alone ==> b.procs.Keys == a.procs.Keys && b.clock == a.clock)
    && match id
       case None =>
         && b.procs[p].outcome.Failed? && FromTx(b.procs[p].outcome.error)
         && Justified(b.db, b.procs[p].request, b.procs[p].outcome.error)
         && Silent(a.trace, b.trace, p) && (alone ==> b.db == a.db)
       case Some(id) =>
         && |b.trace| > 0 && Silent(a.trace, b.trace[..|b.trace| - 1], p)
         && CommittedAt(cfg, b.trace, |b.trace| - 1, p, before, b.db)
         && Later(a.db, before) && OrdersOk(before) && Done(cfg, before, b.db, b.procs[p].request, id, at)
         && (alone ==> before == a.db)
         && (b.procs[p].outcome == OutcomeFor(b.procs[p].request, id)
             || (faults && b.procs[p].outcome == Failed(StoreError)))
  }

  lemma FinishedOnwards(cfg: Config, a: Moment, b: Moment, c: Moment, p: nat, alone: bool, faults: bool,
                        before: Db, id: Option<Uuid>, at: nat)
    requires Ran(a, b, p, true, alone) && Finished(cfg, b, c, p, alone, faults, before, id, at)
    ensures Finished(cfg, a, c, p, alone, faults, before, id, at)
  {
    hide Done, CommittedAt, Justified, Later, Silent, FromTx, OutcomeFor;
    LaterOnwards(a.db, b.db, c.db);
    if id.Some? {
      LaterOnwards(a.db, b.db, before);
      SilentOnwards(a.trace, b.trace, c.trace[..|c.trace| - 1], p);
    } else {
      SilentOnwards(a.trace, b.trace, c.trace, p);
    }
  }

  lemma RolledBack(cfg: Config, a: Moment, b: Moment, p: nat, alone: bool, faults: bool, before: Db, at: nat)
    requires Ran(a, b, p, false, alone)
    ensures Finished(cfg, a, b, p, alone, faults, before, None, at)
  {
  }

  /******* One call *******/

  /**
   What a call wrote: nothing, or one commit at step `k` of the trace, with the tables right before and right
   after it, what it created, and when its transaction began.
   */
  datatype Effect = Nothing | Wrote(before: Db, id: Uuid, at: nat, after: Db, k: nat)

  /** What the call of process `p` with outcome `o` did from `a` to `b`, whatever the other processes did. */
  ghost predicate Effected(cfg: Config, a: Moment, b: Moment, p: nat, r: Request, o: Outcome, e: Effect,
                           alone: bool, faults: bool) {
    match e
    case Nothing =>
      Silent(a.trace, b.trace, p) && !o.CancelDone? && (o.Answer? ==> o.cached) && (alone ==> b.db == a.db)
    case Wrote(before, id, at, after, k) =>
      && |a.trace| <= k < |b.trace| && CommittedAt(cfg, b.trace, k, p, before, after)
      && Silent(a.trace, b.trace[..k], p) && Silent(b.trace[..k + 1], b.trace, p)
      && Later(a.db, before) && Done(cfg, before, after, r, id, at) && Later(after, b.db)
      && (alone ==> before == a.db && after == b.db && at == a.clock)
      && (o == OutcomeFor(r, id) || (faults && o == Failed(StoreError)))
  }

  /** The answer to a call that nobody disturbs and in which nothing fails, read off the request as it was sent. */
  ghost predicate Expected(cfg: Config, db: Db, r: Request, o: Outcome) {
    match r
    case CreateRequest(user, key, m, path, amount, currency, description) =>
      var code, text := cfg.trim(cfg.upper(currency)), cfg.trim(description);
      if cfg.trim(key) == "" then o == Failed(KeyRequired)
      else if user == Plain("") || amount <= 0 || code == "" then o == Failed(InvalidInput)
      else if user.Parse().None? then o == Failed(StoreError)
      else if (user.Parse().value, cfg.trim(key)) in db.idem
      then o == Stored(db.idem[(user.Parse().value, cfg.trim(key))], m, path, cfg.hash(CreateBody(amount, code, text)))
      else o.Answer? && o.resource.OrderResource? && o.statusCode == 201 && !o.cached
    case PayRequest(user, admin, orderId, key, m, path) =>
      if user == Plain("") || orderId == Plain("") then o == Failed(InvalidInput)
      else if cfg.trim(key) == "" then o == Failed(KeyRequired)
      else if user.Parse().Some? && (user.Parse().value, cfg.trim(key)) in db.idem
      then o == Stored(db.idem[(user.Parse().value, cfg.trim(key))], m, path, cfg.hash(PayBody(orderId)))
      else if !Changeable(db, r) then o == Failed(Refusal(db, r))
      else if user.Parse().None? then o == Failed(StoreError)
      else o.Answer? && o.resource.PaymentResource? && o.statusCode == 200 && !o.cached
    case CancelRequest(user, admin, orderId) =>
      if user == Plain("") || orderId == Plain("") then o == Failed(InvalidInput)
      else o == if Changeable(db, r) then CancelDone(orderId.Parse().value) else Failed(Refusal(db, r))
  }

  /** What a stored row answers to a request with this method, path and body. */
  function Stored(row: IdemRow, httpMethod: string, path: string, bodyHash: string): Outcome {
    if row.httpMethod == httpMethod && row.path == path && row.requestHash == bodyHash
    then Answer(row.resource, row.statusCode, true)
    else Failed(IdempotencyConflict)
  }

  ghost predicate Replayed(cfg: Config, db: Db, n: Request, o: Outcome)
    requires KeyIn(n).Some? && KeyIn(n).value in db.idem
  {
    o == Stored(db.idem[KeyIn(n).value], n.httpMethod, n.path, BodyHash(cfg, n))
  }

  predicate Executed(db: Db, n: Request, o: Outcome)
    requires !n.CancelRequest?
  {
    if n.PayRequest? && !Changeable(db, n) then o == Failed(Refusal(db, n))
    else if KeyIn(n).None? then o == Failed(StoreError)
    else
      && o.Answer? && !o.cached && (o.resource.OrderResource? <==> n.CreateRequest?)
      && o.statusCode == if n.CreateRequest? then 201 else 200
  }

  lemma ExpectedOf(cfg: Config, db: Db, r: Request, o: Outcome)
    requires !r.CancelRequest? && (Admit(cfg, r).Answering? || Admit(cfg, r).Looking?)
    requires Admit(cfg, r).Answering? ==> o == Admit(cfg, r).outcome
    requires
      var n := Normalised(cfg, r);
      Admit(cfg, r).Looking? ==>
        if KeyIn(n).Some? && KeyIn(n).value in db.idem then Replayed(cfg, db, n, o) else Executed(db, n, o)
    ensures Expected(cfg, db, r, o)
  {
  }

  /**
   What a call wrote, in the words of its request as it was sent: the order or payment it asked for, under the key
   it came with, for a caller who may do that.
   */
  ghost predicate AsAsked(cfg: Config, r: Request, e: Effect) {
    e.Wrote? ==>
      match r
      case CreateRequest(user, key, m, path, amount, currency, description) =>
        && user.Parse().Some?
        && var u, code, text := user.Parse().value, cfg.trim(cfg.upper(currency)), cfg.trim(description);
        && e.after.orders == e.before.orders[e.id := Order(e.id, u, PendingPayment, amount, code, text)]
        && e.after.idem == e.before.idem[(u, cfg.trim(key)) :=
             IdemRow(m, path, cfg.hash(CreateBody(amount, code, text)), 201, OrderResource(e.id))]
      case PayRequest(user, admin, orderId, key, m, path) =>
        && user.Parse().Some? && orderId.Parse().Some? && orderId.Parse().value in e.before.orders
        && var o := e.before.orders[orderId.Parse().value];
        && (admin || user == IdText(o.userId)) && (o.status == PendingPayment || o.status == PaymentFailed)
        && e.id in e.after.payments && e.after.payments[e.id].orderId == orderId.Parse().value
        && e.after.payments[e.id].amountCents == o.amountCents
        && e.after.idem == e.before.idem[(user.Parse().value, cfg.trim(key)) :=
             IdemRow(m, path, cfg.hash(PayBody(orderId)), 200, PaymentResource(e.id))]
      case CancelRequest(user, admin, orderId) =>
        && orderId.Parse() == Some(e.id) && e.id in e.before.orders
        && var o := e.before.orders[e.id];
        && (admin || user == IdText(o.userId)) && (o.status == PendingPayment || o.status == PaymentFailed)
        && e.after.orders == e.before.orders[e.id := o.(status := Cancelled)]
  }

  /** "Forbidden" is the answer only to a caller who is no admin and not the owner of the order it names. */
  ghost predicate ForbiddenRightly(db: Db, r: Request, o: Outcome) {
    o == Failed(Forbidden) ==>
      && !r.CreateRequest? && r.orderId.Parse().Some? && r.orderId.Parse().value in db.orders
      && !r.admin && r.user != IdText(db.orders[r.orderId.Parse().value].userId)
  }

  /** What holds of the request that the service works on holds of the one it was sent. */
  lemma InTheCallersWords(cfg: Config, a: Moment, b: Moment, p: nat, r: Request, o: Outcome, e: Effect,
                          alone: bool, faults: bool)
    requires Returned(cfg, a, b, p, Normalised(cfg, r), o, e, alone, faults)
    ensures AsAsked(cfg, r, e) && ForbiddenRightly(b.db, r, o)
  {
    hide Later, CommittedAt, Silent, OneMoreEvent;
  }

  /** Process `p` has its answer; `a` is where its call began. */
  ghost predicate Served(cfg: Config, a: Moment, b: Moment, p: nat, r: Request, e: Effect, alone: bool, faults: bool) {
    && p in b.procs && b.procs[p].Answering? && b.procs[p].request == r && Later(a.db, b.db)
    && Backed(cfg, b.db, r, b.procs[p].outcome)
    && Effected(cfg, a, b, p, r, b.procs[p].outcome, e, alone, faults)
  }

  /** The call has returned `o`; the tables tell what it did. */
  ghost predicate Returned(cfg: Config, a: Moment, b: Moment, p: nat, r: Request, o: Outcome, e: Effect, alone: bool, faults: bool) {
    && Later(a.db, b.db) && Backed(cfg, b.db, r, o) && Effected(cfg, a, b, p, r, o, e, alone, faults)
    && b.responses != [] && b.responses[|b.responses| - 1] == Response(r, o)
  }

  /** A request that Admit refuses, or whose lookup settles it, writes nothing. */
  lemma NothingIsServed(cfg: Config, a: Moment, b: Moment, p: nat, alone: bool, faults: bool)
    requires Silent(a.trace, b.trace, p)
    requires Later(a.db, b.db) && (alone ==> b.db == a.db) && p in b.procs && b.procs[p].Answering?
    requires !b.procs[p].outcome.CancelDone? && (b.procs[p].outcome.Answer? ==> b.procs[p].outcome.cached)
    requires Backed(cfg, b.db, b.procs[p].request, b.procs[p].outcome)
    ensures Served(cfg, a, b, p, b.procs[p].request, Nothing, alone, faults)
  {
  }

  lemma ServedIsReturned(cfg: Config, a: Moment, b: Moment, c: Moment, p: nat, r: Request, e: Effect, alone: bool, faults: bool)
    requires Served(cfg, a, b, p, r, e, alone, faults) && c.db == b.db
    requires c.responses == b.responses + [Response(r, b.procs[p].outcome)] && Silent(b.trace, c.trace, p)
    ensures Returned(cfg, a, c, p, r, b.procs[p].outcome, e, alone, faults)
  {
    hide Done, Backed;
    EffectOnwards(cfg, a, b, c, p, r, b.procs[p].outcome, e, alone, faults);
  }

  /** What others do afterwards does not change what the call did. */
  lemma EffectOnwards(cfg: Config, a: Moment, b: Moment, c: Moment, p: nat, r: Request, o: Outcome, e: Effect,
                      alone: bool, faults: bool)
    requires Effected(cfg, a, b, p, r, o, e, alone, faults) && Silent(b.trace, c.trace, p)
    requires Later(b.db, c.db) && (alone ==> c.db == b.db)
    ensures Effected(cfg, a, c, p, r, o, e, alone, faults)
  {
    hide Done, OutcomeFor, Later;
    if e.Nothing? {
      SilentOnwards(a.trace, b.trace, c.trace, p);
    } else {
      CommittedOnwards(cfg, b.trace, c.trace, e.k, p, e.before, e.after);
      assert c.trace[..e.k] == b.trace[..e.k] && c.trace[..e.k + 1] == b.trace[..e.k + 1];
      SilentOnwards(b.trace[..e.k + 1], b.trace, c.trace, p);
      LaterOnwards(e.after, b.db, c.db);
    }
  }

  lemma AdmitIsBacked(cfg: Config, db: Db, r: Request)
    requires Admit(cfg, r).Answering?
    ensures Admit(cfg, r).outcome.Failed? && Backed(cfg, db, Admit(cfg, r).request, Admit(cfg, r).outcome)
  {
  }

  /** The effect of a transaction that has just ended. */
  function EffectOf(before: Db, id: Option<Uuid>, at: nat, b: Moment): Effect {
    if id.None? || b.trace == [] then Nothing else Wrote(before, id.value, at, b.db, |b.trace| - 1)
  }

  lemma FinishedIsServed(cfg: Config, a: Moment, s: Moment, b: Moment, p: nat, alone: bool, faults: bool,
                         before: Db, id: Option<Uuid>, at: nat)
    requires Later(a.db, s.db) && Silent(a.trace, s.trace, p) && (alone ==> s.db == a.db && s.clock == a.clock)
    requires Finished(cfg, s, b, p, alone, faults, before, id, at) && (alone && id.Some? ==> at == s.clock)
    ensures Served(cfg, a, b, p, b.procs[p].request, EffectOf(before, id, at, b), alone, faults)
  {
    hide Done, CommittedAt, Justified, Later, FromTx, OutcomeFor;
    LaterSelf(b.db);
    LaterOnwards(a.db, s.db, b.db);
    if id.Some? {
      LaterOnwards(a.db, s.db, before);
      SilentOnwards(a.trace, s.trace, b.trace[..|b.trace| - 1], p);
      assert b.trace[..|b.trace| - 1 + 1] == b.trace;
      DoneIsBacked(cfg, before, b.db, b.procs[p].request, id.value, at);
      BackedOrFailed(cfg, b.db, b.procs[p].request, OutcomeFor(b.procs[p].request, id.value), b.procs[p].outcome);
    } else {
      SilentOnwards(a.trace, s.trace, b.trace, p);
      FailureIsBacked(cfg, b.db, b.procs[p].request, b.procs[p].outcome.error);
    }
  }

  lemma BackedOrFailed(cfg: Config, db: Db, r: Request, o: Outcome, other: Outcome)
    requires Backed(cfg, db, r, o) && (other == o || other == Failed(StoreError))
    ensures Backed(cfg, db, r, other)
  {
  }

  lemma FailureIsBacked(cfg: Config, db: Db, r: Request, error: ApiError)
    requires FromTx(error) && Justified(db, r, error)
    ensures Backed(cfg, db, r, Failed(error))
  {
  }

  lemma ServedOnwards(cfg: Config, a: Moment, b: Moment, c: Moment, p: nat, r: Request, e: Effect, alone: bool, faults: bool)
    requires Served(cfg, a, b, p, r, e, alone, faults) && Later(b.db, c.db) && (alone ==> c.db == b.db)
    requires Silent(b.trace, c.trace, p)
    requires p in c.procs && c.procs[p] == b.procs[p]
    ensures Served(cfg, a, c, p, r, e, alone, faults)
  {
    hide Done, Backed;
    BackedLater(cfg, b.db, c.db, r, b.procs[p].outcome);
    EffectOnwards(cfg, a, b, c, p, r, b.procs[p].outcome, e, alone, faults);
  }

  predicate Open(s: State, p: nat) {
    p in s.procs && s.procs[p].InTx?
  }

  /** The run `steps` of the machine ends in `s`, so everything proved about runs holds of it. */
  ghost predicate Reached(cfg: Config, steps: seq<Step>, s: State) {
    Exec(cfg, steps) == Some(s)
  }

  lemma ReachedNext(cfg: Config, steps: seq<Step>, s: State, step: Step)
    requires Reached(cfg, steps, s) && Enabled(cfg, s, step)
    ensures Reached(cfg, steps + [step], Apply(cfg, s, step))
  {
    assert (steps + [step])[..|steps|] == steps;
  }

  lemma CommitRecorded(cfg: Config, before: seq<Step>, s: State, step: Step, t: State, p: nat)
    requires Reached(cfg, before, s) && Reached(cfg, before + [step], t) && CommitOf(step, p)
    ensures CommittedAt(cfg, before + [step], |before|, p, s.db, t.db)
    ensures (before + [step])[..|before|] == before
  {
    assert (before + [step])[..|before|] == before && (before + [step])[..|before| + 1] == before + [step];
  }

  /** The tables, shared by all processes, and what each process is doing. */
  class Service {
    const cfg: Config
    var orders: map<Uuid, Order>
    var payments: map<Uuid, Payment>
    var idem: map<Key, IdemRow>
    var outbox: seq<Event>
    var procs: map<nat, Proc>
    var clock: nat
    var responses: seq<Response>

    /** The steps that led here. */
    ghost var trace: seq<Step>

    function Tables(): Db
      reads this
    {
      Db(orders, payments, idem, outbox)
    }

    function View(): State
      reads this
    {
      State(Tables(), procs, clock, responses)
    }

    ghost function Here(): Moment
      reads this
    {
      Moment(Tables(), procs, clock, responses, trace)
    }

    ghost predicate Valid()
      reads this
    {
      Inv(cfg, View()) && Reached(cfg, trace, View())
    }

    constructor (cfg: Config)
      ensures Valid() && this.cfg == cfg && View() == Init()
    {
      this.cfg := cfg;
      orders, payments, idem, outbox, procs, clock, responses := map[], map[], map[], [], map[], 0, [];
      trace := [];
      new;
      RunKeepsInv(cfg, []);
    }

    /** One step of the machine. */
    method Do(step: Step)
      requires Valid() && Enabled(cfg, View(), step)
      modifies this
      ensures Valid() && View() == Apply(cfg, old(View()), step) && Later(old(Tables()), Tables())
      ensures trace == old(trace) + [step]
    {
      hide Inv, Enabled, Apply, Later, Reached;
      var s := Apply(cfg, View(), step);
      ReachedNext(cfg, trace, View(), step);
      StepKeepsInv(cfg, View(), step);
      StepIsLater(cfg, View(), step);
      orders, payments, idem, outbox := s.db.orders, s.db.payments, s.db.idem, s.db.outbox;
      procs, clock, responses := s.procs, s.clock, s.responses;
      trace := trace + [step];
    }

    /** Any number of steps by other processes; none if the caller is alone. */
    method Interfere(p: nat, alone: bool)
      requires Valid() && p in procs
      modifies this
      ensures Valid() && p in procs && procs[p] == old(procs)[p] && Later(old(Tables()), Tables())
      ensures Silent(old(trace), trace, p) && (alone ==> View() == old(View()))
    {
      hide Inv, Reached, Later;
      LaterSelf(Tables());
      var n: nat := *;
      while n > 0 && !alone
        invariant Valid() && p in procs && procs[p] == old(procs)[p] && Later(old(Tables()), Tables())
        invariant Silent(old(trace), trace, p) && (alone ==> View() == old(View()))
      {
        var step: Step := *;
        if Enabled(cfg, View(), step) {
          if ByOthers(p, step) {
            ghost var before := Tables();
            OthersDoNotDisturb(cfg, View(), step, p);
            SilentStep(old(trace), trace, step, p);
            Do(step);
            LaterOnwards(old(Tables()), before, Tables());
          }
        }
        n := n - 1;
      }
    }

    /** A statement is about to run: others run first, and then it fails if it happens to. */
    method Statement(p: nat, alone: bool, faults: bool) returns (ok: bool)
      requires Valid() && Open(View(), p)
      modifies this
      ensures Valid() && Ran(old(Here()), Here(), p, ok, alone) && (ok ==> procs[p] == old(procs)[p])
      ensures !ok ==> faults && procs[p].outcome == Failed(FailureOf(old(procs)[p]))
    {
      hide Inv, Reached, Later;
      Interfere(p, alone);
      var fails: bool := *;
      ok := !(faults && fails);
      if !ok {
        GiveUp(p);
      }
    }

    /** The statement fails and the transaction rolls back. */
    method GiveUp(p: nat)
      requires Valid() && Open(View(), p)
      modifies this
      ensures Valid() && Tables() == old(Tables()) && clock == old(clock) && Silent(old(trace), trace, p)
      ensures procs == old(procs)[p := Answering(old(procs)[p].request, Failed(FailureOf(old(procs)[p])))]
    {
      hide Inv, Reached;
      Do(Fail(p));
    }

    /** The INSERT of a new order under a new id. */
    method InsertNewOrder(p: nat, alone: bool, faults: bool) returns (ok: bool)
      requires Valid() && Open(View(), p) && procs[p].request.CreateRequest? && procs[p].tx.order.None?
      modifies this
      ensures Valid() && Ran(old(Here()), Here(), p, ok, alone)
      ensures ok ==> procs[p].tx.order.Some? && procs[p].tx == old(procs)[p].tx.(order := procs[p].tx.order)
      ensures ok ==> procs[p].request.user.Parse().Some?
      ensures !ok ==> procs[p].outcome == Failed(StoreError) && (faults || procs[p].request.user.Parse().None?)
    {
      hide Inv, Reached, Later;
      ok := Statement(p, alone, faults);
      if !ok {
        return;
      }
      ghost var before := Here();
      LaterSelf(Tables());
      if procs[p].request.user.Parse().Some? {
        OrderIdExists(View(), p);
        var id: Uuid :| OrderIdFree(View(), p, id);
        Do(InsertOrder(p, id));
      } else {
        GiveUp(p);
        ok := false;
      }
      RanOnwards(old(Here()), before, Here(), p, ok, alone);
    }

    /** GetOrderForUpdate and the guards after it. */
    method LockTheOrder(p: nat, alone: bool, faults: bool) returns (ok: bool)
      requires Valid() && Open(View(), p) && !procs[p].request.CreateRequest? && procs[p].tx.locked.None?
      requires alone ==> procs.Keys == {p}
      modifies this
      ensures Valid() && Ran(old(Here()), Here(), p, ok, alone)
      ensures ok ==> procs[p].tx.locked.Some? && procs[p].tx == old(procs)[p].tx.(locked := procs[p].tx.locked)
      ensures !ok ==>
                var o := procs[p].outcome;
                o == Failed(NotFound) || o == Failed(Forbidden) || o == Failed(InvalidStatus)
      ensures alone && ok ==> Changeable(Tables(), procs[p].request)
      ensures alone && !ok && !faults ==>
                !Changeable(Tables(), procs[p].request)
                && procs[p].outcome == Failed(Refusal(Tables(), procs[p].request))
    {
      hide Inv, Reached, Later, MockPayment, NewPayment, RowFor, Committed, NewOrder, EventFor;
      ok := Statement(p, alone, faults);
      if !ok {
        return;
      }
      ghost var before := Here();
      LaterSelf(Tables());
      if Enabled(cfg, View(), LockOrder(p)) {
        Do(LockOrder(p));
        ok := procs[p].InTx?;
      } else {
        GiveUp(p);
        ok := false;
      }
      RanOnwards(old(Here()), before, Here(), p, ok, alone);
    }

    /** The INSERT of a payment under a new id. */
    method InsertNewPayment(p: nat, alone: bool, faults: bool) returns (ok: bool)
      requires Valid() && Open(View(), p) && procs[p].request.PayRequest?
      requires procs[p].tx.locked.Some? && procs[p].tx.payment.None?
      modifies this
      ensures Valid() && Ran(old(Here()), Here(), p, ok, alone)
      ensures ok ==> procs[p].tx.payment.Some? && procs[p].tx == old(procs)[p].tx.(payment := procs[p].tx.payment)
      ensures !ok ==> faults && procs[p].outcome == Failed(StoreError)
    {
      hide Inv, Reached, Later;
      ok := Statement(p, alone, faults);
      if !ok {
        return;
      }
      ghost var before := Here();
      LaterSelf(Tables());
      PaymentIdExists(View(), p);
      var id: Uuid :| PaymentIdFree(View(), p, id);
      Do(InsertPayment(p, id));
      RanOnwards(old(Here()), before, Here(), p, ok, alone);
    }

    method UpdateOrderStatus(p: nat, alone: bool, faults: bool) returns (ok: bool)
      requires Valid() && Open(View(), p) && procs[p].tx.locked.Some? && procs[p].tx.order.None?
      requires procs[p].request.CancelRequest? || (procs[p].request.PayRequest? && procs[p].tx.payment.Some?)
      modifies this
      ensures Valid() && Ran(old(Here()), Here(), p, ok, alone)
      ensures ok ==> procs[p].tx.order.Some? && procs[p].tx == old(procs)[p].tx.(order := procs[p].tx.order)
      ensures !ok ==> faults && procs[p].outcome == Failed(StoreError)
    {
      hide Inv, Reached, Later;
      ok := Statement(p, alone, faults);
      if !ok {
        return;
      }
      ghost var before := Here();
      LaterSelf(Tables());
      Do(UpdateStatus(p));
      RanOnwards(old(Here()), before, Here(), p, ok, alone);
    }

    /** The INSERT of the outbox row under a new id. */
    method CreateOutboxEvent(p: nat, alone: bool, faults: bool) returns (ok: bool)
      requires Valid() && Open(View(), p) && procs[p].tx.order.Some? && procs[p].tx.event.None?
      requires !procs[p].request.CreateRequest? ==> procs[p].tx.locked.Some?
      requires procs[p].request.PayRequest? ==> procs[p].tx.payment.Some?
      modifies this
      ensures Valid() && Ran(old(Here()), Here(), p, ok, alone)
      ensures ok ==> procs[p].tx.event.Some? && procs[p].tx == old(procs)[p].tx.(event := procs[p].tx.event)
      ensures !ok ==> faults && procs[p].outcome == Failed(StoreError)
    {
      hide Inv, Reached, Later;
      ok := Statement(p, alone, faults);
      if !ok {
        return;
      }
      ghost var before := Here();
      LaterSelf(Tables());
      EventIdExists(View(), p);
      var id: Uuid :| EventIdFree(View(), p, id);
      Do(InsertEvent(p, id));
      RanOnwards(old(Here()), before, Here(), p, ok, alone);
    }

    /** The INSERT of the idempotency row, which the unique key makes wait or fail. */
    method CreateIdempotencyKey(p: nat, alone: bool, faults: bool) returns (ok: bool)
      requires Valid() && Open(View(), p) && Keyed(procs[p].request)
      requires procs[p].tx.order.Some? && procs[p].tx.event.Some? && procs[p].tx.idem.None?
      requires procs[p].request.PayRequest? ==> procs[p].tx.payment.Some? && procs[p].tx.locked.Some?
      requires alone ==> procs.Keys == {p}
      modifies this
      ensures Valid() && Ran(old(Here()), Here(), p, ok, alone)
      ensures ok ==> procs[p].tx.idem.Some? && procs[p].tx == old(procs)[p].tx.(idem := procs[p].tx.idem)
      ensures ok ==> Complete(procs[p].request, procs[p].tx)
      ensures !ok ==> procs[p].outcome == Failed(StoreError)
      ensures alone && !ok ==> faults || !KeyIn(procs[p].request).Some? || KeyIn(procs[p].request).value in idem
    {
      hide Inv, Reached, Later;
      ok := Statement(p, alone, faults);
      if !ok {
        return;
      }
      ghost var before := Here();
      LaterSelf(Tables());
      if Enabled(cfg, View(), InsertIdem(p)) {
        Do(InsertIdem(p));
      } else {
        GiveUp(p);
        ok := false;
      }
      RanOnwards(old(Here()), before, Here(), p, ok, alone);
    }

    /** Begin of the transaction. */
    method BeginTx(p: nat, alone: bool, faults: bool) returns (ok: bool)
      requires Valid() && p in procs && procs[p].Ready?
      modifies this
      ensures Valid() && Ran(old(Here()), Here(), p, ok, alone)
      ensures ok ==> procs[p].tx == Tx(procs[p].tx.startedAt, None, None, None, None, None)
      ensures ok && alone ==> procs[p].tx.startedAt == old(clock)
      ensures !ok ==> faults && procs[p].outcome == Failed(StoreError)
    {
      hide Inv, Reached;
      Interfere(p, alone);
      var fails: bool := *;
      ok := !(faults && fails);
      ghost var before := Here();
      if ok {
        Do(Begin(p));
      } else {
        Do(Fail(p));
      }
      LaterOnwards(old(Tables()), before.db, Tables());
    }

    /** The commit itself. When its answer is lost it looks like a failure to the caller. */
    method PutCommit(p: nat, ghost alone: bool, faults: bool) returns (ghost id: Uuid)
      requires Valid() && Open(View(), p) && Complete(procs[p].request, procs[p].tx)
      modifies this
      ensures Valid()
      ensures Finished(cfg, old(Here()), Here(), p, alone, faults, old(Tables()), Some(id), old(procs)[p].tx.startedAt)
    {
      hide Inv, Reached, Later, Done, CommittedAt, Justified, Committed, Resulting, OutcomeFor, SubjectOf, OrdersOk, TxOk;
      ProcIsOk(cfg, View(), p);
      CommitIsDone(cfg, Tables(), procs[p].request, procs[p].tx);
      LaterSelf(Tables());
      id := SubjectOf(procs[p].request, procs[p].tx);
      var lost: bool := *;
      ghost var step := OrderMachine.Step.Commit(p, !(faults && lost));
      Do(OrderMachine.Step.Commit(p, !(faults && lost)));
      CommitRecorded(cfg, old(trace), old(View()), step, View(), p);
    }

    /** The end of WithTx. */
    method CommitTx(p: nat, alone: bool, faults: bool) returns (ghost before: Db, ghost id: Option<Uuid>)
      requires Valid() && Open(View(), p) && Complete(procs[p].request, procs[p].tx)
      modifies this
      ensures Valid() && Finished(cfg, old(Here()), Here(), p, alone, faults, before, id, old(procs)[p].tx.startedAt)
      ensures id.None? ==> faults
    {
      hide Inv, Reached, Finished;
      ghost var at := procs[p].tx.startedAt;
      var ok := Statement(p, alone, faults);
      before := Tables();
      if ok {
        ghost var ready := Here();
        ghost var created := PutCommit(p, alone, faults);
        id := Some(created);
        FinishedOnwards(cfg, old(Here()), ready, Here(), p, alone, faults, before, id, at);
      } else {
        id := None;
        RolledBack(cfg, old(Here()), Here(), p, alone, faults, before, at);
      }
    }

    /** The transaction of CreateOrder. */
    method CreateInTx(p: nat, alone: bool, faults: bool) returns (ghost before: Db, ghost id: Option<Uuid>, ghost at: nat)
      requires Valid() && p in procs && procs[p].Ready? && procs[p].request.CreateRequest?
      requires alone ==> procs.Keys == {p}
      modifies this
      ensures Valid() && Finished(cfg, old(Here()), Here(), p, alone, faults, before, id, at)
      ensures alone && id.Some? ==> at == old(clock)
      ensures alone && !faults && id.None? ==>
                (!KeyIn(procs[p].request).Some? || KeyIn(procs[p].request).value in idem) && procs[p].outcome == Failed(StoreError)
    {
      hide Inv, Reached, Later, Ran, Finished;
      var ok := BeginTx(p, alone, faults);
      ghost var s := Here();
      at := 0;
      if ok {
        RanState(old(Here()), Here(), p, ok, alone);
        at := procs[p].tx.startedAt;
        ok := InsertNewOrder(p, alone, faults);
        RanOnwards(old(Here()), s, Here(), p, ok, alone);
        RanState(old(Here()), Here(), p, ok, alone);
        s := Here();
      }
      if ok {
        ok := CreateOutboxEvent(p, alone, faults);
        RanOnwards(old(Here()), s, Here(), p, ok, alone);
        RanState(old(Here()), Here(), p, ok, alone);
        s := Here();
      }
      if ok {
        ok := CreateIdempotencyKey(p, alone, faults);
        RanOnwards(old(Here()), s, Here(), p, ok, alone);
        RanState(old(Here()), Here(), p, ok, alone);
        s := Here();
      }
      before, id := Tables(), None;
      if ok {
        before, id := CommitTx(p, alone, faults);
        FinishedOnwards(cfg, old(Here()), s, Here(), p, alone, faults, before, id, at);
      } else {
        RolledBack(cfg, old(Here()), Here(), p, alone, faults, before, at);
      }
      FinishedState(cfg, old(Here()), Here(), p, alone, faults, before, id, at);
    }

    /** The transaction of PayOrder. */
    method PayInTx(p: nat, alone: bool, faults: bool) returns (ghost before: Db, ghost id: Option<Uuid>, ghost at: nat)
      requires Valid() && p in procs && procs[p].Ready? && procs[p].request.PayRequest?
      requires alone ==> procs.Keys == {p}
      modifies this
      ensures Valid() && Finished(cfg, old(Here()), Here(), p, alone, faults, before, id, at)
      ensures alone && id.Some? ==> at == old(clock)
      ensures alone && !faults && !Changeable(old(Tables()), procs[p].request) ==>
                procs[p].outcome == Failed(Refusal(old(Tables()), procs[p].request))
      ensures alone && !faults && Changeable(old(Tables()), procs[p].request) && id.None? ==>
                (!KeyIn(procs[p].request).Some? || KeyIn(procs[p].request).value in idem) && procs[p].outcome == Failed(StoreError)
    {
      hide Inv, Reached, Later, Ran, Finished, Changeable, Refusal;
      var ok := BeginTx(p, alone, faults);
      ghost var s := Here();
      RanState(old(Here()), Here(), p, ok, alone);
      at := 0;
      if ok {
        at := procs[p].tx.startedAt;
        ok := LockTheOrder(p, alone, faults);
        RanOnwards(old(Here()), s, Here(), p, ok, alone);
        RanState(old(Here()), Here(), p, ok, alone);
        s := Here();
      }
      if ok {
        ok := InsertNewPayment(p, alone, faults);
        RanOnwards(old(Here()), s, Here(), p, ok, alone);
        RanState(old(Here()), Here(), p, ok, alone);
        s := Here();
      }
      if ok {
        ok := UpdateOrderStatus(p, alone, faults);
        RanOnwards(old(Here()), s, Here(), p, ok, alone);
        RanState(old(Here()), Here(), p, ok, alone);
        s := Here();
      }
      if ok {
        ok := CreateOutboxEvent(p, alone, faults);
        RanOnwards(old(Here()), s, Here(), p, ok, alone);
        RanState(old(Here()), Here(), p, ok, alone);
        s := Here();
      }
      if ok {
        ok := CreateIdempotencyKey(p, alone, faults);
        RanOnwards(old(Here()), s, Here(), p, ok, alone);
        RanState(old(Here()), Here(), p, ok, alone);
        s := Here();
      }
      before, id := Tables(), None;
      if ok {
        before, id := CommitTx(p, alone, faults);
        FinishedOnwards(cfg, old(Here()), s, Here(), p, alone, faults, before, id, at);
      } else {
        RolledBack(cfg, old(Here()), Here(), p, alone, faults, before, at);
      }
      FinishedState(cfg, old(Here()), Here(), p, alone, faults, before, id, at);
    }

    /** The transaction of CancelOrder. */
    method CancelInTx(p: nat, alone: bool, faults: bool) returns (ghost before: Db, ghost id: Option<Uuid>, ghost at: nat)
      requires Valid() && p in procs && procs[p].Ready? && procs[p].request.CancelRequest?
      requires alone ==> procs.Keys == {p}
      modifies this
      ensures Valid() && Finished(cfg, old(Here()), Here(), p, alone, faults, before, id, at)
      ensures alone && id.Some? ==> at == old(clock)
      ensures alone && !faults && !Changeable(old(Tables()), procs[p].request) ==>
                procs[p].outcome == Failed(Refusal(old(Tables()), procs[p].request))
      ensures alone && !faults && Changeable(old(Tables()), procs[p].request) ==> id.Some?
    {
      hide Inv, Reached, Later, Ran, Finished, Changeable, Refusal;
      var ok := BeginTx(p, alone, faults);
      ghost var s := Here();
      RanState(old(Here()), Here(), p, ok, alone);
      at := 0;
      if ok {
        at := procs[p].tx.startedAt;
        ok := LockTheOrder(p, alone, faults);
        RanOnwards(old(Here()), s, Here(), p, ok, alone);
        RanState(old(Here()), Here(), p, ok, alone);
        s := Here();
      }
      if ok {
        ok := UpdateOrderStatus(p, alone, faults);
        RanOnwards(old(Here()), s, Here(), p, ok, alone);
        RanState(old(Here()), Here(), p, ok, alone);
        s := Here();
      }
      if ok {
        ok := CreateOutboxEvent(p, alone, faults);
        RanOnwards(old(Here()), s, Here(), p, ok, alone);
        RanState(old(Here()), Here(), p, ok, alone);
        s := Here();
      }
      before, id := Tables(), None;
      if ok {
        before, id := CommitTx(p, alone, faults);
        FinishedOnwards(cfg, old(Here()), s, Here(), p, alone, faults, before, id, at);
      } else {
        RolledBack(cfg, old(Here()), Here(), p, alone, faults, before, at);
      }
      FinishedState(cfg, old(Here()), Here(), p, alone, faults, before, id, at);
    }

    /** GetIdempotencyKey; any error counts as a miss. */
    method GetIdempotencyKey(p: nat, alone: bool, faults: bool)
      requires Valid() && p in procs && procs[p].Looking?
      modifies this
      ensures Valid() && p in procs && procs[p].request == old(procs)[p].request && Keyed(procs[p].request)
      ensures Later(old(Tables()), Tables()) && Silent(old(trace), trace, p)
      ensures alone ==> Tables() == old(Tables()) && clock == old(clock) && procs.Keys == old(procs).Keys
      ensures var n := procs[p].request;
        match procs[p]
        case Ready(_) => alone && !faults ==> !(KeyIn(n).Some? && KeyIn(n).value in idem)
        case Answering(_, o) =>
          KeyIn(n).Some? && KeyIn(n).value in idem && !Agrees(cfg, n, idem[KeyIn(n).value]) && o == Failed(IdempotencyConflict)
        case Replaying(_, row) =>
          KeyIn(n).Some? && KeyIn(n).value in idem && Agrees(cfg, n, row) && row == idem[KeyIn(n).value]
        case _ => false
    {
      hide Inv, Reached, Later, Matches, Agrees;
      Interfere(p, alone);
      var fails: bool := *;
      ghost var before := Tables();
      ProcIsOk(cfg, View(), p);
      if HasKey(procs[p].request) && KeyOf(procs[p].request) in idem {
        AgreesIsMatches(cfg, procs[p].request, idem[KeyOf(procs[p].request)]);
      }
      Do(Lookup(p, !(faults && fails)));
      LaterOnwards(old(Tables()), before, Tables());
    }

    /** The replay branch: read the stored resource back and answer with the stored status. */
    method ReplayStored(p: nat, alone: bool, faults: bool)
      requires Valid() && p in procs && procs[p].Replaying?
      modifies this
      ensures Valid() && p in procs && procs[p].Answering? && procs[p].request == old(procs)[p].request
      ensures Later(old(Tables()), Tables()) && Silent(old(trace), trace, p)
      ensures Backed(cfg, Tables(), procs[p].request, procs[p].outcome)
      ensures !procs[p].outcome.CancelDone? && (procs[p].outcome.Answer? ==> procs[p].outcome.cached)
      ensures alone ==> Tables() == old(Tables()) && clock == old(clock) && procs.Keys == old(procs).Keys
      ensures var n := procs[p].request;
        alone && !faults && CollisionFree(cfg, Bodies(cfg, trace)) ==>
          KeyIn(n).Some? && KeyIn(n).value in idem && Replayed(cfg, Tables(), n, procs[p].outcome)
    {
      hide Inv, Reached, Later, Backed, Replayed, Matches, Agrees, Bodies, Silent;
      Interfere(p, alone);
      var fails: bool := *;
      ghost var before, r, row := Tables(), procs[p].request, procs[p].row;
      ProcIsOk(cfg, View(), p);
      AgreesIsMatches(cfg, r, row);
      ReadBackIsBacked(cfg, Tables(), r, row, !(faults && fails));
      ghost var steps := trace;
      if CollisionFree(cfg, Bodies(cfg, trace)) && !(faults && fails) {
        ReadBackIsReplayed(cfg, trace, View(), r, row, p);
      }
      Do(ReadBack(p, !(faults && fails)));
      LaterOnwards(old(Tables()), before, Tables());
      SilentStep(old(trace), steps, ReadBack(p, !(faults && fails)), p);
      BodiesGrow(cfg, steps, trace);
    }

    /** The lookup and, on a hit, its answer from the stored row. */
    method LookUp(p: nat, alone: bool, faults: bool)
      requires Valid() && p in procs && procs[p].Looking?
      modifies this
      ensures Valid() && p in procs && (procs[p].Ready? || procs[p].Answering?)
      ensures procs[p].request == old(procs)[p].request && Later(old(Tables()), Tables()) && Silent(old(trace), trace, p)
      ensures procs[p].Answering? ==> Backed(cfg, Tables(), procs[p].request, procs[p].outcome)
      ensures procs[p].Answering? ==> !procs[p].outcome.CancelDone? && (procs[p].outcome.Answer? ==> procs[p].outcome.cached)
      ensures alone ==> Tables() == old(Tables()) && clock == old(clock) && procs.Keys == old(procs).Keys
      ensures var n := procs[p].request;
        alone && !faults && CollisionFree(cfg, Bodies(cfg, trace)) ==>
          if KeyIn(n).Some? && KeyIn(n).value in idem
          then procs[p].Answering? && Replayed(cfg, Tables(), n, procs[p].outcome)
          else procs[p].Ready?
    {
      hide Inv, Reached, Later, BodyHash;
      GetIdempotencyKey(p, alone, faults);
      if procs[p].Replaying? {
        ghost var before := Here();
        ReplayStored(p, alone, faults);
        LaterOnwards(old(Tables()), before.db, Tables());
        SilentOnwards(old(trace), before.trace, trace, p);
      }
    }

    /** The call returns; others may run first. */
    method Reply(p: nat, ghost n: Request, alone: bool, ghost start: Moment, ghost effect: Effect, ghost faults: bool)
      returns (outcome: Outcome)
      requires Valid() && Served(cfg, start, Here(), p, n, effect, alone, faults)
      modifies this
      ensures Valid() && p !in procs && p in old(procs) && old(procs)[p].Answering? && outcome == old(procs)[p].outcome
      ensures old(trace) <= trace
      ensures Returned(cfg, start, Here(), p, n, outcome, effect, alone, faults)
    {
      hide Inv, Reached, Later, Backed, Done, Effected;
      outcome := procs[p].outcome;
      ghost var before := Here();
      Interfere(p, alone);
      ServedOnwards(cfg, start, before, Here(), p, n, effect, alone, faults);
      before := Here();
      Do(Respond(p));
      ServedIsReturned(cfg, start, before, Here(), p, n, effect, alone, faults);
    }

    /** CreateOrder: an order, its event and its idempotency row, or nothing. */
    method CreateOrder(p: nat, request: Request, alone: bool, faults: bool) returns (outcome: Outcome, ghost effect: Effect)
      requires Valid() && request.CreateRequest? && p !in procs && (alone ==> procs == map[])
      modifies this
      ensures Valid() && p !in procs
      ensures Returned(cfg, old(Here()), Here(), p, Normalised(cfg, request), outcome, effect, alone, faults)
      ensures AsAsked(cfg, request, effect) && ForbiddenRightly(Tables(), request, outcome)
      ensures alone && !faults && CollisionFree(cfg, Bodies(cfg, trace)) ==> Expected(cfg, old(Tables()), request, outcome)
    {
      hide Inv, Reached, Later, Backed, Done, Finished, Served, Returned, Replayed, Changeable, Refusal, Bodies, AsAsked, ForbiddenRightly, Expected;
      Do(Receive(p, request));
      ghost var n := procs[p].request;
      effect := Nothing;
      ghost var looked := trace;
      if procs[p].Answering? {
        AdmitIsBacked(cfg, Tables(), request);
        NothingIsServed(cfg, old(Here()), Here(), p, alone, faults);
      }
      if procs[p].Looking? {
        ghost var received := Here();
        LookUp(p, alone, faults);
        LaterOnwards(old(Tables()), received.db, Tables());
        SilentOnwards(old(trace), received.trace, trace, p);
        looked := trace;
        if procs[p].Answering? {
          NothingIsServed(cfg, old(Here()), Here(), p, alone, faults);
        }
      }
      if procs[p].Ready? {
        ghost var ready := Here();
        ghost var before, id, at := CreateInTx(p, alone, faults);
        FinishedIsServed(cfg, old(Here()), ready, Here(), p, alone, faults, before, id, at);
        effect := EffectOf(before, id, at, Here());
        FinishedOutcome(cfg, ready, Here(), p, alone, faults, before, id, at);
      }
      outcome := Reply(p, n, alone, old(Here()), effect, faults);
      InTheCallersWords(cfg, old(Here()), Here(), p, request, outcome, effect, alone, faults);
      BodiesGrow(cfg, looked, trace);
      if alone && !faults && CollisionFree(cfg, Bodies(cfg, trace)) {
        ExpectedOf(cfg, old(Tables()), request, outcome);
      }
    }

    /** PayOrder: a payment, the new status of the order, the event and the idempotency row, or nothing. */
    method PayOrder(p: nat, request: Request, alone: bool, faults: bool) returns (outcome: Outcome, ghost effect: Effect)
      requires Valid() && request.PayRequest? && p !in procs && (alone ==> procs == map[])
      modifies this
      ensures Valid() && p !in procs
      ensures Returned(cfg, old(Here()), Here(), p, Normalised(cfg, request), outcome, effect, alone, faults)
      ensures AsAsked(cfg, request, effect) && ForbiddenRightly(Tables(), request, outcome)
      ensures alone && !faults && CollisionFree(cfg, Bodies(cfg, trace)) ==> Expected(cfg, old(Tables()), request, outcome)
    {
      hide Inv, Reached, Later, Backed, Done, Finished, Served, Returned, Replayed, Changeable, Refusal, Bodies, AsAsked, ForbiddenRightly, Expected;
      Do(Receive(p, request));
      ghost var n := procs[p].request;
      effect := Nothing;
      ghost var looked := trace;
      if procs[p].Answering? {
        AdmitIsBacked(cfg, Tables(), request);
        NothingIsServed(cfg, old(Here()), Here(), p, alone, faults);
      }
      if procs[p].Looking? {
        ghost var received := Here();
        LookUp(p, alone, faults);
        LaterOnwards(old(Tables()), received.db, Tables());
        SilentOnwards(old(trace), received.trace, trace, p);
        looked := trace;
        if procs[p].Answering? {
          NothingIsServed(cfg, old(Here()), Here(), p, alone, faults);
        }
      }
      if procs[p].Ready? {
        ghost var ready := Here();
        ghost var before, id, at := PayInTx(p, alone, faults);
        FinishedIsServed(cfg, old(Here()), ready, Here(), p, alone, faults, before, id, at);
        effect := EffectOf(before, id, at, Here());
        FinishedOutcome(cfg, ready, Here(), p, alone, faults, before, id, at);
      }
      outcome := Reply(p, n, alone, old(Here()), effect, faults);
      InTheCallersWords(cfg, old(Here()), Here(), p, request, outcome, effect, alone, faults);
      BodiesGrow(cfg, looked, trace);
      if alone && !faults && CollisionFree(cfg, Bodies(cfg, trace)) {
        ExpectedOf(cfg, old(Tables()), request, outcome);
      }
    }

    /** CancelOrder: the closed order and its event, or nothing; there is no idempotency key. */
    method CancelOrder(p: nat, request: Request, alone: bool, faults: bool) returns (outcome: Outcome, ghost effect: Effect)
      requires Valid() && request.CancelRequest? && p !in procs && (alone ==> procs == map[])
      modifies this
      ensures Valid() && p !in procs
      ensures Returned(cfg, old(Here()), Here(), p, Normalised(cfg, request), outcome, effect, alone, faults)
      ensures AsAsked(cfg, request, effect) && ForbiddenRightly(Tables(), request, outcome)
      ensures alone && !faults ==> Expected(cfg, old(Tables()), request, outcome)
    {
      hide Inv, Reached, Later, Backed, Done, Finished, Served, Returned, Replayed, Changeable, Refusal, Bodies, AsAsked, ForbiddenRightly;
      Do(Receive(p, request));
      ghost var n := procs[p].request;
      effect := Nothing;
      if procs[p].Answering? {
        AdmitIsBacked(cfg, Tables(), request);
        NothingIsServed(cfg, old(Here()), Here(), p, alone, faults);
      }
      if procs[p].Ready? {
        ghost var ready := Here();
        ghost var before, id, at := CancelInTx(p, alone, faults);
        FinishedIsServed(cfg, old(Here()), ready, Here(), p, alone, faults, before, id, at);
        effect := EffectOf(before, id, at, Here());
        FinishedOutcome(cfg, ready, Here(), p, alone, faults, before, id, at);
      }
      outcome := Reply(p, n, alone, old(Here()), effect, faults);
      InTheCallersWords(cfg, old(Here()), Here(), p, request, outcome, effect, alone, faults);
    }
  }

  lemma FinishedOutcome(cfg: Config, a: Moment, b: Moment, p: nat, alone: bool, faults: bool,
                        before: Db, id: Option<Uuid>, at: nat)
    requires Finished(cfg, a, b, p, alone, faults, before, id, at)
    ensures p in a.procs && p in b.procs && b.procs[p].Answering? && b.procs[p].request == a.procs[p].request
    ensures !faults && id.Some? ==> b.procs[p].outcome == OutcomeFor(b.procs[p].request, id.value)
    ensures id.Some? && Keyed(b.procs[p].request) ==> KeyIn(b.procs[p].request).Some?
    ensures id.Some? && !b.procs[p].request.CreateRequest? ==> Changeable(before, b.procs[p].request)
    ensures id.Some? && b.procs[p].request.CancelRequest? ==> b.procs[p].request.orderId.Parse() == Some(id.value)
    ensures alone ==> if id.Some? then before == a.db else b.db == a.db
    ensures a.trace <= b.trace
  {
  }

  lemma StoredIsAnswered(cfg: Config, db: Db, r: Request, bodies: set<RequestBody>)
    requires LedgerOk(db) && KeyIn(r).Some? && KeyIn(r).value in db.idem && Agrees(cfg, r, db.idem[KeyIn(r).value])
    requires CollisionFree(cfg, bodies) && WrittenFrom(cfg, db, KeyIn(r).value, bodies) && BodyOf(r) in bodies
    ensures AfterReadBack(db, r, db.idem[KeyIn(r).value], true).Answering?
    ensures Replayed(cfg, db, r, AfterReadBack(db, r, db.idem[KeyIn(r).value], true).outcome)
  {
    MatchingRow(cfg, db, r, KeyIn(r).value, bodies);
  }

  lemma ReadBackIsReplayed(cfg: Config, steps: seq<Step>, s: State, r: Request, row: IdemRow, p: nat)
    requires Reached(cfg, steps, s) && CollisionFree(cfg, Bodies(cfg, steps))
    requires p in s.procs && s.procs[p].request == r && KeyIn(r).Some? && KeyIn(r).value in s.db.idem
    requires s.db.idem[KeyIn(r).value] == row && Agrees(cfg, r, row)
    ensures AfterReadBack(s.db, r, row, true).Answering?
    ensures Replayed(cfg, s.db, r, AfterReadBack(s.db, r, row, true).outcome)
  {
    hide Exec, Bodies, Agrees, Replayed, AfterReadBack, BodyOf, WrittenFrom, CollisionFree;
    hide LedgerOk, HistoriesOk, OutboxOk, IdemOk, CountsOk, OrdersOk, ProcsOk;
    RunKeepsInv(cfg, steps);
    RunFromBodies(cfg, steps);
    StoredIsAnswered(cfg, s.db, r, Bodies(cfg, steps));
  }

  lemma FinishedState(cfg: Config, a: Moment, b: Moment, p: nat, alone: bool, faults: bool,
                      before: Db, id: Option<Uuid>, at: nat)
    requires Finished(cfg, a, b, p, alone, faults, before, id, at)
    ensures p in a.procs && p in b.procs && b.procs[p].request == a.procs[p].request
    ensures alone && id.None? ==> b.db == a.db
  {
  }

  /** What the statements that have run leave to the next one. */
  lemma RanState(a: Moment, b: Moment, p: nat, ok: bool, alone: bool)
    requires Ran(a, b, p, ok, alone)
    ensures p in a.procs && p in b.procs && b.procs[p].request == a.procs[p].request
    ensures if ok then b.procs[p].InTx? else b.procs[p].Answering?
    ensures alone ==> b.db == a.db && b.procs.Keys == a.procs.Keys && b.clock == a.clock
  {
  }
}
