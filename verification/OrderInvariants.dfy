/** What every interleaving of the order service keeps, and what follows for the committed tables. */
module OrderInvariants {
  import opened Types
  import opened Totals
  import opened OrderMachine

  /******* Event history *******/

  datatype Phase = NoOrder | In(status: OrderStatus) | Broken

  /** How an event moves the status of its order; `Broken` is for an event that may not come next. */
  function Advance(phase: Phase, t: EventType): Phase {
    match phase
    case NoOrder => if t.OrderCreated? then In(PendingPayment) else Broken
    case In(status) =>
      if !status.Open() then Broken
      else (match t
            case OrderCreated => Broken
            case OrderCancelled => In(Cancelled)
            case PaymentSucceeded => In(Paid)
            case PaymentDeclined => In(PaymentFailed))
    case Broken => Broken
  }

  function Fold(h: seq<EventType>): Phase {
    if h == [] then NoOrder else Advance(Fold(h[..|h| - 1]), h[|h| - 1])
  }

  /** The event types of one order, in commit order. */
  function History(outbox: seq<Event>, o: Uuid): seq<EventType> {
    if outbox == [] then []
    else
      var last := outbox[|outbox| - 1];
      History(outbox[..|outbox| - 1], o) + if last.partitionKey == o then [last.eventType] else []
  }

  lemma HistoryAppend(outbox: seq<Event>, e: Event, o: Uuid)
    ensures Fold(History(outbox + [e], o))
         == if e.partitionKey == o then Advance(Fold(History(outbox, o)), e.eventType) else Fold(History(outbox, o))
  {
    assert (outbox + [e])[..|outbox|] == outbox;
    var h := History(outbox, o);
    if e.partitionKey == o {
      assert (h + [e.eventType])[..|h|] == h;
    } else {
      assert h + [] == h;
    }
  }

  function PhaseOf(db: Db, o: Uuid): Phase {
    if o in db.orders then In(db.orders[o].status) else NoOrder
  }

  /******* Invariants of the committed tables *******/

  ghost predicate HistoriesOk(db: Db) {
    forall o: Uuid :: Fold(History(db.outbox, o)) == PhaseOf(db, o)
  }

  predicate PaymentFits(db: Db, id: Uuid)
    requires id in db.payments
  {
    var p := db.payments[id];
    && p.id == id && p.orderId in db.orders && p.amountCents == db.orders[p.orderId].amountCents
    && (p.status, p.providerRef, p.failureReason) == MockPayment(id)
  }

  /** `id` is a payment of order `o` with status `status`. */
  predicate IsPayment(db: Db, id: Uuid, o: Uuid, status: PaymentStatus) {
    id in db.payments && db.payments[id].orderId == o && db.payments[id].status == status
  }

  ghost predicate LedgerOk(db: Db) {
    && (forall id | id in db.payments :: PaymentFits(db, id))
    && (forall o | o in db.orders ::
          match db.orders[o].status
          case PendingPayment => forall id, st :: !IsPayment(db, id, o, st)
          case PaymentFailed => (exists id :: IsPayment(db, id, o, Declined)) && (forall id :: !IsPayment(db, id, o, Succeeded))
          case Paid => exists id :: OnlySuccess(db, id, o)
          case Cancelled => forall id :: !IsPayment(db, id, o, Succeeded))
  }

  /** Payment `id` of order `o` succeeded and no other payment of `o` did. */
  ghost predicate OnlySuccess(db: Db, id: Uuid, o: Uuid) {
    IsPayment(db, id, o, Succeeded) && forall other :: IsPayment(db, other, o, Succeeded) ==> other == id
  }

  predicate OrdersOk(db: Db) {
    forall o | o in db.orders :: db.orders[o].id == o && db.orders[o].amountCents > 0 && db.orders[o].currency != ""
  }

  /** An outbox row describes a row of the other tables, and is keyed by its order. */
  predicate EventFits(db: Db, e: Event) {
    && e.partitionKey in db.orders
    && var o := db.orders[e.partitionKey];
    match e.eventType
    case OrderCreated => e == CreatedEvent(o, e.id, e.createdAt)
    case OrderCancelled => e == CancelledEvent(o, e.id, e.createdAt) && o.status == Cancelled
    case PaymentSucceeded =>
      e.aggregateId in db.payments && db.payments[e.aggregateId].orderId == o.id
      && e == PaymentEvent(o, db.payments[e.aggregateId], e.id, e.createdAt)
    case PaymentDeclined =>
      e.aggregateId in db.payments && db.payments[e.aggregateId].orderId == o.id
      && e == PaymentEvent(o, db.payments[e.aggregateId], e.id, e.createdAt)
  }

  ghost predicate OutboxOk(db: Db) {
    && (forall i | 0 <= i < |db.outbox| :: EventFits(db, db.outbox[i]))
    && (forall i, j | 0 <= i < j < |db.outbox| :: db.outbox[i].id != db.outbox[j].id)
  }

  /** Request `r` is the one whose transaction wrote the row under `k`. */
  predicate WrittenFor(cfg: Config, db: Db, k: Key, r: Request)
    requires k in db.idem
  {
    && HasKey(r) && KeyOf(r) == k
    && db.idem[k] == RowFor(cfg, r, db.idem[k].resource)
    && (match db.idem[k].resource
        case OrderResource(id) => r.CreateRequest? && id in db.orders && SameButStatus(db.orders[id], NewOrder(r, id))
        case PaymentResource(id) =>
          r.PayRequest? && id in db.payments && r.orderId.Parse() == Some(db.payments[id].orderId))
  }

  predicate SameButStatus(a: Order, b: Order) {
    a.(status := b.status) == b
  }

  predicate Exists(db: Db, res: Resource) {
    match res
    case OrderResource(id) => id in db.orders
    case PaymentResource(id) => id in db.payments
  }

  ghost predicate IdemOk(cfg: Config, db: Db) {
    && (forall k | k in db.idem :: exists r :: WrittenFor(cfg, db, k, r))
    && (forall k, l | k in db.idem && l in db.idem && db.idem[k].resource == db.idem[l].resource :: k == l)
    && (forall res | Exists(db, res) :: exists k :: k in db.idem && db.idem[k].resource == res)
    && (forall k | k in db.idem :: k.1 != "")
  }

  function CancelledOnes(orders: map<Uuid, Order>): map<Uuid, int> {
    map o | o in orders :: if orders[o].status == Cancelled then 1 else 0
  }

  function CancelledOrders(orders: map<Uuid, Order>): set<Uuid> {
    set o | o in orders && orders[o].status == Cancelled
  }

  lemma {:induction false} OnesCount(orders: map<Uuid, Order>)
    ensures Total(CancelledOnes(orders)) == |CancelledOrders(orders)|
    decreases |orders|
  {
    if orders == map[] {
      assert CancelledOrders(orders) == {};
    } else {
      var o :| o in orders;
      var others := orders - {o};
      OnesCount(others);
      TotalWithout(CancelledOnes(orders), o);
      assert CancelledOnes(orders) - {o} == CancelledOnes(others);
      if orders[o].status == Cancelled {
        assert CancelledOrders(orders) == CancelledOrders(others) + {o};
      } else {
        assert CancelledOrders(orders) == CancelledOrders(others);
      }
    }
  }

  function PaidAmounts(orders: map<Uuid, Order>): map<Uuid, int> {
    map o | o in orders :: if orders[o].status == Paid then orders[o].amountCents else 0
  }

  function ReceivedAmounts(payments: map<Uuid, Payment>): map<Uuid, int> {
    map p | p in payments :: if payments[p].status == Succeeded then payments[p].amountCents else 0
  }

  ghost predicate CountsOk(db: Db) {
    && |db.idem| == |db.orders| + |db.payments|
    && |db.outbox| == |db.orders| + |db.payments| + Total(CancelledOnes(db.orders))
    && Total(PaidAmounts(db.orders)) == Total(ReceivedAmounts(db.payments))
  }

  ghost predicate DbOk(cfg: Config, db: Db) {
    OrdersOk(db) && HistoriesOk(db) && LedgerOk(db) && OutboxOk(db) && IdemOk(cfg, db) && CountsOk(db)
  }

  /******* Invariants of the processes *******/

  predicate EventIdNew(db: Db, id: Uuid) {
    forall e | e in db.outbox :: e.id != id
  }

  predicate CreateTxOk(cfg: Config, db: Db, r: Request, tx: Tx)
    requires r.CreateRequest?
  {
    && tx.locked.None? && tx.payment.None?
    && (tx.order.Some? ==>
          && r.user.Parse().Some? && tx.order.value == NewOrder(r, tx.order.value.id)
          && tx.order.value.id !in db.orders)
    && (tx.event.Some? ==>
          && tx.order.Some? && EventIdNew(db, tx.event.value.id)
          && tx.event.value == CreatedEvent(tx.order.value, tx.event.value.id, tx.startedAt))
    && (tx.idem.Some? ==>
          && tx.event.Some? && HasKey(r) && KeyOf(r) !in db.idem
          && tx.idem.value == RowFor(cfg, r, OrderResource(tx.order.value.id)))
  }

  /** The locked row is the committed row: nobody else can have changed it. */
  predicate LockOk(db: Db, r: Request, tx: Tx)
    requires r.PayRequest? || r.CancelRequest?
  {
    tx.locked.Some? ==>
      var o := tx.locked.value;
      && r.orderId.Parse() == Some(o.id) && o.id in db.orders && db.orders[o.id] == o
      && MayTouch(r, o) && o.status.Open()
  }

  predicate PayTxOk(cfg: Config, db: Db, r: Request, tx: Tx)
    requires r.PayRequest?
  {
    && LockOk(db, r, tx)
    && (tx.payment.Some? ==>
          && tx.locked.Some? && tx.payment.value == NewPayment(tx.locked.value, tx.payment.value.id)
          && tx.payment.value.id !in db.payments)
    && (tx.order.Some? ==>
          && tx.payment.Some?
          && tx.order.value == tx.locked.value.(status := NextStatus(tx.payment.value.status)))
    && (tx.event.Some? ==>
          && tx.order.Some? && EventIdNew(db, tx.event.value.id)
          && tx.event.value == PaymentEvent(tx.locked.value, tx.payment.value, tx.event.value.id, tx.startedAt))
    && (tx.idem.Some? ==>
          && tx.event.Some? && HasKey(r) && KeyOf(r) !in db.idem
          && tx.idem.value == RowFor(cfg, r, PaymentResource(tx.payment.value.id)))
  }

  predicate CancelTxOk(db: Db, r: Request, tx: Tx)
    requires r.CancelRequest?
  {
    && LockOk(db, r, tx)
    && tx.payment.None? && tx.idem.None?
    && (tx.order.Some? ==> tx.locked.Some? && tx.order.value == tx.locked.value.(status := Cancelled))
    && (tx.event.Some? ==>
          && tx.order.Some? && EventIdNew(db, tx.event.value.id)
          && tx.event.value == CancelledEvent(tx.order.value, tx.event.value.id, tx.startedAt))
  }

  predicate TxOk(cfg: Config, db: Db, r: Request, tx: Tx) {
    match r
    case CreateRequest(_, _, _, _, _, _, _) => CreateTxOk(cfg, db, r, tx)
    case PayRequest(_, _, _, _, _, _) => PayTxOk(cfg, db, r, tx)
    case CancelRequest(_, _, _) => CancelTxOk(db, r, tx)
  }

  predicate Admitted(r: Request) {
    (r.CreateRequest? ==> r.amountCents > 0 && r.currency != "") && (Keyed(r) ==> r.key != "")
  }

  predicate ProcOk(cfg: Config, db: Db, proc: Proc) {
    && (!proc.Answering? ==> Admitted(proc.request))
    && (proc.Looking? ==> Keyed(proc.request))
    && (proc.Replaying? ==>
          && HasKey(proc.request) && KeyOf(proc.request) in db.idem
          && db.idem[KeyOf(proc.request)] == proc.row && Matches(cfg, proc.request, proc.row))
    && (proc.InTx? ==> TxOk(cfg, db, proc.request, proc.tx))
  }

  /** Two open transactions hold different rows and have inserted different unique keys. */
  predicate Apart(a: Proc, b: Proc)
    requires a.InTx? && b.InTx?
  {
    && (HeldOrder(a.tx).Some? ==> HeldOrder(a.tx) != HeldOrder(b.tx))
    && (a.tx.payment.Some? && b.tx.payment.Some? ==> a.tx.payment.value.id != b.tx.payment.value.id)
    && (a.tx.event.Some? && b.tx.event.Some? ==> a.tx.event.value.id != b.tx.event.value.id)
    && (a.tx.idem.Some? && HasKey(a.request) ==> !Reserves(b, KeyOf(a.request)))
  }

  ghost predicate Exclusive(procs: map<nat, Proc>) {
    forall p, q | p in procs && q in procs && p != q && procs[p].InTx? && procs[q].InTx? ::
      Apart(procs[p], procs[q])
  }

  ghost predicate ProcsOk(cfg: Config, s: State) {
    (forall p | p in s.procs :: ProcOk(cfg, s.db, s.procs[p])) && Exclusive(s.procs)
  }

  ghost predicate Inv(cfg: Config, s: State) {
    DbOk(cfg, s.db) && ProcsOk(cfg, s)
  }

  /******* Steps that change only their process *******/

  predicate IsLocal(step: Step) {
    !step.Tick? && !step.Commit? && !step.Respond? && !step.Crash?
  }

  lemma LocalProcOk(cfg: Config, s: State, step: Step)
    requires Enabled(cfg, s, step) && IsLocal(step)
    requires step.Receive? || ProcOk(cfg, s.db, s.procs[step.p])
    requires step.LockOrder? ==> OrdersOk(s.db)
    ensures ProcOk(cfg, s.db, Local(cfg, s, step))
  {
  }

  lemma LocalExclusive(cfg: Config, s: State, step: Step, q: nat)
    requires Enabled(cfg, s, step) && IsLocal(step)
    requires step.Receive? || ProcOk(cfg, s.db, s.procs[step.p])
    requires step.LockOrder? ==> OrdersOk(s.db)
    requires OtherTx(s, step.p, q) && ProcOk(cfg, s.db, s.procs[q])
    requires !step.Receive? && s.procs[step.p].InTx? ==> Apart(s.procs[step.p], s.procs[q]) && Apart(s.procs[q], s.procs[step.p])
    ensures var proc := Local(cfg, s, step); proc.InTx? ==> Apart(proc, s.procs[q]) && Apart(s.procs[q], proc)
  {
  }

  /******* Commits *******/

  /** What a complete transaction knows about the tables it is about to change. */
  ghost predicate Commits(cfg: Config, db: Db, r: Request, tx: Tx) {
    Complete(r, tx) && TxOk(cfg, db, r, tx) && Admitted(r) && OrdersOk(db)
  }

  lemma CommitKeepsOther(cfg: Config, db: Db, proc: Proc, other: Proc)
    requires proc.InTx? && Commits(cfg, db, proc.request, proc.tx) && ProcOk(cfg, db, other)
    requires other.InTx? ==> Apart(proc, other) && Apart(other, proc)
    ensures ProcOk(cfg, Committed(db, proc.request, proc.tx), other)
  {
  }

  lemma CommitOrders(cfg: Config, db: Db, r: Request, tx: Tx)
    requires Commits(cfg, db, r, tx)
    ensures OrdersOk(Committed(db, r, tx))
  {
  }

  lemma CommitHistories(cfg: Config, db: Db, r: Request, tx: Tx)
    requires Commits(cfg, db, r, tx) && HistoriesOk(db)
    ensures HistoriesOk(Committed(db, r, tx))
  {
    forall o: Uuid
      ensures Fold(History(Committed(db, r, tx).outbox, o)) == PhaseOf(Committed(db, r, tx), o)
    {
      assert Fold(History(db.outbox, o)) == PhaseOf(db, o);
      HistoryAppend(db.outbox, tx.event.value, o);
    }
  }

  lemma CommitLedger(cfg: Config, db: Db, r: Request, tx: Tx)
    requires Commits(cfg, db, r, tx) && LedgerOk(db)
    ensures LedgerOk(Committed(db, r, tx))
  {
    var db' := Committed(db, r, tx);
    forall o | o in db'.orders
      ensures match db'.orders[o].status
              case PendingPayment => forall id, st :: !IsPayment(db', id, o, st)
              case PaymentFailed =>
                (exists id :: IsPayment(db', id, o, Declined)) && (forall id :: !IsPayment(db', id, o, Succeeded))
              case Paid => exists id :: OnlySuccess(db', id, o)
              case Cancelled => forall id :: !IsPayment(db', id, o, Succeeded)
    {
      LedgerOfOrder(cfg, db, r, tx, o);
    }
  }

  /** Another order keeps its payments; the order of the transaction gains the new one. */
  lemma LedgerOfOrder(cfg: Config, db: Db, r: Request, tx: Tx, o: Uuid)
    requires Commits(cfg, db, r, tx) && LedgerOk(db)
    requires o in Committed(db, r, tx).orders
    ensures
      var db' := Committed(db, r, tx);
      match db'.orders[o].status
      case PendingPayment => forall id, st :: !IsPayment(db', id, o, st)
      case PaymentFailed =>
        (exists id :: IsPayment(db', id, o, Declined)) && (forall id :: !IsPayment(db', id, o, Succeeded))
      case Paid => exists id :: OnlySuccess(db', id, o)
      case Cancelled => forall id :: !IsPayment(db', id, o, Succeeded)
  {
    var db' := Committed(db, r, tx);
    if o != tx.order.value.id {
      forall id, st
        ensures IsPayment(db', id, o, st) == IsPayment(db, id, o, st)
      {
      }
      if db.orders[o].status == PaymentFailed {
        var id :| IsPayment(db, id, o, Declined);
        assert IsPayment(db', id, o, Declined);
      } else if db.orders[o].status == Paid {
        var id :| OnlySuccess(db, id, o);
        assert OnlySuccess(db', id, o);
      }
    } else if r.PayRequest? {
      var mine := tx.payment.value.id;
      assert IsPayment(db', mine, o, tx.payment.value.status);
      forall id | id != mine
        ensures !IsPayment(db', id, o, Succeeded)
      {
        assert !IsPayment(db, id, o, Succeeded);
      }
      if tx.payment.value.status == Succeeded {
        assert OnlySuccess(db', mine, o);
      }
    } else if r.CancelRequest? {
      forall id
        ensures !IsPayment(db', id, o, Succeeded)
      {
        assert !IsPayment(db, id, o, Succeeded);
      }
    } else {
      forall id, st
        ensures !IsPayment(db', id, o, st)
      {
        assert id in db.payments ==> PaymentFits(db, id);
      }
    }
  }

  lemma CommitOutbox(cfg: Config, db: Db, r: Request, tx: Tx)
    requires Commits(cfg, db, r, tx) && OutboxOk(db)
    ensures OutboxOk(Committed(db, r, tx))
  {
    var db' := Committed(db, r, tx);
    forall i | 0 <= i < |db'.outbox|
      ensures EventFits(db', db'.outbox[i])
    {
      if i < |db.outbox| {
        assert EventFits(db, db.outbox[i]);
      }
    }
  }

  lemma CommitWritten(cfg: Config, db: Db, r: Request, tx: Tx, k: Key)
    requires Commits(cfg, db, r, tx) && IdemOk(cfg, db) && k in Committed(db, r, tx).idem
    ensures exists r' :: WrittenFor(cfg, Committed(db, r, tx), k, r')
  {
    if k in db.idem {
      var r' :| WrittenFor(cfg, db, k, r');
      assert WrittenFor(cfg, Committed(db, r, tx), k, r');
    } else {
      assert WrittenFor(cfg, Committed(db, r, tx), k, r);
    }
  }

  /** No row names the resource that a transaction is about to create. */
  lemma CommitDistinct(cfg: Config, db: Db, r: Request, tx: Tx, k: Key)
    requires Commits(cfg, db, r, tx) && IdemOk(cfg, db) && k in db.idem && Keyed(r)
    ensures db.idem[k].resource != tx.idem.value.resource
  {
    var r' :| WrittenFor(cfg, db, k, r');
  }

  lemma CommitCovered(cfg: Config, db: Db, r: Request, tx: Tx, res: Resource)
    requires Commits(cfg, db, r, tx) && IdemOk(cfg, db) && Exists(Committed(db, r, tx), res)
    ensures var db' := Committed(db, r, tx); exists k :: k in db'.idem && db'.idem[k].resource == res
  {
    var db' := Committed(db, r, tx);
    if Exists(db, res) {
      var k :| k in db.idem && db.idem[k].resource == res;
      assert k in db'.idem && db'.idem[k].resource == res;
    } else {
      assert KeyOf(r) in db'.idem && db'.idem[KeyOf(r)].resource == res;
    }
  }

  lemma CommitIdem(cfg: Config, db: Db, r: Request, tx: Tx)
    requires Commits(cfg, db, r, tx) && IdemOk(cfg, db)
    ensures IdemOk(cfg, Committed(db, r, tx))
  {
    hide WrittenFor, Exists, TxOk;
    var db' := Committed(db, r, tx);
    forall k | k in db'.idem
      ensures exists r' :: WrittenFor(cfg, db', k, r')
    {
      CommitWritten(cfg, db, r, tx, k);
    }
    forall k | k in db.idem
      ensures Keyed(r) ==> db.idem[k].resource != tx.idem.value.resource
    {
      if Keyed(r) {
        CommitDistinct(cfg, db, r, tx, k);
      }
    }
    forall res | Exists(db', res)
      ensures exists k :: k in db'.idem && db'.idem[k].resource == res
    {
      CommitCovered(cfg, db, r, tx, res);
    }
  }

  lemma CommitCancelled(cfg: Config, db: Db, r: Request, tx: Tx)
    requires Commits(cfg, db, r, tx)
    ensures Total(CancelledOnes(Committed(db, r, tx).orders))
         == Total(CancelledOnes(db.orders)) + if r.CancelRequest? then 1 else 0
  {
    var o := tx.order.value;
    var one := if o.status == Cancelled then 1 else 0;
    TotalUpdate(CancelledOnes(db.orders), o.id, one);
    assert CancelledOnes(db.orders[o.id := o]) == CancelledOnes(db.orders)[o.id := one];
  }

  lemma CommitDue(cfg: Config, db: Db, r: Request, tx: Tx)
    requires Commits(cfg, db, r, tx)
    ensures Total(PaidAmounts(Committed(db, r, tx).orders))
         == Total(PaidAmounts(db.orders)) + if tx.order.value.status == Paid then tx.order.value.amountCents else 0
  {
    var o := tx.order.value;
    var due := if o.status == Paid then o.amountCents else 0;
    TotalUpdate(PaidAmounts(db.orders), o.id, due);
    assert PaidAmounts(db.orders[o.id := o]) == PaidAmounts(db.orders)[o.id := due];
  }

  lemma CommitReceived(cfg: Config, db: Db, r: Request, tx: Tx)
    requires Commits(cfg, db, r, tx) && r.PayRequest?
    ensures var p := tx.payment.value;
      Total(ReceivedAmounts(Committed(db, r, tx).payments))
      == Total(ReceivedAmounts(db.payments)) + if p.status == Succeeded then p.amountCents else 0
  {
    var p := tx.payment.value;
    var got := if p.status == Succeeded then p.amountCents else 0;
    TotalUpdate(ReceivedAmounts(db.payments), p.id, got);
    assert ReceivedAmounts(db.payments[p.id := p]) == ReceivedAmounts(db.payments)[p.id := got];
  }

  lemma CommitMoney(cfg: Config, db: Db, r: Request, tx: Tx)
    requires Commits(cfg, db, r, tx)
    ensures Total(PaidAmounts(Committed(db, r, tx).orders)) - Total(PaidAmounts(db.orders))
         == Total(ReceivedAmounts(Committed(db, r, tx).payments)) - Total(ReceivedAmounts(db.payments))
  {
    hide Total, PaidAmounts, ReceivedAmounts;
    CommitDue(cfg, db, r, tx);
    if r.PayRequest? {
      CommitReceived(cfg, db, r, tx);
    }
  }

  lemma CommitCounts(cfg: Config, db: Db, r: Request, tx: Tx)
    requires Commits(cfg, db, r, tx) && CountsOk(db)
    ensures CountsOk(Committed(db, r, tx))
  {
    CommitCancelled(cfg, db, r, tx);
    CommitMoney(cfg, db, r, tx);
  }

  lemma CommitDb(cfg: Config, db: Db, r: Request, tx: Tx)
    requires Commits(cfg, db, r, tx) && DbOk(cfg, db)
    ensures DbOk(cfg, Committed(db, r, tx))
  {
    CommitOrders(cfg, db, r, tx);
    CommitHistories(cfg, db, r, tx);
    CommitLedger(cfg, db, r, tx);
    CommitOutbox(cfg, db, r, tx);
    CommitIdem(cfg, db, r, tx);
    CommitCounts(cfg, db, r, tx);
  }

  /******* Every run *******/

  lemma CommitKeepsProcs(cfg: Config, s: State, step: Step)
    requires OrdersOk(s.db) && ProcsOk(cfg, s) && Enabled(cfg, s, step) && step.Commit?
    ensures Commits(cfg, s.db, s.procs[step.p].request, s.procs[step.p].tx)
    ensures ProcsOk(cfg, Apply(cfg, s, step))
  {
    var proc, s' := s.procs[step.p], Apply(cfg, s, step);
    forall q | q in s'.procs
      ensures ProcOk(cfg, s'.db, s'.procs[q])
    {
      if q != step.p {
        CommitKeepsOther(cfg, s.db, proc, s.procs[q]);
      }
    }
  }

  lemma PartsOfInv(cfg: Config, s: State)
    requires Inv(cfg, s)
    ensures ProcsOk(cfg, s) && OrdersOk(s.db) && OutboxOk(s.db)
  {
  }

  lemma ProcIsOk(cfg: Config, s: State, p: nat)
    requires Inv(cfg, s) && p in s.procs
    ensures ProcOk(cfg, s.db, s.procs[p]) && OrdersOk(s.db)
  {
  }

  /** The event of a complete transaction is new to the outbox. */
  lemma NewEventId(cfg: Config, db: Db, r: Request, tx: Tx)
    requires Complete(r, tx) && TxOk(cfg, db, r, tx)
    ensures EventIdNew(db, tx.event.value.id)
  {
  }

  lemma LocalKeepsInv(cfg: Config, s: State, step: Step)
    requires Inv(cfg, s) && Enabled(cfg, s, step) && IsLocal(step)
    ensures Inv(cfg, Apply(cfg, s, step))
  {
    LocalProcOk(cfg, s, step);
    var proc := Local(cfg, s, step);
    forall q | OtherTx(s, step.p, q)
      ensures proc.InTx? ==> Apart(proc, s.procs[q]) && Apart(s.procs[q], proc)
    {
      LocalExclusive(cfg, s, step, q);
    }
    OneChanged(s, step.p, proc);
  }

  /** Exclusion only has to be checked against the process that changed. */
  lemma OneChanged(s: State, p: nat, proc: Proc)
    requires Exclusive(s.procs)
    requires forall q | OtherTx(s, p, q) :: proc.InTx? ==> Apart(proc, s.procs[q]) && Apart(s.procs[q], proc)
    ensures Exclusive(s.procs[p := proc])
  {
    var procs := s.procs[p := proc];
    forall a, b | a in procs && b in procs && a != b && procs[a].InTx? && procs[b].InTx?
      ensures Apart(procs[a], procs[b])
    {
      if a == p {
        assert OtherTx(s, p, b);
      } else if b == p {
        assert OtherTx(s, p, a);
      }
    }
  }

  lemma CommitKeepsInv(cfg: Config, s: State, step: Step)
    requires Inv(cfg, s) && Enabled(cfg, s, step) && step.Commit?
    ensures Inv(cfg, Apply(cfg, s, step))
  {
    CommitKeepsProcs(cfg, s, step);
    hide ProcsOk, Commits;
    CommitDb(cfg, s.db, s.procs[step.p].request, s.procs[step.p].tx);
    hide OrdersOk, HistoriesOk, LedgerOk, OutboxOk, IdemOk, CountsOk;
  }

  /** The other steps only end a process or move the clock. */
  lemma QuietKeepsInv(cfg: Config, s: State, step: Step)
    requires Inv(cfg, s) && Enabled(cfg, s, step) && (step.Tick? || step.Respond? || step.Crash?)
    ensures Inv(cfg, Apply(cfg, s, step))
  {
    hide DbOk, ProcOk, Apart;
  }

  lemma StepKeepsInv(cfg: Config, s: State, step: Step)
    requires Inv(cfg, s) && Enabled(cfg, s, step)
    ensures Inv(cfg, Apply(cfg, s, step))
  {
    hide Inv, Enabled, Apply;
    if step.Commit? {
      CommitKeepsInv(cfg, s, step);
    } else if IsLocal(step) {
      LocalKeepsInv(cfg, s, step);
    } else {
      QuietKeepsInv(cfg, s, step);
    }
  }

  /** The invariant holds after every run, whatever the interleaving, failures and crashes. */
  lemma {:induction false} RunKeepsInv(cfg: Config, steps: seq<Step>)
    requires Exec(cfg, steps).Some?
    ensures Inv(cfg, Exec(cfg, steps).value)
  {
    if steps != [] {
      hide Inv, Enabled, Apply;
      RunKeepsInv(cfg, steps[..|steps| - 1]);
      StepKeepsInv(cfg, Exec(cfg, steps[..|steps| - 1]).value, steps[|steps| - 1]);
    }
  }

  lemma ProcAt(cfg: Config, steps: seq<Step>, p: nat)
    requires Exec(cfg, steps).Some? && p in Exec(cfg, steps).value.procs
    ensures ProcOk(cfg, Exec(cfg, steps).value.db, Exec(cfg, steps).value.procs[p])
    ensures OrdersOk(Exec(cfg, steps).value.db)
  {
    RunKeepsInv(cfg, steps);
  }
}
