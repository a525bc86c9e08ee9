/**
 A run in which an order is created, a payment for it is declined, and the order is then cancelled: all
 its payments failed and there is one, yet the order does not end as `payment_failed`.
 */
module OrderExample {
  import opened Types
  import opened OrderMachine
  import opened OrderInvariants
  import opened OrderTheorems

  const CFG: Config := Config(_ => "hash", s => s, s => s)

  const CREATE: Request := CreateRequest(IdText(1), "a", "POST", "/orders", 100, "USD", "")

  const PAY: Request := PayRequest(IdText(1), false, IdText(7), "b", "POST", "/orders/7/pay")

  const CANCEL: Request := CancelRequest(IdText(1), false, IdText(7))

  const PLACED: Order := Order(7, 1, PendingPayment, 100, "USD", "")

  const UNPAID: Order := PLACED.(status := PaymentFailed)

  const CLOSED: Order := PLACED.(status := Cancelled)

  const PAYMENT: Payment := NewPayment(PLACED, 16)

  const EMPTY: Db := Db(map[], map[], map[], [])

  const BEGUN: Tx := Tx(0, None, None, None, None, None)

  const CREATING: Tx := Tx(
    0, None, None, Some(PLACED), Some(CreatedEvent(PLACED, 1, 0)), Some(RowFor(CFG, CREATE, OrderResource(7))))

  const PAYING: Tx := Tx(
    0, Some(PLACED), Some(PAYMENT), Some(UNPAID), Some(PaymentEvent(PLACED, PAYMENT, 2, 0)),
    Some(RowFor(CFG, PAY, PaymentResource(16))))

  const CANCELLING: Tx := Tx(0, Some(UNPAID), None, Some(CLOSED), Some(CancelledEvent(CLOSED, 3, 0)), None)

  /** The call of process `p` has been answered. */
  function Answered(p: nat): map<nat, Proc> {
    map[p := Answering(if p == 0 then CREATE else PAY,
                       if p == 0 then Answer(OrderResource(7), 201, false) else Answer(PaymentResource(16), 200, false))]
  }

  function WithProc(db: Db, procs: map<nat, Proc>, p: nat, proc: Proc): State {
    State(db, procs[p := proc], 0, [])
  }

  function DbAfter(call: nat): Db {
    if call == 0 then EMPTY
    else if call == 1 then Committed(EMPTY, CREATE, CREATING)
    else if call == 2 then Committed(DbAfter(1), PAY, PAYING)
    else Committed(DbAfter(2), CANCEL, CANCELLING)
  }

  /** The steps of the first call, and the state after `n` of them. */
  const CREATE_STEPS: seq<Step> := [
    Receive(0, CREATE), Lookup(0, true), Begin(0), InsertOrder(0, 7), InsertEvent(0, 1), InsertIdem(0), Commit(0, true)]

  function DuringCreate(n: nat): State {
    var s := Init();
    if n == 0 then s
    else if n == 1 then WithProc(EMPTY, map[], 0, Looking(CREATE))
    else if n == 2 then WithProc(EMPTY, map[], 0, Ready(CREATE))
    else if n == 3 then WithProc(EMPTY, map[], 0, InTx(CREATE, BEGUN))
    else if n == 4 then WithProc(EMPTY, map[], 0, InTx(CREATE, CREATING.(event := None, idem := None)))
    else if n == 5 then WithProc(EMPTY, map[], 0, InTx(CREATE, CREATING.(idem := None)))
    else if n == 6 then WithProc(EMPTY, map[], 0, InTx(CREATE, CREATING))
    else State(DbAfter(1), Answered(0), 0, [])
  }

  lemma CreateEnabled(n: nat)
    requires n < 7
    ensures Enabled(CFG, DuringCreate(n), CREATE_STEPS[n])
  {
  }

  lemma CreateStep(n: nat)
    requires n < 7
    ensures Enabled(CFG, DuringCreate(n), CREATE_STEPS[n])
    ensures Apply(CFG, DuringCreate(n), CREATE_STEPS[n]) == DuringCreate(n + 1)
  {
    hide Enabled;
    CreateEnabled(n);
  }

  const PAY_STEPS: seq<Step> := [
    Receive(1, PAY), Lookup(1, true), Begin(1), LockOrder(1), InsertPayment(1, 16), UpdateStatus(1),
    InsertEvent(1, 2), InsertIdem(1), Commit(1, true)]

  function DuringPay(n: nat): State {
    var db, done := DbAfter(1), Answered(0);
    if n == 0 then State(db, done, 0, [])
    else if n == 1 then WithProc(db, done, 1, Looking(PAY))
    else if n == 2 then WithProc(db, done, 1, Ready(PAY))
    else if n == 3 then WithProc(db, done, 1, InTx(PAY, BEGUN))
    else if n == 4 then WithProc(db, done, 1, InTx(PAY, BEGUN.(locked := Some(PLACED))))
    else if n == 5 then WithProc(db, done, 1, InTx(PAY, BEGUN.(locked := Some(PLACED), payment := Some(PAYMENT))))
    else if n == 6 then WithProc(db, done, 1, InTx(PAY, PAYING.(event := None, idem := None)))
    else if n == 7 then WithProc(db, done, 1, InTx(PAY, PAYING.(idem := None)))
    else if n == 8 then WithProc(db, done, 1, InTx(PAY, PAYING))
    else State(DbAfter(2), done + Answered(1), 0, [])
  }

  lemma PayEnabled(n: nat)
    requires n < 9
    ensures Enabled(CFG, DuringPay(n), PAY_STEPS[n])
  {
  }

  lemma PayBegins(n: nat)
    requires n < 5
    ensures Enabled(CFG, DuringPay(n), PAY_STEPS[n])
    ensures Apply(CFG, DuringPay(n), PAY_STEPS[n]) == DuringPay(n + 1)
  {
    hide Enabled;
    PayEnabled(n);
  }

  lemma PayEnds(n: nat)
    requires 5 <= n < 9
    ensures Enabled(CFG, DuringPay(n), PAY_STEPS[n])
    ensures Apply(CFG, DuringPay(n), PAY_STEPS[n]) == DuringPay(n + 1)
  {
    hide Enabled;
    PayEnabled(n);
  }

  lemma PayStep(n: nat)
    requires n < 9
    ensures Enabled(CFG, DuringPay(n), PAY_STEPS[n])
    ensures Apply(CFG, DuringPay(n), PAY_STEPS[n]) == DuringPay(n + 1)
  {
    hide Enabled, Apply, DuringPay;
    if n < 5 {
      PayBegins(n);
    } else {
      PayEnds(n);
    }
  }

  const CANCEL_STEPS: seq<Step> := [
    Receive(2, CANCEL), Begin(2), LockOrder(2), UpdateStatus(2), InsertEvent(2, 3), Commit(2, true)]

  function DuringCancel(n: nat): State {
    var db, done := DbAfter(2), Answered(0) + Answered(1);
    if n == 0 then State(db, done, 0, [])
    else if n == 1 then WithProc(db, done, 2, Ready(CANCEL))
    else if n == 2 then WithProc(db, done, 2, InTx(CANCEL, BEGUN))
    else if n == 3 then WithProc(db, done, 2, InTx(CANCEL, BEGUN.(locked := Some(UNPAID))))
    else if n == 4 then WithProc(db, done, 2, InTx(CANCEL, CANCELLING.(event := None)))
    else if n == 5 then WithProc(db, done, 2, InTx(CANCEL, CANCELLING))
    else WithProc(DbAfter(3), done, 2, Answering(CANCEL, CancelDone(7)))
  }

  lemma CancelEnabled(n: nat)
    requires n < 6
    ensures Enabled(CFG, DuringCancel(n), CANCEL_STEPS[n])
  {
  }

  lemma CancelStep(n: nat)
    requires n < 6
    ensures Enabled(CFG, DuringCancel(n), CANCEL_STEPS[n])
    ensures Apply(CFG, DuringCancel(n), CANCEL_STEPS[n]) == DuringCancel(n + 1)
  {
    hide Enabled;
    CancelEnabled(n);
  }

  lemma ExecNext(cfg: Config, steps: seq<Step>, s: State, step: Step)
    requires Exec(cfg, steps) == Some(s) && Enabled(cfg, s, step)
    ensures Exec(cfg, steps + [step]) == Some(Apply(cfg, s, step))
  {
    assert (steps + [step])[..|steps|] == steps;
  }

  lemma {:induction false} CreateRuns(n: nat)
    requires n <= 7
    ensures Exec(CFG, CREATE_STEPS[..n]) == Some(DuringCreate(n))
  {
    if n > 0 {
      hide *;
      CreateRuns(n - 1);
      CreateStep(n - 1);
      ExecNext(CFG, CREATE_STEPS[..n - 1], DuringCreate(n - 1), CREATE_STEPS[n - 1]);
      assert CREATE_STEPS[..n - 1] + [CREATE_STEPS[n - 1]] == CREATE_STEPS[..n];
    }
  }

  lemma Lengths()
    ensures |CREATE_STEPS| == 7 && |PAY_STEPS| == 9 && |CANCEL_STEPS| == 6
  {
  }

  lemma PayFollows()
    ensures DuringPay(0) == DuringCreate(7) && CREATE_STEPS + PAY_STEPS[..0] == CREATE_STEPS[..7]
  {
  }

  lemma CancelFollows()
    ensures DuringCancel(0) == DuringPay(9)
    ensures CREATE_STEPS + PAY_STEPS + CANCEL_STEPS[..0] == CREATE_STEPS + PAY_STEPS[..9]
  {
  }

  lemma {:induction false} PayRuns(n: nat)
    requires n <= 9
    ensures Exec(CFG, CREATE_STEPS + PAY_STEPS[..n]) == Some(DuringPay(n))
  {
    hide *;
    Lengths();
    if n == 0 {
      CreateRuns(7);
      PayFollows();
    } else {
      PayRuns(n - 1);
      PayStep(n - 1);
      ExecNext(CFG, CREATE_STEPS + PAY_STEPS[..n - 1], DuringPay(n - 1), PAY_STEPS[n - 1]);
      assert CREATE_STEPS + PAY_STEPS[..n - 1] + [PAY_STEPS[n - 1]] == CREATE_STEPS + PAY_STEPS[..n];
    }
  }

  lemma {:induction false} CancelRuns(n: nat)
    requires n <= 6
    ensures Exec(CFG, CREATE_STEPS + PAY_STEPS + CANCEL_STEPS[..n]) == Some(DuringCancel(n))
  {
    hide *;
    Lengths();
    if n == 0 {
      PayRuns(9);
      CancelFollows();
    } else {
      CancelRuns(n - 1);
      CancelStep(n - 1);
      var before := CREATE_STEPS + PAY_STEPS;
      ExecNext(CFG, before + CANCEL_STEPS[..n - 1], DuringCancel(n - 1), CANCEL_STEPS[n - 1]);
      assert before + CANCEL_STEPS[..n - 1] + [CANCEL_STEPS[n - 1]] == before + CANCEL_STEPS[..n];
    }
  }

  /** All payments failed and there is one, but the order is cancelled, not `payment_failed`. */
  lemma DeclinedThenCancelled()
    ensures var run := CREATE_STEPS + PAY_STEPS + CANCEL_STEPS;
      && Exec(CFG, run).Some?
      && var db := Exec(CFG, run).value.db;
      && HasPayment(db, 7) && !HasSuccess(db, 7)
      && 7 in db.orders && db.orders[7].status == Cancelled
  {
    CancelRuns(6);
    assert CREATE_STEPS + PAY_STEPS + CANCEL_STEPS[..6] == CREATE_STEPS + PAY_STEPS + CANCEL_STEPS;
    assert IsPayment(DbAfter(3), 16, 7, Declined);
  }
}
