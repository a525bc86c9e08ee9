/**
 A run in which two calls for one order cross: the cancellation begins first and commits last. Behind the
 Redis lock it takes two spellings of the order's id, which are two lock keys but one row; both calls stay
 within the time to live of their lock. No publisher keeps the commit order of the resulting history.
 */
module Crossing {
  import opened Types
  import opened OrderMachine
  import opened OrderExample
  import L = OrderLock
  import G = LockedService
  import B = OutboxMachine
  import Log = CommitOrder

  /** The order's id in another spelling. */
  const OTHER: Text := Spelled(7, 0)

  const PAY_OTHER: Request := PayRequest(IdText(1), false, OTHER, "b", "POST", "/orders/7/pay")

  const PAYING_LATE: Tx := Tx(
    1, Some(PLACED), Some(PAYMENT), Some(UNPAID), Some(PaymentEvent(PLACED, PAYMENT, 2, 1)),
    Some(RowFor(CFG, PAY_OTHER, PaymentResource(16))))

  const PAID_DB: Db := Committed(DbAfter(1), PAY_OTHER, PAYING_LATE)

  const CLOSED_DB: Db := Committed(PAID_DB, CANCEL, CANCELLING)

  const PAID_ANSWER: Proc := Answering(PAY_OTHER, Answer(PaymentResource(16), 200, false))

  /** The cancellation receives its request and begins; the clock ticks; the payment runs; the cancellation goes on. */
  const CROSS_STEPS: seq<Step> := [
    Receive(1, CANCEL), Begin(1), Tick,
    Receive(2, PAY_OTHER), Lookup(2, true), Begin(2), LockOrder(2), InsertPayment(2, 16), UpdateStatus(2),
    InsertEvent(2, 2), InsertIdem(2), Commit(2, true),
    LockOrder(1), UpdateStatus(1), InsertEvent(1, 3), Commit(1, true)]

  /** Process 1 after `n` steps, for `n > 0`. */
  function CancelProc(n: nat): Proc {
    if n == 1 then Ready(CANCEL)
    else if n <= 12 then InTx(CANCEL, BEGUN)
    else if n == 13 then InTx(CANCEL, BEGUN.(locked := Some(UNPAID)))
    else if n == 14 then InTx(CANCEL, CANCELLING.(event := None))
    else if n == 15 then InTx(CANCEL, CANCELLING)
    else Answering(CANCEL, CancelDone(7))
  }

  /** Process 2 after `n` steps, for `n > 3`. */
  function PayProc(n: nat): Proc {
    var begun := BEGUN.(startedAt := 1);
    if n == 4 then Looking(PAY_OTHER)
    else if n == 5 then Ready(PAY_OTHER)
    else if n == 6 then InTx(PAY_OTHER, begun)
    else if n == 7 then InTx(PAY_OTHER, begun.(locked := Some(PLACED)))
    else if n == 8 then InTx(PAY_OTHER, begun.(locked := Some(PLACED), payment := Some(PAYMENT)))
    else if n == 9 then InTx(PAY_OTHER, PAYING_LATE.(event := None, idem := None))
    else if n == 10 then InTx(PAY_OTHER, PAYING_LATE.(idem := None))
    else if n == 11 then InTx(PAY_OTHER, PAYING_LATE)
    else PAID_ANSWER
  }

  function DuringCross(n: nat): State {
    var db := if n <= 11 then DbAfter(1) else if n <= 15 then PAID_DB else CLOSED_DB;
    var clock := if n <= 2 then 0 else 1;
    if n == 0 then State(db, Answered(0), clock, [])
    else if n <= 3 then State(db, Answered(0)[1 := CancelProc(n)], clock, [])
    else State(db, Answered(0)[1 := CancelProc(n)][2 := PayProc(n)], clock, [])
  }

  lemma CrossBeginsEnabled(n: nat)
    requires n < 7
    ensures Enabled(CFG, DuringCross(n), CROSS_STEPS[n])
  {
  }

  lemma CrossBegins(n: nat)
    requires n < 7
    ensures Enabled(CFG, DuringCross(n), CROSS_STEPS[n])
    ensures Apply(CFG, DuringCross(n), CROSS_STEPS[n]) == DuringCross(n + 1)
  {
    hide Enabled;
    CrossBeginsEnabled(n);
  }

  lemma CrossPaysEnabled(n: nat)
    requires 7 <= n < 12
    ensures Enabled(CFG, DuringCross(n), CROSS_STEPS[n])
  {
  }

  lemma CrossPays(n: nat)
    requires 7 <= n < 12
    ensures Enabled(CFG, DuringCross(n), CROSS_STEPS[n])
    ensures Apply(CFG, DuringCross(n), CROSS_STEPS[n]) == DuringCross(n + 1)
  {
    hide Enabled;
    CrossPaysEnabled(n);
  }

  lemma CrossEndsEnabled(n: nat)
    requires 12 <= n < 16
    ensures Enabled(CFG, DuringCross(n), CROSS_STEPS[n])
  {
  }

  lemma CrossEnds(n: nat)
    requires 12 <= n < 16
    ensures Enabled(CFG, DuringCross(n), CROSS_STEPS[n])
    ensures Apply(CFG, DuringCross(n), CROSS_STEPS[n]) == DuringCross(n + 1)
  {
    hide Enabled;
    CrossEndsEnabled(n);
  }

  lemma CrossStep(n: nat)
    requires n < 16
    ensures Enabled(CFG, DuringCross(n), CROSS_STEPS[n])
    ensures Apply(CFG, DuringCross(n), CROSS_STEPS[n]) == DuringCross(n + 1)
  {
    hide Enabled, Apply, DuringCross;
    if n < 7 {
      CrossBegins(n);
    } else if n < 12 {
      CrossPays(n);
    } else {
      CrossEnds(n);
    }
  }

  /******* Behind the lock *******/

  /** The same calls behind the lock: the cancellation locks one spelling of the id, the payment the other. */
  const LOCKED_STEPS: seq<G.Step> :=
    seq(7, n requires 0 <= n < 7 => G.Serve(CREATE_STEPS[n]))
    + [G.Lock(1, IdText(7)), G.Serve(CROSS_STEPS[0]), G.Serve(CROSS_STEPS[1]), G.Tick, G.Lock(2, OTHER)]
    + seq(13, n requires 0 <= n < 13 => G.Serve(CROSS_STEPS[n + 3]))

  function LockAt(ttl: nat, n: nat): L.State {
    var first := L.Entry(0, if ttl == 0 then None else Some(ttl));
    var second := L.Entry(1, if ttl == 0 then None else Some(1 + ttl));
    var one := L.Section(IdText(7), 0, None);
    if n <= 7 then L.Init()
    else if n <= 10 then L.State(0, map[IdText(7) := first], [one])
    else if n == 11 then L.State(1, map[IdText(7) := first], [one])
    else L.State(1, map[IdText(7) := first, OTHER := second], [one, L.Section(OTHER, 1, None)])
  }

  function StampsAt(n: nat): seq<G.Stamp> {
    if n < 7 then []
    else if n < 21 then [G.Stamp(None, 0)]
    else if n < 25 then [G.Stamp(None, 0), G.Stamp(Some(1), 1)]
    else [G.Stamp(None, 0), G.Stamp(Some(1), 1), G.Stamp(Some(0), 1)]
  }

  /** The system after `n` steps. */
  function LockedAt(ttl: nat, n: nat): G.System {
    G.System(
      if n <= 7 then DuringCreate(n) else if n == 8 then DuringCross(0)
      else if n <= 11 then DuringCross(n - 8) else DuringCross(n - 9),
      LockAt(ttl, n),
      if n < 8 then map[] else if n < 12 then map[1 := 0] else map[1 := 0, 2 := 1],
      StampsAt(n))
  }

  lemma LockedCreates(ttl: nat, n: nat)
    requires n < 7
    ensures G.Enabled(G.Config(CFG, ttl), LockedAt(ttl, n), LOCKED_STEPS[n])
    ensures G.Apply(G.Config(CFG, ttl), LockedAt(ttl, n), LOCKED_STEPS[n]) == LockedAt(ttl, n + 1)
  {
    hide Enabled, Apply;
    CreateStep(n);
    assert DuringCross(0) == DuringCreate(7);
  }

  lemma LockedBegins(ttl: nat, n: nat)
    requires 7 <= n < 12
    ensures G.Enabled(G.Config(CFG, ttl), LockedAt(ttl, n), LOCKED_STEPS[n])
    ensures G.Apply(G.Config(CFG, ttl), LockedAt(ttl, n), LOCKED_STEPS[n]) == LockedAt(ttl, n + 1)
  {
    hide Enabled, Apply;
    if n > 8 {
      CrossStep(if n <= 10 then n - 8 else 2);
    }
    CrossStep(0);
    CrossStep(1);
    CrossStep(2);
  }

  lemma LockedServes(ttl: nat, n: nat)
    requires 12 <= n < 25
    ensures G.Enabled(G.Config(CFG, ttl), LockedAt(ttl, n), LOCKED_STEPS[n])
    ensures G.Apply(G.Config(CFG, ttl), LockedAt(ttl, n), LOCKED_STEPS[n]) == LockedAt(ttl, n + 1)
  {
    hide Enabled, Apply;
    CrossStep(n - 9);
  }

  lemma LockedStep(ttl: nat, n: nat)
    requires n < 25
    ensures |LOCKED_STEPS| == 25
    ensures G.Enabled(G.Config(CFG, ttl), LockedAt(ttl, n), LOCKED_STEPS[n])
    ensures G.Apply(G.Config(CFG, ttl), LockedAt(ttl, n), LOCKED_STEPS[n]) == LockedAt(ttl, n + 1)
  {
    hide G.Enabled, G.Apply, LockedAt;
    if n < 7 {
      LockedCreates(ttl, n);
    } else if n < 12 {
      LockedBegins(ttl, n);
    } else {
      LockedServes(ttl, n);
    }
  }

  lemma LockedNext(cfg: G.Config, steps: seq<G.Step>, sys: G.System, step: G.Step)
    requires G.Exec(cfg, steps) == Some(sys) && G.Enabled(cfg, sys, step)
    ensures G.Exec(cfg, steps + [step]) == Some(G.Apply(cfg, sys, step))
  {
    hide G.Enabled, G.Apply;
    assert (steps + [step])[..|steps|] == steps;
  }

  lemma LockedStart(ttl: nat)
    ensures LockedAt(ttl, 0) == G.Init() && |LOCKED_STEPS| == 25
  {
  }

  lemma {:induction false} LockedRuns(ttl: nat, n: nat)
    requires n <= 25
    ensures |LOCKED_STEPS| == 25
    ensures G.Exec(G.Config(CFG, ttl), LOCKED_STEPS[..n]) == Some(LockedAt(ttl, n))
  {
    hide G.Enabled, G.Apply, LockedAt, G.Init, LOCKED_STEPS, StampsAt;
    LockedStart(ttl);
    if n > 0 {
      LockedRuns(ttl, n - 1);
      LockedStep(ttl, n - 1);
      LockedNext(G.Config(CFG, ttl), LOCKED_STEPS[..n - 1], LockedAt(ttl, n - 1), LOCKED_STEPS[n - 1]);
      assert LOCKED_STEPS[..n - 1] + [LOCKED_STEPS[n - 1]] == LOCKED_STEPS[..n];
    }
  }

  /**
   Two spellings of one order id: payment and cancellation hold different locks at the same time, both commit in
   time, and the one that commits last has the smaller `created_at`.
   */
  lemma SpellingsCross(ttl: nat)
    requires ttl == 0 || ttl >= 2
    ensures G.Exec(G.Config(CFG, ttl), LOCKED_STEPS).Some?
    ensures
      var sys := G.Exec(G.Config(CFG, ttl), LOCKED_STEPS).value;
      var outbox := sys.service.db.outbox;
      && |outbox| == |sys.stamps| == 3
      && outbox[1].partitionKey == outbox[2].partitionKey && outbox[2].createdAt < outbox[1].createdAt
      && G.Timely(ttl, sys, 1) && G.Timely(ttl, sys, 2) && !G.SameLock(sys, 1, 2)
  {
    LockedRuns(ttl, 25);
    assert LOCKED_STEPS[..25] == LOCKED_STEPS;
    CrossedHistory();
  }

  lemma CrossedHistory()
    ensures CLOSED_DB.outbox == [CreatedEvent(PLACED, 1, 0), PaymentEvent(PLACED, PAYMENT, 2, 1), CancelledEvent(CLOSED, 3, 0)]
    ensures DuringCross(16).db == CLOSED_DB
  {
  }

  /** Nobody publishes this history in its commit order: some run of one publisher, with no failing call, does not. */
  lemma CrossedHistoryNotKept(cfg: B.Config)
    requires cfg.batchSize >= 1
    ensures Log.Distinct(CLOSED_DB.outbox) && !Log.KeptIfNothingFails(cfg, CLOSED_DB.outbox)
  {
    CrossedHistory();
    var h := CLOSED_DB.outbox;
    assert h[1].partitionKey == h[2].partitionKey && h[2].createdAt < h[1].createdAt;
    Log.KeptIfNothingFailsExactly(cfg, h);
  }
}
