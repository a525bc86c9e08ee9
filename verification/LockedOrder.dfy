/**
 What the Redis lock contributes to the order of the log: calls that use one spelling of an order's id, and
 finish in time, are committed in the order of their `created_at`, which is what one publisher needs.
 */
module LockedOrder {
  import opened Types
  import A = OrderMachine
  import AI = OrderInvariants
  import G = LockedService
  import B = OutboxMachine
  import BI = OutboxInvariants
  import BO = OutboxOrder
  import Log = CommitOrder

  /******* The creation of an order is its first event *******/

  lemma {:induction false} BrokenStays(outbox: seq<Event>, o: Uuid, n: nat)
    requires n <= |outbox| && AI.Fold(AI.History(outbox[..n], o)).Broken?
    ensures AI.Fold(AI.History(outbox, o)).Broken?
    decreases |outbox| - n
  {
    if n == |outbox| {
      assert outbox[..n] == outbox;
    } else {
      AI.HistoryAppend(outbox[..n], outbox[n], o);
      assert outbox[..n + 1] == outbox[..n] + [outbox[n]];
      BrokenStays(outbox, o, n + 1);
    }
  }

  lemma {:induction false} OnceBegun(outbox: seq<Event>, o: Uuid, i: nat, n: nat)
    requires i < n <= |outbox| && outbox[i].partitionKey == o
    ensures !AI.Fold(AI.History(outbox[..n], o)).NoOrder?
  {
    AI.HistoryAppend(outbox[..n - 1], outbox[n - 1], o);
    assert outbox[..n] == outbox[..n - 1] + [outbox[n - 1]];
    if i < n - 1 {
      OnceBegun(outbox, o, i, n - 1);
    }
  }

  lemma CreationIsFirst(db: A.Db, i: nat, j: nat)
    requires AI.HistoriesOk(db) && i < j < |db.outbox| && db.outbox[i].partitionKey == db.outbox[j].partitionKey
    ensures !db.outbox[j].eventType.OrderCreated?
  {
    var o := db.outbox[j].partitionKey;
    if db.outbox[j].eventType.OrderCreated? {
      OnceBegun(db.outbox, o, i, j);
      AI.HistoryAppend(db.outbox[..j], db.outbox[j], o);
      assert db.outbox[..j + 1] == db.outbox[..j] + [db.outbox[j]];
      BrokenStays(db.outbox, o, j + 1);
      assert false;
    }
  }

  /******* Nothing happens to an order before it is created *******/

  predicate SameOrder(outbox: seq<Event>, i: nat, j: nat) {
    i < j < |outbox| && outbox[i].partitionKey == outbox[j].partitionKey
  }

  /** A request to pay or cancel names an order that exists, or no order at all. */
  predicate Known(db: A.Db, r: A.Request) {
    G.Guarded(r) && r.orderId.Parse().Some? ==> r.orderId.Parse().value in db.orders
  }

  /** Callers pay and cancel only orders whose creation has committed: they have nowhere else to get an id from. */
  ghost predicate KnownOrders(cfg: A.Config, steps: seq<A.Step>) {
    forall k | 0 <= k < |steps| && steps[k].Receive? && A.Exec(cfg, steps[..k]).Some? ::
      Known(A.Exec(cfg, steps[..k]).value.db, steps[k].request)
  }

  /** The creation of order `o` is stamped no later than `at`. */
  ghost predicate CreatedBy(db: A.Db, o: Uuid, at: nat) {
    forall i | 0 <= i < |db.outbox| && db.outbox[i].partitionKey == o && db.outbox[i].eventType.OrderCreated? ::
      db.outbox[i].createdAt <= at
  }

  predicate ProcTimes(s: A.State, p: nat)
    requires p in s.procs
  {
    var proc := s.procs[p];
    && (!proc.Answering? ==> Known(s.db, proc.request))
    && (proc.InTx? ==> proc.tx.startedAt <= s.clock)
  }

  /** A transaction on an order began after the order was created. */
  ghost predicate BeganAfter(s: A.State, p: nat)
    requires p in s.procs
  {
    var proc := s.procs[p];
    proc.InTx? && G.Guarded(proc.request) && proc.request.orderId.Parse().Some? ==>
      CreatedBy(s.db, proc.request.orderId.Parse().value, proc.tx.startedAt)
  }

  ghost predicate PairsOk(db: A.Db) {
    forall i: nat, j: nat | SameOrder(db.outbox, i, j) && db.outbox[i].eventType.OrderCreated? ::
      db.outbox[i].createdAt <= db.outbox[j].createdAt
  }

  ghost predicate TimesInv(s: A.State) {
    && (forall i | 0 <= i < |s.db.outbox| :: s.db.outbox[i].createdAt <= s.clock)
    && (forall p | p in s.procs :: ProcTimes(s, p))
    && (forall p | p in s.procs :: BeganAfter(s, p))
    && PairsOk(s.db)
  }

  lemma LocalTimes(cfg: A.Config, s: A.State, step: A.Step)
    requires TimesInv(s) && A.Enabled(cfg, s, step) && AI.IsLocal(step)
    requires step.Receive? ==> Known(s.db, step.request)
    ensures TimesInv(A.Apply(cfg, s, step))
  {
    var t := A.Apply(cfg, s, step);
    forall q | q in t.procs
      ensures ProcTimes(t, q) && BeganAfter(t, q)
    {
      if q != step.p {
        assert ProcTimes(s, q) && BeganAfter(s, q);
      } else if !step.Receive? {
        assert ProcTimes(s, q) && BeganAfter(s, q);
      }
    }
  }

  /** The event that a commit adds, and the order it is about. */
  lemma CommitAppends(cfg: A.Config, s: A.State, step: A.Step)
    requires A.Enabled(cfg, s, step) && step.Commit?
    ensures step.p in s.procs && s.procs[step.p].InTx?
    ensures A.Complete(s.procs[step.p].request, s.procs[step.p].tx)
    ensures
      var t, proc := A.Apply(cfg, s, step), s.procs[step.p];
      && t.db.outbox == s.db.outbox + [proc.tx.event.value] && t.clock == s.clock
      && (forall o | o in s.db.orders :: o in t.db.orders)
      && (forall q | q in t.procs :: q in s.procs && (q != step.p ==> t.procs[q] == s.procs[q]))
      && step.p in t.procs && t.procs[step.p].Answering?
  {
  }

  /** A creation is of an order that did not exist; any other event is of the order its request names. */
  lemma EventOfTx(cfg: A.Config, db: A.Db, proc: A.Proc)
    requires AI.ProcOk(cfg, db, proc) && proc.InTx? && A.Complete(proc.request, proc.tx)
    ensures var e := proc.tx.event.value;
      && e.createdAt == proc.tx.startedAt
      && (e.eventType.OrderCreated? <==> !G.Guarded(proc.request))
      && (e.eventType.OrderCreated? ==> e.partitionKey !in db.orders)
      && (G.Guarded(proc.request) ==> proc.request.orderId.Parse() == Some(e.partitionKey))
  {
  }

  /** Others keep their times: the new row is no creation of an order that somebody else is working on. */
  lemma CommitProcTimes(cfg: A.Config, s: A.State, step: A.Step, q: nat)
    requires AI.ProcsOk(cfg, s) && TimesInv(s) && A.Enabled(cfg, s, step) && step.Commit?
    requires q in A.Apply(cfg, s, step).procs
    ensures ProcTimes(A.Apply(cfg, s, step), q) && BeganAfter(A.Apply(cfg, s, step), q)
  {
    CommitAppends(cfg, s, step);
    assert AI.ProcOk(cfg, s.db, s.procs[step.p]);
    EventOfTx(cfg, s.db, s.procs[step.p]);
    if q != step.p {
      assert ProcTimes(s, q) && BeganAfter(s, q);
      hide A.Enabled, A.Apply, AI.ProcsOk, AI.ProcOk;
    }
  }

  lemma CommitPairs(cfg: A.Config, s: A.State, step: A.Step, i: nat, j: nat)
    requires AI.ProcsOk(cfg, s) && AI.OutboxOk(s.db) && TimesInv(s) && A.Enabled(cfg, s, step) && step.Commit?
    requires SameOrder(A.Apply(cfg, s, step).db.outbox, i, j)
    requires A.Apply(cfg, s, step).db.outbox[i].eventType.OrderCreated?
    ensures A.Apply(cfg, s, step).db.outbox[i].createdAt <= A.Apply(cfg, s, step).db.outbox[j].createdAt
  {
    CommitAppends(cfg, s, step);
    assert AI.ProcOk(cfg, s.db, s.procs[step.p]);
    EventOfTx(cfg, s.db, s.procs[step.p]);
    assert BeganAfter(s, step.p);
    hide A.Enabled, A.Apply, AI.ProcsOk, AI.ProcOk;
    assert AI.EventFits(s.db, s.db.outbox[i]);
    if j < |s.db.outbox| {
      assert SameOrder(s.db.outbox, i, j);
    }
  }

  lemma TimesOf(cfg: A.Config, s: A.State, p: nat)
    requires AI.ProcsOk(cfg, s) && TimesInv(s) && p in s.procs
    ensures AI.ProcOk(cfg, s.db, s.procs[p]) && ProcTimes(s, p) && BeganAfter(s, p)
  {
  }

  lemma CommitTimes(cfg: A.Config, s: A.State, step: A.Step)
    requires AI.Inv(cfg, s) && TimesInv(s) && A.Enabled(cfg, s, step) && step.Commit?
    ensures TimesInv(A.Apply(cfg, s, step))
  {
    hide A.Enabled, A.Apply, AI.ProcsOk, AI.ProcOk, AI.DbOk, AI.OutboxOk, A.Complete, BeganAfter;
    var t := A.Apply(cfg, s, step);
    CommitAppends(cfg, s, step);
    AI.PartsOfInv(cfg, s);
    TimesOf(cfg, s, step.p);
    EventOfTx(cfg, s.db, s.procs[step.p]);
    forall q | q in t.procs
      ensures ProcTimes(t, q) && BeganAfter(t, q)
    {
      CommitProcTimes(cfg, s, step, q);
    }
    forall i: nat, j: nat | SameOrder(t.db.outbox, i, j) && t.db.outbox[i].eventType.OrderCreated?
      ensures t.db.outbox[i].createdAt <= t.db.outbox[j].createdAt
    {
      CommitPairs(cfg, s, step, i, j);
    }
  }

  lemma QuietTimes(cfg: A.Config, s: A.State, step: A.Step)
    requires TimesInv(s) && A.Enabled(cfg, s, step) && (step.Tick? || step.Respond? || step.Crash?)
    ensures TimesInv(A.Apply(cfg, s, step))
  {
    var t := A.Apply(cfg, s, step);
    forall q | q in t.procs
      ensures ProcTimes(t, q) && BeganAfter(t, q)
    {
      assert ProcTimes(s, q) && BeganAfter(s, q);
    }
  }

  lemma {:induction false} RunKeepsTimes(cfg: A.Config, steps: seq<A.Step>)
    requires A.Exec(cfg, steps).Some? && KnownOrders(cfg, steps)
    ensures TimesInv(A.Exec(cfg, steps).value)
  {
    if steps != [] {
      hide A.Enabled, A.Apply, AI.Inv, TimesInv;
      var init, last := steps[..|steps| - 1], steps[|steps| - 1];
      forall k | 0 <= k < |init| && init[k].Receive? && A.Exec(cfg, init[..k]).Some?
        ensures Known(A.Exec(cfg, init[..k]).value.db, init[k].request)
      {
        assert init[..k] == steps[..k] && init[k] == steps[k];
      }
      RunKeepsTimes(cfg, init);
      AI.RunKeepsInv(cfg, init);
      var s := A.Exec(cfg, init).value;
      if last.Commit? {
        CommitTimes(cfg, s, last);
      } else if AI.IsLocal(last) {
        LocalTimes(cfg, s, last);
      } else {
        QuietTimes(cfg, s, last);
      }
    }
  }

  /** If callers only name orders they were told of, no event of an order is stamped before its creation. */
  lemma CreatedFirst(cfg: A.Config, steps: seq<A.Step>, i: nat, j: nat)
    requires A.Exec(cfg, steps).Some? && KnownOrders(cfg, steps)
    requires SameOrder(A.Exec(cfg, steps).value.db.outbox, i, j)
    requires A.Exec(cfg, steps).value.db.outbox[i].eventType.OrderCreated?
    ensures
      var outbox := A.Exec(cfg, steps).value.db.outbox;
      outbox[i].createdAt <= outbox[j].createdAt
  {
    hide A.Exec;
    RunKeepsTimes(cfg, steps);
  }

  /******* Under the lock *******/

  /** Every payment and cancellation committed while its lock had not run out. */
  ghost predicate AllTimely(ttl: nat, sys: G.System) {
    forall i: nat | i < |sys.stamps| && sys.stamps[i].section.Some? :: G.Timely(ttl, sys, i)
  }

  /** The payments and cancellations of one order locked one spelling of its id. */
  ghost predicate OneSpelling(sys: G.System) {
    forall i: nat, j: nat | SameOrder(sys.service.db.outbox, i, j) && j < |sys.stamps|
                            && sys.stamps[i].section.Some? && sys.stamps[j].section.Some? :: G.SameLock(sys, i, j)
  }

  /** No two transactions of one order began in the same instant. */
  ghost predicate NoTies(outbox: seq<Event>) {
    forall i: nat, j: nat | SameOrder(outbox, i, j) :: outbox[i].createdAt != outbox[j].createdAt
  }

  /** The lock makes `created_at` follow the commits up to ties; without ties it strictly increases. */
  lemma TimelyIncreasing(cfg: G.Config, steps: seq<G.Step>)
    requires G.Exec(cfg, steps).Some?
    requires AllTimely(cfg.ttl, G.Exec(cfg, steps).value) && OneSpelling(G.Exec(cfg, steps).value)
    requires NoTies(G.Exec(cfg, steps).value.service.db.outbox) && KnownOrders(cfg.service, G.ServiceSteps(steps))
    ensures Log.Increasing(G.Exec(cfg, steps).value.service.db.outbox)
  {
    hide G.Exec, G.Timely, G.SameLock, A.Exec, KnownOrders;
    var sys := G.Exec(cfg, steps).value;
    var outbox := sys.service.db.outbox;
    G.RunKeepsInv(cfg, steps);
    G.ServiceRuns(cfg, steps);
    forall i: nat, j: nat | SameOrder(outbox, i, j)
      ensures outbox[i].createdAt < outbox[j].createdAt
    {
      CreationIsFirst(sys.service.db, i, j);
      assert G.StampOk(sys, i) && G.StampOk(sys, j);
      if outbox[i].eventType.OrderCreated? {
        CreatedFirst(cfg.service, G.ServiceSteps(steps), i, j);
      } else {
        G.CreationFollowsCommit(cfg, steps, i, j);
      }
    }
    forall i, j | 0 <= i < j < |outbox| && outbox[i].partitionKey == outbox[j].partitionKey
      ensures outbox[i].createdAt < outbox[j].createdAt
    {
      assert SameOrder(outbox, i, j);
    }
  }

  /**
   Lock and publisher together: for a history written behind the lock as above, one publisher at a time keeps
   the commit order of every order as long as no call fails, and whatever fails if it claims rows one by one.
   */
  lemma LockedOrderKept(cfg: G.Config, steps: seq<G.Step>, broker: B.Config, s: B.State)
    requires G.Exec(cfg, steps).Some?
    requires AllTimely(cfg.ttl, G.Exec(cfg, steps).value) && OneSpelling(G.Exec(cfg, steps).value)
    requires NoTies(G.Exec(cfg, steps).value.service.db.outbox) && KnownOrders(cfg.service, G.ServiceSteps(steps))
    requires Log.Reached(broker, true, s) && Log.EventsOf(s) <= G.Exec(cfg, steps).value.service.db.outbox
    requires BO.NothingFailed(s) || broker.batchSize == 1
    ensures BI.Sized(broker, s) && Log.InOrder(broker, s)
  {
    TimelyIncreasing(cfg, steps);
    hide G.Exec, AllTimely, OneSpelling, NoTies, KnownOrders, Log.Reached, Log.InOrder;
    Log.EnoughAt(broker, s, G.Exec(cfg, steps).value.service.db.outbox);
  }
}
