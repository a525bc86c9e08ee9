/**
 The pipeline can always come to rest: from every reachable state of the whole system some continuation of
 publisher and consumer steps publishes every row and commits every record.
 */
module Quiescence {
  import opened Types
  import opened Messages
  import B = OutboxMachine
  import BI = OutboxInvariants
  import BT = OutboxTheorems
  import Log = CommitOrder
  import C = DeliveryMachine
  import CI = DeliveryInvariants
  import K = Consumer
  import E = EndToEnd

  /******* The publisher *******/

  /** No step of the service or of another producer. */
  predicate OwnSteps(steps: seq<B.Step>) {
    forall k | 0 <= k < |steps| :: !steps[k].Insert? && !steps[k].Foreign?
  }

  /** Publishers and broker can get from `s` to `t` by themselves. */
  ghost predicate CanPublish(cfg: B.Config, s: B.State, t: B.State) {
    exists steps :: OwnSteps(steps) && BT.Leads(cfg, s, steps, t)
  }

  lemma {:induction false} LeadsOnwards(cfg: B.Config, s: B.State, a: seq<B.Step>, t: B.State, b: seq<B.Step>, u: B.State)
    requires BT.Leads(cfg, s, a, t) && BT.Leads(cfg, t, b, u)
    ensures BT.Leads(cfg, s, a + b, u)
    decreases |a|
  {
    if a == [] {
      assert a + b == b;
    } else {
      LeadsOnwards(cfg, B.Apply(cfg, s, a[0]), a[1..], t, b, u);
      assert (a + b)[1..] == a[1..] + b;
    }
  }

  lemma PublishOnwards(cfg: B.Config, s: B.State, t: B.State, u: B.State)
    requires CanPublish(cfg, s, t) && CanPublish(cfg, t, u)
    ensures CanPublish(cfg, s, u)
  {
    var a :| OwnSteps(a) && BT.Leads(cfg, s, a, t);
    var b :| OwnSteps(b) && BT.Leads(cfg, t, b, u);
    LeadsOnwards(cfg, s, a, t, b, u);
    assert OwnSteps(a + b);
  }

  lemma PublishNothing(cfg: B.Config, s: B.State)
    ensures CanPublish(cfg, s, s)
  {
    assert OwnSteps([]) && BT.Leads(cfg, s, [], s);
  }

  /** One more step. */
  lemma PublishStep(cfg: B.Config, s: B.State, t: B.State, step: B.Step)
    requires CanPublish(cfg, s, t) && B.Enabled(cfg, t, step) && !step.Insert? && !step.Foreign?
    ensures CanPublish(cfg, s, B.Apply(cfg, t, step))
  {
    var steps := [step];
    assert steps[1..] == [];
    assert BT.Leads(cfg, B.Apply(cfg, t, step), steps[1..], B.Apply(cfg, t, step));
    assert OwnSteps(steps) && BT.Leads(cfg, t, steps, B.Apply(cfg, t, step));
    PublishOnwards(cfg, s, t, B.Apply(cfg, t, step));
  }

  lemma {:induction false} LeadsKeepsInv(cfg: B.Config, s: B.State, steps: seq<B.Step>, t: B.State)
    requires BI.Inv(cfg, s) && BT.Leads(cfg, s, steps, t)
    ensures BI.Inv(cfg, t)
    decreases |steps|
  {
    if steps != [] {
      hide BI.Inv, B.Enabled, B.Apply;
      BI.StepKeepsInv(cfg, s, steps[0]);
      LeadsKeepsInv(cfg, B.Apply(cfg, s, steps[0]), steps[1..], t);
    }
  }

  lemma PublishKeepsInv(cfg: B.Config, s: B.State, t: B.State)
    requires BI.Inv(cfg, s) && CanPublish(cfg, s, t)
    ensures BI.Inv(cfg, t)
  {
    var steps :| OwnSteps(steps) && BT.Leads(cfg, s, steps, t);
    LeadsKeepsInv(cfg, s, steps, t);
  }

  /** Every open transaction rolls back. */
  lemma {:induction false} AbortAll(cfg: B.Config, s: B.State) returns (t: B.State)
    requires BI.Inv(cfg, s)
    ensures CanPublish(cfg, s, t) && t.open == map[] && Log.Gained(s, t)
    decreases |s.open|
  {
    if s.open == map[] {
      PublishNothing(cfg, s);
      t := s;
    } else {
      hide BI.Inv, CanPublish;
      BI.SizeOfInv(cfg, s);
      var p :| p in s.open;
      var step := B.Abort(p, true);
      PublishNothing(cfg, s);
      PublishStep(cfg, s, s, step);
      var u := B.Apply(cfg, s, step);
      PublishKeepsInv(cfg, s, u);
      assert u.open.Keys == s.open.Keys - {p};
      t := AbortAll(cfg, u);
      PublishOnwards(cfg, s, u, t);
    }
  }

  /** The publisher is in a batch in which nothing has failed. */
  ghost predicate Clean(cfg: B.Config, s: B.State) {
    && BI.Inv(cfg, s) && s.open.Keys == {0} && s.open[0].send.Idle?
    && forall m | m in s.open[0].marks :: s.open[0].marks[m].MarkPublished?
  }

  lemma PublishRow(cfg: B.Config, s: B.State)
    requires Clean(cfg, s) && BI.Sized(cfg, s) && B.Sending(s, 0, B.Idle)
    ensures CanPublish(cfg, s, Log.Published(cfg, s, 0)) && Clean(cfg, Log.Published(cfg, s, 0))
  {
    hide BI.Inv, CanPublish, B.IsClaim;
    PublishNothing(cfg, s);
    PublishStep(cfg, s, s, B.Produce(0));
    var a := B.Apply(cfg, s, B.Produce(0));
    PublishStep(cfg, s, a, B.Deliver(0));
    var b := B.Apply(cfg, a, B.Deliver(0));
    PublishStep(cfg, s, b, B.Ack(0));
    var c := B.Apply(cfg, b, B.Ack(0));
    PublishStep(cfg, s, c, B.Mark(0));
    assert B.Apply(cfg, c, B.Mark(0)) == Log.Published(cfg, s, 0);
    PublishKeepsInv(cfg, s, Log.Published(cfg, s, 0));
  }

  /** What the commit of such a batch does to the table. */
  lemma CleanMarks(rows: seq<B.Row>, tx: B.Tx)
    requires (forall m | m in tx.marks :: tx.marks[m].MarkPublished?) && tx.done == |tx.batch|
    requires (forall k | 0 <= k < |tx.batch| :: tx.batch[k] < |rows|) && forall m | m in tx.batch[..tx.done] :: m in tx.marks
    ensures var after := B.CommitRows(rows, tx.marks);
      && (forall k | 0 <= k < |rows| ::
            after[k].event == rows[k].event && (rows[k].published ==> after[k].published))
      && (forall m | m in tx.batch :: m < |after| && after[m].published)
  {
    assert tx.batch[..tx.done] == tx.batch;
  }

  lemma CommitClean(cfg: B.Config, s: B.State) returns (t: B.State)
    requires Clean(cfg, s) && s.open[0].done == |s.open[0].batch|
    ensures CanPublish(cfg, s, t) && t.open == map[] && Log.Gained(s, t)
    ensures forall m | m in s.open[0].batch :: m < |t.rows| && t.rows[m].published
  {
    TxOfClean(cfg, s);
    hide CanPublish, B.IsClaim, BI.Inv, BI.TxOk, B.CommitRows;
    CleanMarks(s.rows, s.open[0]);
    PublishNothing(cfg, s);
    var step := B.Step.Commit(0);
    PublishStep(cfg, s, s, step);
    t := B.Apply(cfg, s, step);
  }

  lemma TxOfClean(cfg: B.Config, s: B.State)
    requires Clean(cfg, s)
    ensures BI.Sized(cfg, s) && BI.TxOk(s, s.open[0])
    ensures forall k | 0 <= k < |s.open[0].batch| :: s.open[0].batch[k] < |s.rows|
    ensures s.open[0].done <= |s.open[0].batch| && forall m | m in s.open[0].batch[..s.open[0].done] :: m in s.open[0].marks
  {
  }

  /** The batch is published to its end. */
  lemma {:induction false} FinishBatch(cfg: B.Config, s: B.State) returns (t: B.State)
    requires Clean(cfg, s)
    ensures CanPublish(cfg, s, t) && t.open == map[] && Log.Gained(s, t)
    ensures forall m | m in s.open[0].batch :: m < |t.rows| && t.rows[m].published
    decreases |s.open[0].batch| - s.open[0].done
  {
    assert BI.TxOk(s, s.open[0]) && BI.Sized(cfg, s);
    hide BI.Inv, CanPublish, B.IsClaim;
    if s.open[0].done == |s.open[0].batch| {
      t := CommitClean(cfg, s);
    } else {
      PublishRow(cfg, s);
      t := FinishBatch(cfg, Log.Published(cfg, s, 0));
      PublishOnwards(cfg, s, Log.Published(cfg, s, 0), t);
    }
  }

  /** A claim with an unpublished row in it. */
  lemma BeginBatch(cfg: B.Config, s: B.State, m: nat) returns (t: B.State, n: nat)
    requires BI.Inv(cfg, s) && s.open == map[] && cfg.batchSize > 0 && m < |s.rows| && !s.rows[m].published
    ensures CanPublish(cfg, s, t) && Clean(cfg, t) && t.rows == s.rows
    ensures n in t.open[0].batch && n < |s.rows| && !s.rows[n].published
  {
    hide BI.Inv, CanPublish;
    BI.SizeOfInv(cfg, s);
    var batch := Log.Claimable(s, cfg.batchSize, 0);
    Log.SortedIsClaim(s, cfg.batchSize, 0, batch);
    assert B.Available(s, m);
    assert m in batch || |batch| == cfg.batchSize;
    n := batch[0];
    assert B.Available(s, n);
    PublishNothing(cfg, s);
    PublishStep(cfg, s, s, B.Claim(0, batch));
    t := B.Apply(cfg, s, B.Claim(0, batch));
    PublishKeepsInv(cfg, s, t);
  }

  lemma {:induction false} PublishAll(cfg: B.Config, s: B.State) returns (t: B.State)
    requires BI.Inv(cfg, s) && s.open == map[] && cfg.batchSize > 0
    ensures CanPublish(cfg, s, t) && Log.Gained(s, t)
    ensures forall k | 0 <= k < |t.rows| :: t.rows[k].published
    decreases |Log.Waiting(s.rows)|
  {
    hide BI.Inv, CanPublish, Clean;
    if k :| 0 <= k < |s.rows| && !s.rows[k].published {
      var u, n := BeginBatch(cfg, s, k);
      var v := FinishBatch(cfg, u);
      PublishOnwards(cfg, s, u, v);
      PublishKeepsInv(cfg, s, v);
      Log.FewerWaiting(s, v, n);
      t := PublishAll(cfg, v);
      PublishOnwards(cfg, s, v, t);
    } else {
      PublishNothing(cfg, s);
      t := s;
    }
  }

  /******* The consumer *******/

  ghost predicate LeadsTo(log: C.Log, s: C.State, steps: seq<C.Step>, t: C.State)
    decreases |steps|
  {
    if steps == [] then s == t
    else C.Enabled(log, s, steps[0]) && LeadsTo(log, C.Apply(log, s, steps[0]), steps[1..], t)
  }

  /** The consumers can get from `s` to `t` while the log stays as it is. */
  ghost predicate CanConsume(log: C.Log, s: C.State, t: C.State) {
    exists steps :: LeadsTo(log, s, steps, t)
  }

  lemma {:induction false} LeadsToOnwards(log: C.Log, s: C.State, a: seq<C.Step>, t: C.State, b: seq<C.Step>, u: C.State)
    requires LeadsTo(log, s, a, t) && LeadsTo(log, t, b, u)
    ensures LeadsTo(log, s, a + b, u)
    decreases |a|
  {
    if a == [] {
      assert a + b == b;
    } else {
      LeadsToOnwards(log, C.Apply(log, s, a[0]), a[1..], t, b, u);
      assert (a + b)[1..] == a[1..] + b;
    }
  }

  lemma ConsumeOnwards(log: C.Log, s: C.State, t: C.State, u: C.State)
    requires CanConsume(log, s, t) && CanConsume(log, t, u)
    ensures CanConsume(log, s, u)
  {
    var a :| LeadsTo(log, s, a, t);
    var b :| LeadsTo(log, t, b, u);
    LeadsToOnwards(log, s, a, t, b, u);
  }

  lemma ConsumeNothing(log: C.Log, s: C.State)
    ensures CanConsume(log, s, s)
  {
    assert LeadsTo(log, s, [], s);
  }

  lemma ConsumeStep(log: C.Log, s: C.State, t: C.State, step: C.Step)
    requires CanConsume(log, s, t) && C.Enabled(log, t, step)
    ensures CanConsume(log, s, C.Apply(log, t, step))
  {
    var steps := [step];
    assert steps[1..] == [];
    assert LeadsTo(log, C.Apply(log, t, step), steps[1..], C.Apply(log, t, step));
    assert LeadsTo(log, t, steps, C.Apply(log, t, step));
    ConsumeOnwards(log, s, t, C.Apply(log, t, step));
  }

  lemma {:induction false} LeadsToKeepsInv(log: C.Log, s: C.State, steps: seq<C.Step>, t: C.State)
    requires CI.Inv(log, s) && LeadsTo(log, s, steps, t)
    ensures CI.Inv(log, t)
    decreases |steps|
  {
    if steps != [] {
      hide CI.Inv, C.Enabled, C.Apply;
      CI.StepKeepsInv(log, s, steps[0]);
      LeadsToKeepsInv(log, C.Apply(log, s, steps[0]), steps[1..], t);
    }
  }

  lemma ConsumeKeepsInv(log: C.Log, s: C.State, t: C.State)
    requires CI.Inv(log, s) && CanConsume(log, s, t)
    ensures CI.Inv(log, t)
  {
    var steps :| LeadsTo(log, s, steps, t);
    LeadsToKeepsInv(log, s, steps, t);
  }

  lemma {:induction false} CrashAll(log: C.Log, s: C.State) returns (t: C.State)
    ensures CanConsume(log, s, t) && t.consumers == map[]
    decreases |s.consumers|
  {
    if s.consumers == map[] {
      ConsumeNothing(log, s);
      t := s;
    } else {
      hide CanConsume;
      var c :| c in s.consumers;
      ConsumeNothing(log, s);
      ConsumeStep(log, s, s, C.Crash(c));
      var u := C.Apply(log, s, C.Crash(c));
      assert u.consumers.Keys == s.consumers.Keys - {c};
      t := CrashAll(log, u);
      ConsumeOnwards(log, s, u, t);
    }
  }

  /** Consumer 0 alone, with the first `n` partitions. */
  predicate Joined(s: C.State, n: nat) {
    && s.consumers.Keys == {0} && s.consumers[0].work.Resting?
    && forall part: nat | part < n ::
         && part in s.owner && s.owner[part] == 0
         && part in s.consumers[0].pos && s.consumers[0].pos[part] == C.CommittedOffset(s, part)
  }

  lemma {:induction false} Join(log: C.Log, s: C.State, n: nat) returns (t: C.State)
    requires s.consumers == map[]
    ensures CanConsume(log, s, t) && Joined(t, n)
  {
    hide CanConsume;
    ConsumeNothing(log, s);
    if n == 0 {
      ConsumeStep(log, s, s, C.Start(0));
      t := C.Apply(log, s, C.Start(0));
    } else {
      var u := Join(log, s, n - 1);
      ConsumeStep(log, s, u, C.Assign(0, n - 1));
      t := C.Apply(log, u, C.Assign(0, n - 1));
    }
  }

  /** A polled record can be handled by a consumer that is alone. */
  lemma HandleRecord(log: C.Log, s: C.State, part: nat, off: nat) returns (t: C.State)
    requires s.consumers.Keys == {0} && s.consumers[0].work == C.Polled(part, off) && C.InLog(log, part, off)
    ensures CanConsume(log, s, t) && t.owner == s.owner && t.committed == s.committed
    ensures t.consumers == s.consumers[0 := s.consumers[0].(work := C.Handled(part, off))]
  {
    hide CanConsume, Decode;
    ConsumeNothing(log, s);
    var v := C.VerdictAt(log, part, off);
    if v.Discarded? {
      ConsumeStep(log, s, s, C.Discard(0));
      t := C.Apply(log, s, C.Discard(0));
    } else if v.eventId in s.processed {
      ConsumeStep(log, s, s, C.Duplicate(0));
      t := C.Apply(log, s, C.Duplicate(0));
    } else {
      ConsumeStep(log, s, s, C.Insert(0));
      var a := C.Apply(log, s, C.Insert(0));
      var notice := Unused(s.notifications.Keys);
      ConsumeStep(log, s, a, C.Notify(0, notice));
      var b := C.Apply(log, a, C.Notify(0, notice));
      ConsumeStep(log, s, b, C.CommitTx(0));
      t := C.Apply(log, b, C.CommitTx(0));
    }
  }

  /** One record of partition `part` is handled and committed. */
  lemma ConsumeRecord(log: C.Log, s: C.State, part: nat) returns (t: C.State)
    requires K.Alone(log, s, 0) && part < |log| && C.CommittedOffset(s, part) < |log[part]|
    ensures CanConsume(log, s, t) && K.Alone(log, t, 0)
    ensures t.committed == s.committed[part := C.CommittedOffset(s, part) + 1]
  {
    hide CanConsume;
    var off := C.CommittedOffset(s, part);
    ConsumeNothing(log, s);
    ConsumeStep(log, s, s, C.Poll(0, part));
    var a := C.Apply(log, s, C.Poll(0, part));
    var b := HandleRecord(log, a, part, off);
    ConsumeOnwards(log, s, a, b);
    ConsumeStep(log, s, b, C.CommitOffset(0));
    t := C.Apply(log, b, C.CommitOffset(0));
  }

  lemma {:induction false} ConsumeAll(log: C.Log, s: C.State) returns (t: C.State)
    requires CI.Inv(log, s) && K.Alone(log, s, 0) && K.Backlog(log, s) >= 0
    ensures CanConsume(log, s, t) && K.CaughtUp(log, t)
    decreases K.Backlog(log, s)
  {
    hide CanConsume, K.Alone, K.Backlog, CI.OffsetsOk;
    K.BacklogCounts(log, s);
    if part: nat :| part < |log| && C.CommittedOffset(s, part) != |log[part]| {
      K.OffsetsInLog(log, s);
      var u := ConsumeRecord(log, s, part);
      ConsumeKeepsInv(log, s, u);
      K.BacklogShrinks(log, s, u, part);
      K.BacklogCounts(log, u);
      t := ConsumeAll(log, u);
      ConsumeOnwards(log, s, u, t);
    } else {
      ConsumeNothing(log, s);
      t := s;
    }
  }

  /** From any state the consumers can catch up with the log. */
  lemma CatchUp(log: C.Log, s: C.State) returns (t: C.State)
    requires CI.Inv(log, s)
    ensures CanConsume(log, s, t) && K.CaughtUp(log, t)
  {
    hide CanConsume, CI.OffsetsOk, K.Backlog;
    var a := CrashAll(log, s);
    var b := Join(log, a, |log|);
    ConsumeOnwards(log, s, a, b);
    ConsumeKeepsInv(log, s, b);
    K.BacklogCounts(log, b);
    t := ConsumeAll(log, b);
    ConsumeOnwards(log, s, b, t);
  }

  /******* The whole system *******/

  predicate InPipeline(step: E.Step) {
    !step.Service? && !(step.Publisher? && step.b.Foreign?)
  }

  /** Steps of publishers and consumers only. */
  predicate PipelineOnly(steps: seq<E.Step>) {
    forall k | 0 <= k < |steps| :: InPipeline(steps[k])
  }

  /** The run `start` can go on to `sys` by steps of publishers and consumers. */
  ghost predicate GoesOn(cfg: E.Config, start: seq<E.Step>, sys: E.System) {
    exists more :: PipelineOnly(more) && E.Exec(cfg, start + more) == Some(sys)
  }

  lemma GoOn(cfg: E.Config, start: seq<E.Step>, sys: E.System, step: E.Step)
    requires GoesOn(cfg, start, sys) && E.Enabled(cfg, sys, step) && InPipeline(step)
    ensures GoesOn(cfg, start, E.Apply(cfg, sys, step))
  {
    hide E.Enabled, E.Apply;
    var more :| PipelineOnly(more) && E.Exec(cfg, start + more) == Some(sys);
    var all := start + (more + [step]);
    assert all[..|all| - 1] == start + more && PipelineOnly(more + [step]);
    assert E.Exec(cfg, all) == Some(E.Apply(cfg, sys, step));
  }

  lemma {:induction false} PublishersGoOn(cfg: E.Config, start: seq<E.Step>, sys: E.System, steps: seq<B.Step>, t: B.State)
    requires GoesOn(cfg, start, sys) && OwnSteps(steps) && BT.Leads(cfg.broker, sys.outbox, steps, t)
    ensures GoesOn(cfg, start, sys.(outbox := t))
    decreases |steps|
  {
    hide GoesOn, B.Enabled, B.Apply;
    if steps == [] {
      assert sys.(outbox := t) == sys;
    } else {
      GoOn(cfg, start, sys, E.Publisher(steps[0]));
      var next := E.Apply(cfg, sys, E.Publisher(steps[0]));
      assert next == sys.(outbox := B.Apply(cfg.broker, sys.outbox, steps[0]));
      PublishersGoOn(cfg, start, next, steps[1..], t);
    }
  }

  lemma {:induction false} ConsumersGoOn(cfg: E.Config, start: seq<E.Step>, sys: E.System, steps: seq<C.Step>, t: C.State)
    requires GoesOn(cfg, start, sys) && LeadsTo(sys.outbox.log, sys.delivery, steps, t)
    ensures GoesOn(cfg, start, sys.(delivery := t))
    decreases |steps|
  {
    hide GoesOn, C.Enabled, C.Apply;
    if steps == [] {
      assert sys.(delivery := t) == sys;
    } else {
      GoOn(cfg, start, sys, E.Consumer(steps[0]));
      var next := E.Apply(cfg, sys, E.Consumer(steps[0]));
      assert next == sys.(delivery := C.Apply(sys.outbox.log, sys.delivery, steps[0]));
      ConsumersGoOn(cfg, start, next, steps[1..], t);
    }
  }

  lemma Published(cfg: E.Config, start: seq<E.Step>, sys: E.System) returns (t: B.State)
    requires GoesOn(cfg, start, sys) && BI.Inv(cfg.broker, sys.outbox) && cfg.broker.batchSize > 0
    ensures GoesOn(cfg, start, sys.(outbox := t))
    ensures forall k | 0 <= k < |t.rows| :: t.rows[k].published
  {
    hide GoesOn, BI.Inv;
    var a := AbortAll(cfg.broker, sys.outbox);
    PublishKeepsInv(cfg.broker, sys.outbox, a);
    t := PublishAll(cfg.broker, a);
    PublishOnwards(cfg.broker, sys.outbox, a, t);
    var steps :| OwnSteps(steps) && BT.Leads(cfg.broker, sys.outbox, steps, t);
    PublishersGoOn(cfg, start, sys, steps, t);
  }

  /**
   Every run of the whole system can come to rest without the service doing anything more; then every event
   committed so far has exactly one notification.
   */
  lemma QuiescenceReachable(cfg: E.Config, start: seq<E.Step>) returns (more: seq<E.Step>)
    requires E.Exec(cfg, start).Some? && cfg.broker.batchSize > 0
    ensures PipelineOnly(more) && E.Exec(cfg, start + more).Some? && E.Quiescent(E.Exec(cfg, start + more).value)
    ensures E.Exec(cfg, start + more).value.service == E.Exec(cfg, start).value.service
  {
    hide GoesOn, E.Inv, E.Exec;
    var sys := E.Exec(cfg, start).value;
    E.RunKeepsInv(cfg, start);
    Starts(cfg, start);
    PartsOfInv(cfg, sys);
    var t := Published(cfg, start, sys);
    var mid := sys.(outbox := t);
    GoneOn(cfg, start, mid);
    PartsOfInv(cfg, mid);
    var u := CatchUp(t.log, sys.delivery);
    var steps :| LeadsTo(t.log, sys.delivery, steps, u);
    ConsumersGoOn(cfg, start, mid, steps, u);
    more := Continuation(cfg, start, mid.(delivery := u));
  }

  lemma Starts(cfg: E.Config, start: seq<E.Step>)
    requires E.Exec(cfg, start).Some?
    ensures GoesOn(cfg, start, E.Exec(cfg, start).value)
  {
    hide E.Exec;
    assert start + [] == start && PipelineOnly([]);
  }

  lemma GoneOn(cfg: E.Config, start: seq<E.Step>, sys: E.System)
    requires GoesOn(cfg, start, sys)
    ensures E.Inv(cfg, sys)
  {
    hide E.Exec, E.Inv;
    var more :| PipelineOnly(more) && E.Exec(cfg, start + more) == Some(sys);
    E.RunKeepsInv(cfg, start + more);
  }

  lemma Continuation(cfg: E.Config, start: seq<E.Step>, sys: E.System) returns (more: seq<E.Step>)
    requires GoesOn(cfg, start, sys)
    ensures PipelineOnly(more) && E.Exec(cfg, start + more) == Some(sys)
  {
    more :| PipelineOnly(more) && E.Exec(cfg, start + more) == Some(sys);
  }

  lemma PartsOfInv(cfg: E.Config, sys: E.System)
    requires E.Inv(cfg, sys)
    ensures BI.Inv(cfg.broker, sys.outbox) && CI.Inv(sys.outbox.log, sys.delivery)
  {
  }
}
