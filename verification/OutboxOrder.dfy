/**
 The order in which the events of one order reach the log when one publisher runs at a time: first copies
 follow `created_at`, except after a failed Publish call in a batch of several rows.
 */
module OutboxOrder {
  import opened Types
  import opened Messages
  import opened OutboxMachine
  import opened OutboxInvariants

  /** Row `i` committed before row `j` and was created earlier, for the same order. */
  predicate Before(s: State, i: nat, j: nat) {
    && i < j < |s.rows|
    && s.rows[i].event.partitionKey == s.rows[j].event.partitionKey
    && CreatedAt(s, i) < CreatedAt(s, j)
  }

  /** Only a batch of several rows can go on to the next row after a failed call. */
  predicate Skippable(cfg: Config, s: State, i: nat)
    requires i < |s.audit|
  {
    cfg.batchSize > 1 && s.audit[i].failed
  }

  predicate Ahead(cfg: Config, s: State, i: nat)
    requires Sized(cfg, s) && i < |s.rows|
  {
    Skippable(cfg, s, i) || Copies(cfg, s, i) > 0
  }

  /** At position `k` of the records of its partition, row `i` has a copy further up or was skipped. */
  predicate CopyBefore(cfg: Config, s: State, i: nat, records: seq<Record>, k: nat)
    requires i < |s.rows| && i < |s.audit| && k <= |records|
  {
    Skippable(cfg, s, i) || Message(s.rows[i].event) in records[..k]
  }

  function RecordsOf(cfg: Config, s: State, i: nat): seq<Record>
    requires Sized(cfg, s) && i < |s.rows|
  {
    s.log[PartitionOfRow(cfg, s, i)]
  }

  ghost predicate TriedInOrder(cfg: Config, s: State)
    requires Sized(cfg, s)
  {
    forall i: nat, j: nat | Before(s, i, j) && s.audit[j].tried > 0 :: Ahead(cfg, s, i)
  }

  ghost predicate LoggedInOrder(cfg: Config, s: State)
    requires Sized(cfg, s)
  {
    forall i: nat, j: nat, k: nat | Before(s, i, j) && k < |RecordsOf(cfg, s, j)|
                                    && RecordsOf(cfg, s, j)[k] == Message(s.rows[j].event) ::
      CopyBefore(cfg, s, i, RecordsOf(cfg, s, j), k)
  }

  /** A batch holds every unpublished row created before one of its rows, further up. */
  ghost predicate BatchInOrder(s: State, tx: Tx) {
    forall i: nat, l: nat | l < |tx.batch| && Before(s, i, tx.batch[l]) && !s.rows[i].published :: i in tx.batch[..l]
  }

  /** What the calls made so far in this batch have achieved. */
  ghost predicate MarksAhead(cfg: Config, s: State, tx: Tx)
    requires Sized(cfg, s)
  {
    && |tx.batch| <= cfg.batchSize
    && (cfg.batchSize > 1 ==> forall i | i in tx.marks && i < |s.rows| :: Ahead(cfg, s, i))
    && (tx.send.Errored? && tx.done < |tx.batch| && tx.batch[tx.done] < |s.audit| ==> s.audit[tx.batch[tx.done]].failed)
  }

  ghost predicate SoloOk(cfg: Config, s: State)
    requires Sized(cfg, s)
  {
    forall p | p in s.open ::
      s.open.Keys == {p} && BatchInOrder(s, s.open[p]) && MarksAhead(cfg, s, s.open[p])
  }

  ghost predicate OrderInv(cfg: Config, s: State) {
    Inv(cfg, s) && TriedInOrder(cfg, s) && LoggedInOrder(cfg, s) && SoloOk(cfg, s)
  }

  /** A claim is only made while no publisher transaction is open. */
  predicate Solo(s: State, step: Step) {
    step.Claim? ==> s.open == map[]
  }

  lemma AheadStays(cfg: Config, s: State, step: Step, i: nat)
    requires Sized(cfg, s) && IdsOk(s) && Enabled(cfg, s, step) && i < |s.rows| && Ahead(cfg, s, i)
    ensures Sized(cfg, Apply(cfg, s, step)) && i < |Apply(cfg, s, step).rows| && Ahead(cfg, Apply(cfg, s, step), i)
  {
    KeepsSized(cfg, s, step);
    CopiesAfter(cfg, s, step, i);
  }

  lemma BeforeStays(cfg: Config, s: State, step: Step, i: nat, j: nat)
    requires Enabled(cfg, s, step)
    ensures j < |s.rows| ==> (Before(Apply(cfg, s, step), i, j) <==> Before(s, i, j))
  {
    RowsStay(cfg, s, step);
  }

  /** When the publisher turns to row `j`, every row before it is in the log or was skipped. */
  lemma CurrentRowInOrder(cfg: Config, s: State, p: nat, i: nat)
    requires OrderInv(cfg, s) && p in s.open && Current(s, p) && Before(s, i, Now(s, p))
    ensures Ahead(cfg, s, i)
  {
    var tx := s.open[p];
    assert TxOk(s, tx);
    if !s.rows[i].published {
      assert i in tx.batch[..tx.done];
    }
  }

  lemma KeepsTried(cfg: Config, s: State, step: Step)
    requires OrderInv(cfg, s) && Enabled(cfg, s, step)
    ensures Sized(cfg, Apply(cfg, s, step)) && TriedInOrder(cfg, Apply(cfg, s, step))
  {
    var s' := Apply(cfg, s, step);
    KeepsSized(cfg, s, step);
    forall i: nat, j: nat | Before(s', i, j) && s'.audit[j].tried > 0
      ensures Ahead(cfg, s', i)
    {
      BeforeStays(cfg, s, step, i, j);
      if s.audit[j].tried == 0 {
        CurrentRowInOrder(cfg, s, step.p, i);
      }
      AheadStays(cfg, s, step, i);
    }
  }

  /** A record is only appended for a row that was tried. */
  lemma AppendedWasTried(cfg: Config, s: State, step: Step)
    requires Inv(cfg, s) && Enabled(cfg, s, step) && AppendedRow(s, step).Some?
    ensures AppendedRow(s, step).value < |s.rows| && s.audit[AppendedRow(s, step).value].tried > 0
  {
    var j := AppendedRow(s, step).value;
    assert CopiesAt(cfg, s, j);
    if step.Deliver? {
      assert QueuedIn(s.open[step.p], j);
    }
  }

  /** A new record of row `j` was appended for row `j`. */
  lemma NewRecordIsRow(cfg: Config, s: State, step: Step, j: nat)
    requires IdsOk(s) && j < |s.rows| && NewRecord(s, step) == Some(Message(s.rows[j].event))
    requires step.Foreign? ==> Decode(step.record.value).Discarded?
    ensures AppendedRow(s, step) == Some(j)
  {
    hide Decode, Message;
    ConsumerAcceptsPublisher(s.rows[j].event);
    var l := AppendedRow(s, step).value;
    MessageInjective(s.rows[l].event, s.rows[j].event);
  }

  lemma NewRecordInOrder(cfg: Config, s: State, step: Step, i: nat, j: nat, k: nat)
    requires OrderInv(cfg, s) && Enabled(cfg, s, step) && Before(s, i, j) && Sized(cfg, Apply(cfg, s, step))
    requires j < |Apply(cfg, s, step).rows|
    requires |RecordsOf(cfg, s, j)| <= k < |RecordsOf(cfg, Apply(cfg, s, step), j)|
    requires RecordsOf(cfg, Apply(cfg, s, step), j)[k] == Message(s.rows[j].event)
    ensures CopyBefore(cfg, Apply(cfg, s, step), i, RecordsOf(cfg, Apply(cfg, s, step), j), k)
  {
    hide Enabled, Apply, Message, Decode, AppendedRow, NewRecord;
    var s' := Apply(cfg, s, step);
    RowsStay(cfg, s, step);
    LogStep(cfg, s, step, PartitionOfRow(cfg, s, j));
    NewRecordIsRow(cfg, s, step, j);
    AppendedWasTried(cfg, s, step);
    assert Ahead(cfg, s, i);
    assert RecordsOf(cfg, s', j)[..k] == RecordsOf(cfg, s, j);
    FailedStays(cfg, s, step, i);
    if Copies(cfg, s, i) > 0 {
      assert Message(s.rows[i].event) in multiset(RecordsOf(cfg, s, j));
    }
  }

  lemma NewRowNotLogged(cfg: Config, s: State, step: Step, k: nat)
    requires Inv(cfg, s) && Enabled(cfg, s, step) && step.Insert?
    ensures var records := s.log[PartitionOf(cfg, step.event.partitionKey)];
      k < |records| ==> records[k] != Message(step.event)
  {
    NewRowHasNoCopies(cfg, s, step.event);
    var records := s.log[PartitionOf(cfg, step.event.partitionKey)];
    if k < |records| {
      assert records[k] in multiset(records);
    }
  }

  lemma FailedStays(cfg: Config, s: State, step: Step, i: nat)
    requires Enabled(cfg, s, step) && i < |s.audit|
    ensures i < |Apply(cfg, s, step).audit|
    ensures s.audit[i].failed ==> Apply(cfg, s, step).audit[i].failed
  {
  }

  lemma OldRecordInOrder(cfg: Config, s: State, step: Step, i: nat, j: nat, k: nat)
    requires Sized(cfg, s) && LoggedInOrder(cfg, s) && Enabled(cfg, s, step) && Before(s, i, j)
    requires Sized(cfg, Apply(cfg, s, step)) && j < |Apply(cfg, s, step).rows|
    requires k < |RecordsOf(cfg, s, j)| && RecordsOf(cfg, s, j)[k] == Message(s.rows[j].event)
    requires PartitionOfRow(cfg, Apply(cfg, s, step), j) == PartitionOfRow(cfg, s, j)
    requires RecordsOf(cfg, s, j) <= RecordsOf(cfg, Apply(cfg, s, step), j)
    ensures CopyBefore(cfg, Apply(cfg, s, step), i, RecordsOf(cfg, Apply(cfg, s, step), j), k)
  {
    hide Enabled, Apply, Message;
    FailedStays(cfg, s, step, i);
    assert CopyBefore(cfg, s, i, RecordsOf(cfg, s, j), k);
    assert RecordsOf(cfg, Apply(cfg, s, step), j)[..k] == RecordsOf(cfg, s, j)[..k];
    RowsStay(cfg, s, step);
  }

  lemma RecordInOrder(cfg: Config, s: State, step: Step, i: nat, j: nat, k: nat)
    requires OrderInv(cfg, s) && Enabled(cfg, s, step) && Before(s, i, j) && Sized(cfg, Apply(cfg, s, step))
    requires j < |Apply(cfg, s, step).rows| && k < |RecordsOf(cfg, Apply(cfg, s, step), j)|
    requires RecordsOf(cfg, Apply(cfg, s, step), j)[k] == Message(s.rows[j].event)
    ensures CopyBefore(cfg, Apply(cfg, s, step), i, RecordsOf(cfg, Apply(cfg, s, step), j), k)
  {
    hide Enabled, Apply, CopyBefore;
    if k < |RecordsOf(cfg, s, j)| {
      RowsStay(cfg, s, step);
      LogGrows(cfg, s, step);
      OldRecordInOrder(cfg, s, step, i, j, k);
    } else {
      NewRecordInOrder(cfg, s, step, i, j, k);
    }
  }

  lemma KeepsLogged(cfg: Config, s: State, step: Step)
    requires OrderInv(cfg, s) && Enabled(cfg, s, step)
    ensures Sized(cfg, Apply(cfg, s, step)) && LoggedInOrder(cfg, Apply(cfg, s, step))
  {
    var s' := Apply(cfg, s, step);
    KeepsSized(cfg, s, step);
    forall i: nat, j: nat, k: nat | Before(s', i, j) && k < |RecordsOf(cfg, s', j)|
                                    && RecordsOf(cfg, s', j)[k] == Message(s'.rows[j].event)
      ensures CopyBefore(cfg, s', i, RecordsOf(cfg, s', j), k)
    {
      if j < |s.rows| {
        RowsStay(cfg, s, step);
        BeforeStays(cfg, s, step, i, j);
        RecordInOrder(cfg, s, step, i, j, k);
      } else {
        NewRowNotLogged(cfg, s, step, k);
      }
    }
  }

  /** With no transaction open a claim takes the oldest rows, so it skips nothing. */
  lemma ClaimInOrder(cfg: Config, s: State, step: Step)
    requires Enabled(cfg, s, step) && step.Claim? && s.open == map[]
    ensures BatchInOrder(Apply(cfg, s, step), Apply(cfg, s, step).open[step.p])
  {
    var batch := step.batch;
    forall i: nat, l: nat | l < |batch| && Before(s, i, batch[l]) && !s.rows[i].published
      ensures i in batch[..l]
    {
      assert Available(s, i);
      assert i in batch;
      var m :| 0 <= m < |batch| && batch[m] == i;
      assert m < l;
    }
  }

  lemma BatchStays(cfg: Config, s: State, step: Step, p: nat)
    requires Enabled(cfg, s, step) && !step.Claim? && p in s.open && TxOk(s, s.open[p])
    requires BatchInOrder(s, s.open[p]) && p in Apply(cfg, s, step).open
    ensures BatchInOrder(Apply(cfg, s, step), Apply(cfg, s, step).open[p])
  {
    var s' := Apply(cfg, s, step);
    var batch := s.open[p].batch;
    assert s'.open[p].batch == batch;
    forall i: nat, l: nat | l < |batch| && Before(s', i, batch[l]) && !s'.rows[i].published
      ensures i in batch[..l]
    {
      BeforeStays(cfg, s, step, i, batch[l]);
      RowsStay(cfg, s, step);
    }
  }

  lemma KeepsBatch(cfg: Config, s: State, step: Step, p: nat)
    requires Inv(cfg, s) && SoloOk(cfg, s) && Enabled(cfg, s, step) && Solo(s, step)
    requires p in Apply(cfg, s, step).open
    ensures BatchInOrder(Apply(cfg, s, step), Apply(cfg, s, step).open[p])
  {
    if step.Claim? {
      ClaimInOrder(cfg, s, step);
    } else {
      BatchStays(cfg, s, step, p);
    }
  }

  lemma KeepsAlone(cfg: Config, s: State, step: Step, p: nat)
    requires Sized(cfg, s) && SoloOk(cfg, s) && Enabled(cfg, s, step) && Solo(s, step)
    requires p in Apply(cfg, s, step).open
    ensures Apply(cfg, s, step).open.Keys == {p}
  {
    if !step.Claim? {
      assert p in s.open;
    }
  }

  /** A row that is or is being marked has a copy in the log or a failed call. */
  lemma MarkedAhead(cfg: Config, s: State, step: Step, p: nat, i: nat)
    requires Inv(cfg, s) && SoloOk(cfg, s) && Enabled(cfg, s, step) && cfg.batchSize > 1
    requires p in Apply(cfg, s, step).open && i in Apply(cfg, s, step).open[p].marks
    ensures i < |s.rows| && Ahead(cfg, s, i)
  {
    assert p in s.open && TxOk(s, s.open[p]);
    assert i in s.open[p].marks || SaysPublished(s.open[p], i) || s.audit[i].failed;
  }

  lemma KeepsBatchSize(cfg: Config, s: State, step: Step, p: nat)
    requires Sized(cfg, s) && SoloOk(cfg, s) && Enabled(cfg, s, step) && p in Apply(cfg, s, step).open
    ensures |Apply(cfg, s, step).open[p].batch| <= cfg.batchSize
  {
    hide Ahead, BatchInOrder;
    if p in s.open {
      assert MarksAhead(cfg, s, s.open[p]);
    }
  }

  /** An error goes back to a failed call. */
  ghost predicate ErrorFailed(s: State, tx: Tx) {
    tx.send.Errored? && tx.done < |tx.batch| && tx.batch[tx.done] < |s.audit| ==> s.audit[tx.batch[tx.done]].failed
  }

  lemma OwnErrorFailed(cfg: Config, s: State, step: Step)
    requires Holds(step) && step.p in s.open && Enabled(cfg, s, step) && ErrorFailed(s, s.open[step.p])
    requires step.p in Apply(cfg, s, step).open
    ensures ErrorFailed(Apply(cfg, s, step), Apply(cfg, s, step).open[step.p])
  {
  }

  lemma KeepsErrored(cfg: Config, s: State, step: Step, p: nat)
    requires Sized(cfg, s) && OpenOk(s) && SoloOk(cfg, s) && Enabled(cfg, s, step)
    requires p in Apply(cfg, s, step).open
    ensures ErrorFailed(Apply(cfg, s, step), Apply(cfg, s, step).open[p])
  {
    if p in s.open {
      assert MarksAhead(cfg, s, s.open[p]) && TxOk(s, s.open[p]);
      if Holds(step) && step.p == p {
        OwnErrorFailed(cfg, s, step);
      } else {
        hide IsClaim, BatchInOrder, Ahead, Sized;
        var tx := s.open[p];
        assert Apply(cfg, s, step).open[p] == tx;
        if tx.done < |tx.batch| && tx.batch[tx.done] < |s.audit| {
          FailedStays(cfg, s, step, tx.batch[tx.done]);
        }
      }
    }
  }

  lemma KeepsMarks(cfg: Config, s: State, step: Step, p: nat)
    requires Inv(cfg, s) && SoloOk(cfg, s) && Enabled(cfg, s, step)
    requires p in Apply(cfg, s, step).open
    ensures Sized(cfg, Apply(cfg, s, step)) && MarksAhead(cfg, Apply(cfg, s, step), Apply(cfg, s, step).open[p])
  {
    hide Enabled, Apply, Ahead;
    var s' := Apply(cfg, s, step);
    KeepsSized(cfg, s, step);
    KeepsBatchSize(cfg, s, step, p);
    KeepsErrored(cfg, s, step, p);
    forall i | i in s'.open[p].marks && i < |s'.rows| && cfg.batchSize > 1
      ensures Ahead(cfg, s', i)
    {
      MarkedAhead(cfg, s, step, p, i);
      AheadStays(cfg, s, step, i);
    }
  }

  lemma StepKeepsOrder(cfg: Config, s: State, step: Step)
    requires OrderInv(cfg, s) && Enabled(cfg, s, step) && Solo(s, step)
    ensures OrderInv(cfg, Apply(cfg, s, step))
  {
    StepKeepsInv(cfg, s, step);
    KeepsTried(cfg, s, step);
    KeepsLogged(cfg, s, step);
    forall p | p in Apply(cfg, s, step).open
      ensures Apply(cfg, s, step).open.Keys == {p}
      ensures BatchInOrder(Apply(cfg, s, step), Apply(cfg, s, step).open[p])
      ensures MarksAhead(cfg, Apply(cfg, s, step), Apply(cfg, s, step).open[p])
    {
      KeepsAlone(cfg, s, step, p);
      KeepsBatch(cfg, s, step, p);
      KeepsMarks(cfg, s, step, p);
    }
  }

  ghost predicate SoloRun(cfg: Config, steps: seq<Step>) {
    steps != [] ==>
      var init := steps[..|steps| - 1];
      SoloRun(cfg, init) && Exec(cfg, init).Some? && Solo(Exec(cfg, init).value, steps[|steps| - 1])
  }

  lemma {:induction false} RunKeepsOrder(cfg: Config, steps: seq<Step>)
    requires Exec(cfg, steps).Some? && SoloRun(cfg, steps)
    ensures OrderInv(cfg, Exec(cfg, steps).value)
  {
    if steps == [] {
      RunKeepsInv(cfg, steps);
    } else {
      var init := steps[..|steps| - 1];
      RunKeepsOrder(cfg, init);
      StepKeepsOrder(cfg, Exec(cfg, init).value, steps[|steps| - 1]);
    }
  }

  ghost predicate NothingFailed(s: State) {
    forall a | a in s.audit :: !a.failed
  }

  /** One publisher: an event with a later `created_at` overtakes an earlier one only after a failed Publish call for it. */
  lemma OvertakenOnlyAfterFailure(cfg: Config, steps: seq<Step>, i: nat, j: nat, k: nat)
    requires Exec(cfg, steps).Some? && SoloRun(cfg, steps) && Sized(cfg, Exec(cfg, steps).value)
    requires Before(Exec(cfg, steps).value, i, j) && k < |RecordsOf(cfg, Exec(cfg, steps).value, j)|
    requires
      var s := Exec(cfg, steps).value;
      RecordsOf(cfg, s, j)[k] == Message(s.rows[j].event)
      && Message(s.rows[i].event) !in RecordsOf(cfg, s, j)[..k]
    ensures cfg.batchSize > 1 && Exec(cfg, steps).value.audit[i].failed
  {
    RunKeepsOrder(cfg, steps);
    assert CopyBefore(cfg, Exec(cfg, steps).value, i, RecordsOf(cfg, Exec(cfg, steps).value, j), k);
  }
}
