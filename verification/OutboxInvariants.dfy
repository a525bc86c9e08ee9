/** What every interleaving of publishers keeps between the outbox table and the log. */
module OutboxInvariants {
  import opened Types
  import opened Messages
  import opened OutboxMachine

  /******* The log *******/

  function PartitionOfRow(cfg: Config, s: State, i: nat): nat
    requires i < |s.rows|
  {
    PartitionOf(cfg, s.rows[i].event.partitionKey)
  }

  /** How often the record of row `i` is in the log, under its own key. */
  function Copies(cfg: Config, s: State, i: nat): nat
    requires i < |s.rows| && |s.log| == cfg.partitions
  {
    multiset(s.log[PartitionOfRow(cfg, s, i)])[Message(s.rows[i].event)]
  }

  ghost predicate Sized(cfg: Config, s: State) {
    && |s.log| == cfg.partitions && |s.audit| == |s.rows|
    && (forall i | i in s.orphans :: i < |s.rows|)
  }

  ghost predicate IdsOk(s: State) {
    forall i, j | 0 <= i < j < |s.rows| :: s.rows[i].event.id != s.rows[j].event.id
  }

  /** A record of partition `part` is one the consumer discards, or the message of a row routed there. */
  ghost predicate FromRow(cfg: Config, s: State, part: nat, r: Record) {
    exists i :: IsRow(cfg, s, part, r, i)
  }

  predicate IsRow(cfg: Config, s: State, part: nat, r: Record, i: nat) {
    i < |s.rows| && r == Message(s.rows[i].event) && PartitionOfRow(cfg, s, i) == part
  }

  ghost predicate LogOk(cfg: Config, s: State) {
    forall part, k | 0 <= part < |s.log| && 0 <= k < |s.log[part]| ::
      Decode(s.log[part][k].value).Discarded? || FromRow(cfg, s, part, s.log[part][k])
  }

  /******* Open transactions *******/

  ghost predicate TxOk(s: State, tx: Tx) {
    && tx.done <= |tx.batch|
    && (forall k | 0 <= k < |tx.batch| :: tx.batch[k] < |s.rows| && !s.rows[tx.batch[k]].published)
    && (forall k, l | 0 <= k < l < |tx.batch| :: tx.batch[k] != tx.batch[l])
    && (forall i :: i in tx.marks <==> i in tx.batch[..tx.done])
    && (!tx.send.Idle? ==> tx.done < |tx.batch|)
  }

  ghost predicate Disjoint(s: State) {
    forall p, q, i | p in s.open && q in s.open && i in s.open[p].batch && i in s.open[q].batch :: p == q
  }

  ghost predicate OpenOk(s: State) {
    (forall p | p in s.open :: TxOk(s, s.open[p])) && Disjoint(s)
  }

  /******* Accounting *******/

  ghost predicate Trying(s: State, i: nat) {
    exists p :: p in s.open && i in Tried(s.open[p])
  }

  predicate QueuedIn(tx: Tx, i: nat) {
    tx.send.Queued? && tx.done < |tx.batch| && tx.batch[tx.done] == i
  }

  ghost predicate InFlight(s: State, i: nat) {
    exists p :: p in s.open && QueuedIn(s.open[p], i)
  }

  ghost function One(b: bool): nat {
    if b then 1 else 0
  }

  /** Every Publish call is an attempt, the one that published, rolled back, or in an open transaction. */
  ghost predicate CallsOk(s: State)
    requires |s.audit| == |s.rows|
  {
    forall i | 0 <= i < |s.rows| :: CallsAt(s, i)
  }

  ghost predicate CallsAt(s: State, i: nat)
    requires i < |s.rows| && i < |s.audit|
  {
    s.audit[i].tried == s.rows[i].attempt + One(s.rows[i].published) + s.audit[i].rolledBack + One(Trying(s, i))
  }

  /** Each call puts at most one record into the log, now or later. */
  ghost predicate CopiesOk(cfg: Config, s: State)
    requires Sized(cfg, s)
  {
    forall i | 0 <= i < |s.rows| :: CopiesAt(cfg, s, i)
  }

  ghost predicate CopiesAt(cfg: Config, s: State, i: nat)
    requires Sized(cfg, s) && i < |s.rows|
  {
    Copies(cfg, s, i) + s.orphans[i] + One(InFlight(s, i)) <= s.audit[i].tried
  }

  /** The row is in the log whenever something says it was published. */
  ghost predicate PublishedOk(cfg: Config, s: State)
    requires Sized(cfg, s)
  {
    && (forall i | 0 <= i < |s.rows| && s.rows[i].published :: Copies(cfg, s, i) > 0)
    && (forall p, i | p in s.open && 0 <= i < |s.rows| && SaysPublished(s.open[p], i) :: Copies(cfg, s, i) > 0)
  }

  predicate SaysPublished(tx: Tx, i: nat) {
    || (i in tx.marks && tx.marks[i].MarkPublished?)
    || ((tx.send.Delivered? || tx.send.Acked?) && tx.done < |tx.batch| && tx.batch[tx.done] == i)
  }

  ghost predicate Inv(cfg: Config, s: State) {
    && Sized(cfg, s) && IdsOk(s) && LogOk(cfg, s) && OpenOk(s)
    && CallsOk(s) && CopiesOk(cfg, s) && PublishedOk(cfg, s)
  }

  lemma SizeOfInv(cfg: Config, s: State)
    requires Inv(cfg, s)
    ensures Sized(cfg, s)
  {
  }

  /******* Preservation: tables and transactions *******/

  lemma KeepsSized(cfg: Config, s: State, step: Step)
    requires Sized(cfg, s) && Enabled(cfg, s, step)
    ensures Sized(cfg, Apply(cfg, s, step))
  {
  }

  /** Rows only ever gain: events stay what they are, and published rows stay published. */
  lemma RowsStay(cfg: Config, s: State, step: Step)
    requires Enabled(cfg, s, step)
    ensures var s' := Apply(cfg, s, step);
      && |s.rows| <= |s'.rows|
      && (forall i | 0 <= i < |s.rows| ::
            s'.rows[i].event == s.rows[i].event && (s.rows[i].published ==> s'.rows[i].published))
  {
  }

  /** Only an insert adds a row, and its event id is new. */
  lemma RowsAdded(cfg: Config, s: State, step: Step)
    requires Enabled(cfg, s, step)
    ensures var s' := Apply(cfg, s, step);
      if step.Insert? then
        && |s'.rows| == |s.rows| + 1 && s'.rows[|s.rows|].event == step.event
        && forall i | 0 <= i < |s.rows| :: s.rows[i].event.id != step.event.id
      else |s'.rows| == |s.rows|
  {
    if step.Insert? {
      forall i | 0 <= i < |s.rows|
        ensures s.rows[i].event.id != step.event.id
      {
        assert s.rows[i] in s.rows;
      }
    }
  }

  lemma KeepsIds(cfg: Config, s: State, step: Step)
    requires IdsOk(s) && Enabled(cfg, s, step)
    ensures IdsOk(Apply(cfg, s, step))
  {
    hide Enabled, Apply;
    RowsStay(cfg, s, step);
    RowsAdded(cfg, s, step);
  }

  lemma LogGrows(cfg: Config, s: State, step: Step)
    requires Enabled(cfg, s, step)
    ensures var s' := Apply(cfg, s, step);
      |s'.log| == |s.log| && forall part | 0 <= part < |s.log| :: s.log[part] <= s'.log[part]
  {
  }

  lemma KeepsLog(cfg: Config, s: State, step: Step)
    requires LogOk(cfg, s) && Enabled(cfg, s, step)
    ensures LogOk(cfg, Apply(cfg, s, step))
  {
    var s' := Apply(cfg, s, step);
    RowsStay(cfg, s, step);
    forall part, k | 0 <= part < |s'.log| && 0 <= k < |s'.log[part]|
      ensures Decode(s'.log[part][k].value).Discarded? || FromRow(cfg, s', part, s'.log[part][k])
    {
      var r := s'.log[part][k];
      if k < |s.log[part]| {
        assert r == s.log[part][k] by {
          LogGrows(cfg, s, step);
        }
        if !Decode(r.value).Discarded? {
          var i: nat :| IsRow(cfg, s, part, r, i);
          assert IsRow(cfg, s', part, r, i);
        }
      } else if !step.Foreign? {
        var i := if step.DeliverLate? then step.row else Now(s, step.p);
        assert IsRow(cfg, s', part, r, i);
      }
    }
  }

  /** A publisher's own step keeps its transaction in shape. */
  lemma KeepsOwnTx(cfg: Config, s: State, step: Step)
    requires Holds(step) && step.p in s.open && TxOk(s, s.open[step.p]) && Enabled(cfg, s, step)
    requires step.p in Apply(cfg, s, step).open
    ensures TxOk(Apply(cfg, s, step), Apply(cfg, s, step).open[step.p])
  {
    if step.Mark? {
      var tx := s.open[step.p];
      assert tx.batch[..tx.done + 1] == tx.batch[..tx.done] + [tx.batch[tx.done]];
    }
  }

  /** A step of anyone else changes neither the transaction nor the rows it holds. */
  lemma KeepsOtherTx(cfg: Config, s: State, step: Step, p: nat)
    requires OpenOk(s) && p in s.open && Enabled(cfg, s, step) && (Holds(step) ==> step.p != p)
    requires p in Apply(cfg, s, step).open
    ensures TxOk(Apply(cfg, s, step), Apply(cfg, s, step).open[p])
  {
    var s' := Apply(cfg, s, step);
    RowsStay(cfg, s, step);
    assert s'.open[p] == s.open[p] && TxOk(s, s.open[p]);
    if step.Commit? {
      forall k | 0 <= k < |s.open[p].batch|
        ensures s'.rows[s.open[p].batch[k]] == s.rows[s.open[p].batch[k]]
      {
        var i := s.open[p].batch[k];
        assert i !in s.open[step.p].batch;
      }
    }
  }

  lemma KeepsTx(cfg: Config, s: State, step: Step, p: nat)
    requires OpenOk(s) && Enabled(cfg, s, step) && p in Apply(cfg, s, step).open
    ensures TxOk(Apply(cfg, s, step), Apply(cfg, s, step).open[p])
  {
    if p in s.open {
      if Holds(step) && step.p == p {
        KeepsOwnTx(cfg, s, step);
      } else {
        KeepsOtherTx(cfg, s, step, p);
      }
    }
  }

  lemma KeepsDisjoint(cfg: Config, s: State, step: Step)
    requires OpenOk(s) && Enabled(cfg, s, step)
    ensures Disjoint(Apply(cfg, s, step))
  {
    if step.Claim? {
      forall q, i | q in s.open && i in s.open[q].batch
        ensures i !in step.batch
      {
        if i in step.batch {
          assert Available(s, i);
          assert Locked(s, i);
        }
      }
    }
  }

  lemma KeepsOpen(cfg: Config, s: State, step: Step)
    requires OpenOk(s) && Enabled(cfg, s, step)
    ensures OpenOk(Apply(cfg, s, step))
  {
    KeepsDisjoint(cfg, s, step);
    forall p | p in Apply(cfg, s, step).open
      ensures TxOk(Apply(cfg, s, step), Apply(cfg, s, step).open[p])
    {
      KeepsTx(cfg, s, step, p);
    }
  }

  /******* Preservation: accounting *******/

  /** A claimed row is tried, or in flight, exactly if its holder says so. */
  lemma HolderDecides(s: State, p: nat, i: nat)
    requires OpenOk(s) && p in s.open && i in s.open[p].batch
    ensures Trying(s, i) <==> i in Tried(s.open[p])
    ensures InFlight(s, i) <==> QueuedIn(s.open[p], i)
  {
    forall q | q in s.open && (i in Tried(s.open[q]) || QueuedIn(s.open[q], i))
      ensures q == p
    {
      assert TxOk(s, s.open[q]);
      assert i in s.open[q].batch;
    }
  }

  /** Row `i` is not in the batch that the step works on. */
  predicate Elsewhere(s: State, step: Step, i: nat) {
    Holds(step) ==> step.p in s.open && i !in s.open[step.p].batch
  }

  lemma OutsideBatch(s: State, tx: Tx, i: nat)
    requires TxOk(s, tx) && i !in tx.batch
    ensures i !in Tried(tx) && !QueuedIn(tx, i)
  {
  }

  /** A step leaves the other transactions alone. */
  lemma OthersStay(cfg: Config, s: State, step: Step, q: nat)
    requires Enabled(cfg, s, step)
    requires step.Insert? || step.DeliverLate? || step.DropLate? || step.Foreign? || q != step.p
    ensures q in s.open <==> q in Apply(cfg, s, step).open
    ensures q in s.open ==> Apply(cfg, s, step).open[q] == s.open[q]
  {
  }

  lemma OwnBatch(cfg: Config, s: State, step: Step)
    requires Enabled(cfg, s, step) && Holds(step) && step.p in Apply(cfg, s, step).open
    ensures Apply(cfg, s, step).open[step.p].batch == s.open[step.p].batch
  {
  }

  /** The step works on the current batch of its publisher. */
  predicate Holds(step: Step) {
    step.Produce? || step.Refuse? || step.Deliver? || step.Ack? || step.Report? || step.Mark? || step.Commit? || step.Abort?
  }

  lemma ElsewhereAt(cfg: Config, s: State, step: Step, i: nat, q: nat)
    requires Enabled(cfg, s, step) && OpenOk(s) && OpenOk(Apply(cfg, s, step)) && Elsewhere(s, step, i)
    ensures var s' := Apply(cfg, s, step);
      && (q in s.open && i in Tried(s.open[q]) <==> q in s'.open && i in Tried(s'.open[q]))
      && (q in s.open && QueuedIn(s.open[q], i) <==> q in s'.open && QueuedIn(s'.open[q], i))
  {
    var s' := Apply(cfg, s, step);
    if Holds(step) && q == step.p {
      OutsideBatch(s, s.open[q], i);
      if q in s'.open {
        OwnBatch(cfg, s, step);
        OutsideBatch(s', s'.open[q], i);
      }
    } else if !(step.Claim? && q == step.p) {
      OthersStay(cfg, s, step, q);
    }
  }

  lemma ElsewhereStays(cfg: Config, s: State, step: Step, i: nat)
    requires OpenOk(s) && Enabled(cfg, s, step) && Elsewhere(s, step, i)
    ensures Trying(s, i) <==> Trying(Apply(cfg, s, step), i)
    ensures InFlight(s, i) <==> InFlight(Apply(cfg, s, step), i)
  {
    KeepsOpen(cfg, s, step);
    forall q: nat {
      ElsewhereAt(cfg, s, step, i, q);
    }
  }

  /** When a transaction ends, nobody holds its rows. */
  lemma ReleasedRows(cfg: Config, s: State, step: Step, i: nat)
    requires OpenOk(s) && Enabled(cfg, s, step) && (step.Commit? || step.Abort?) && i in s.open[step.p].batch
    ensures !Trying(Apply(cfg, s, step), i) && !InFlight(Apply(cfg, s, step), i)
  {
    var s' := Apply(cfg, s, step);
    forall q | q in s'.open
      ensures i !in Tried(s'.open[q]) && !QueuedIn(s'.open[q], i)
    {
      assert TxOk(s, s.open[q]) && i !in s.open[q].batch;
    }
  }

  lemma ElsewhereRow(cfg: Config, s: State, step: Step, i: nat)
    requires Sized(cfg, s) && OpenOk(s) && Enabled(cfg, s, step) && Elsewhere(s, step, i) && i < |s.rows|
    ensures var s' := Apply(cfg, s, step);
      i < |s'.audit| && i < |s'.rows| && s'.rows[i] == s.rows[i] && s'.audit[i] == s.audit[i]
  {
    if step.Commit? || step.Abort? {
      assert TxOk(s, s.open[step.p]);
    }
  }

  lemma NewRowUntouched(s: State, i: nat)
    requires OpenOk(s) && i >= |s.rows|
    ensures !Trying(s, i) && !InFlight(s, i)
  {
    forall q | q in s.open
      ensures i !in s.open[q].batch && i !in Tried(s.open[q]) && !QueuedIn(s.open[q], i)
    {
      assert TxOk(s, s.open[q]);
    }
  }

  /** The step's own arithmetic on a row of the batch it works on. */
  lemma HeldRow(cfg: Config, s: State, step: Step, i: nat)
    requires Sized(cfg, s) && Enabled(cfg, s, step) && Holds(step) && step.p in s.open
    requires TxOk(s, s.open[step.p]) && i in s.open[step.p].batch
    ensures var s' := Apply(cfg, s, step); i < |s.rows| && i < |s'.rows| && i < |s'.audit|
    ensures var s' := Apply(cfg, s, step);
      var later := step.p in s'.open && i in Tried(s'.open[step.p]);
      s'.audit[i].tried - s.audit[i].tried
        == s'.rows[i].attempt - s.rows[i].attempt + One(s'.rows[i].published) - One(s.rows[i].published)
           + s'.audit[i].rolledBack - s.audit[i].rolledBack + One(later) - One(i in Tried(s.open[step.p]))
  {
  }

  lemma HeldCalls(cfg: Config, s: State, step: Step, i: nat)
    requires Sized(cfg, s) && OpenOk(s) && Enabled(cfg, s, step) && !Elsewhere(s, step, i)
    requires i < |s.rows| && CallsAt(s, i)
    ensures i < |Apply(cfg, s, step).audit| && i < |Apply(cfg, s, step).rows| && CallsAt(Apply(cfg, s, step), i)
  {
    HolderDecides(s, step.p, i);
    HeldRow(cfg, s, step, i);
    if step.Commit? || step.Abort? {
      ReleasedRows(cfg, s, step, i);
    } else {
      KeepsOpen(cfg, s, step);
      OwnBatch(cfg, s, step);
      HolderDecides(Apply(cfg, s, step), step.p, i);
    }
  }

  lemma KeepsCalls(cfg: Config, s: State, step: Step)
    requires Sized(cfg, s) && OpenOk(s) && CallsOk(s) && Enabled(cfg, s, step)
    ensures Sized(cfg, Apply(cfg, s, step)) && CallsOk(Apply(cfg, s, step))
  {
    var s' := Apply(cfg, s, step);
    KeepsSized(cfg, s, step);
    forall i: nat | i < |s'.rows|
      ensures CallsAt(s', i)
    {
      if i < |s.rows| {
        assert CallsAt(s, i);
      }
      if !Elsewhere(s, step, i) {
        HeldCalls(cfg, s, step, i);
      } else {
        ElsewhereStays(cfg, s, step, i);
        if i < |s.rows| {
          ElsewhereRow(cfg, s, step, i);
        } else {
          NewRowUntouched(s, i);
        }
      }
    }
  }

  /******* Preservation: copies in the log *******/

  /** The row whose record the step appends. */
  function AppendedRow(s: State, step: Step): Option<nat> {
    match step
    case Deliver(p) => if p in s.open && Current(s, p) then Some(Now(s, p)) else None
    case DeliverLate(row) => Some(row)
    case _ => None
  }

  /** The record that a step adds to the log. */
  function NewRecord(s: State, step: Step): Option<Record> {
    if step.Foreign? then Some(step.record)
    else if AppendedRow(s, step).Some? && AppendedRow(s, step).value < |s.rows|
    then Some(Message(s.rows[AppendedRow(s, step).value].event))
    else None
  }

  lemma LogStep(cfg: Config, s: State, step: Step, part: nat)
    requires Enabled(cfg, s, step) && part < |s.log|
    ensures var s' := Apply(cfg, s, step);
      && part < |s'.log|
      && (s'.log[part] == s.log[part]
          || (NewRecord(s, step).Some? && s'.log[part] == s.log[part] + [NewRecord(s, step).value]))
    ensures step.Foreign? ==> Decode(step.record.value).Discarded?
  {
    hide Message, Decode, IsClaim;
  }

  /** One more record in a partition, seen from row `i`. */
  lemma OneMoreRecord(cfg: Config, s: State, part: nat, record: Record, i: nat)
    requires |s.log| == cfg.partitions && i < |s.rows| && part < |s.log|
    requires record == Message(s.rows[i].event) ==> part == PartitionOfRow(cfg, s, i)
    ensures
      var log := s.log[part := s.log[part] + [record]];
      multiset(log[PartitionOfRow(cfg, s, i)])[Message(s.rows[i].event)]
      == Copies(cfg, s, i) + One(record == Message(s.rows[i].event))
  {
  }

  lemma CopiesAfter(cfg: Config, s: State, step: Step, i: nat)
    requires Sized(cfg, s) && IdsOk(s) && Enabled(cfg, s, step) && i < |s.rows|
    ensures i < |Apply(cfg, s, step).rows| && |Apply(cfg, s, step).log| == cfg.partitions
    ensures Copies(cfg, Apply(cfg, s, step), i) == Copies(cfg, s, i) + One(AppendedRow(s, step) == Some(i))
  {
    hide Message, Decode;
    RowsStay(cfg, s, step);
    if AppendedRow(s, step).Some? {
      var j := AppendedRow(s, step).value;
      if i != j && Message(s.rows[i].event) == Message(s.rows[j].event) {
        MessageInjective(s.rows[i].event, s.rows[j].event);
        assert false;
      }
      OneMoreRecord(cfg, s, PartitionOfRow(cfg, s, j), Message(s.rows[j].event), i);
    } else if step.Foreign? {
      ConsumerAcceptsPublisher(s.rows[i].event);
      OneMoreRecord(cfg, s, step.partition, step.record, i);
    }
  }

  lemma NewRowHasNoCopies(cfg: Config, s: State, e: Event)
    requires LogOk(cfg, s) && Sized(cfg, s) && forall r | r in s.rows :: r.event.id != e.id
    ensures multiset(s.log[PartitionOf(cfg, e.partitionKey)])[Message(e)] == 0
  {
    var records := s.log[PartitionOf(cfg, e.partitionKey)];
    forall k | 0 <= k < |records|
      ensures records[k] != Message(e)
    {
      ConsumerAcceptsPublisher(e);
      if !Decode(records[k].value).Discarded? {
        var i: nat :| IsRow(cfg, s, PartitionOf(cfg, e.partitionKey), records[k], i);
        assert s.rows[i] in s.rows;
        if Message(s.rows[i].event) == Message(e) {
          MessageInjective(s.rows[i].event, e);
        }
      }
    }
  }

  /** The step's own arithmetic on a row of the batch it works on. */
  lemma HeldFlight(cfg: Config, s: State, step: Step, i: nat)
    requires Sized(cfg, s) && Enabled(cfg, s, step) && Holds(step) && step.p in s.open
    requires TxOk(s, s.open[step.p]) && i in s.open[step.p].batch
    ensures var s' := Apply(cfg, s, step);
      var later := step.p in s'.open && QueuedIn(s'.open[step.p], i);
      i < |s.rows| && i < |s'.audit|
      && One(AppendedRow(s, step) == Some(i)) + s'.orphans[i] + One(later)
         <= s'.audit[i].tried - s.audit[i].tried + s.orphans[i] + One(QueuedIn(s.open[step.p], i))
  {
  }

  lemma ElsewhereFlight(cfg: Config, s: State, step: Step, i: nat)
    requires Sized(cfg, s) && Enabled(cfg, s, step) && Elsewhere(s, step, i) && i < |s.rows|
    ensures One(AppendedRow(s, step) == Some(i)) + Apply(cfg, s, step).orphans[i] <= s.orphans[i]
  {
  }

  lemma KeepsCopiesAt(cfg: Config, s: State, step: Step, i: nat)
    requires Sized(cfg, s) && IdsOk(s) && OpenOk(s) && Enabled(cfg, s, step) && i < |s.rows| && CopiesAt(cfg, s, i)
    ensures Sized(cfg, Apply(cfg, s, step)) && i < |Apply(cfg, s, step).rows| && CopiesAt(cfg, Apply(cfg, s, step), i)
  {
    var s' := Apply(cfg, s, step);
    KeepsSized(cfg, s, step);
    CopiesAfter(cfg, s, step, i);
    if Elsewhere(s, step, i) {
      ElsewhereFlight(cfg, s, step, i);
      ElsewhereStays(cfg, s, step, i);
      ElsewhereRow(cfg, s, step, i);
    } else {
      HeldFlight(cfg, s, step, i);
      HolderDecides(s, step.p, i);
      if step.Commit? || step.Abort? {
        ReleasedRows(cfg, s, step, i);
      } else {
        KeepsOpen(cfg, s, step);
        OwnBatch(cfg, s, step);
        HolderDecides(s', step.p, i);
      }
    }
  }

  lemma KeepsCopies(cfg: Config, s: State, step: Step)
    requires Sized(cfg, s) && IdsOk(s) && LogOk(cfg, s) && OpenOk(s) && CopiesOk(cfg, s) && Enabled(cfg, s, step)
    ensures Sized(cfg, Apply(cfg, s, step)) && CopiesOk(cfg, Apply(cfg, s, step))
  {
    var s' := Apply(cfg, s, step);
    KeepsSized(cfg, s, step);
    forall i: nat | i < |s'.rows|
      ensures CopiesAt(cfg, s', i)
    {
      if i < |s.rows| {
        assert CopiesAt(cfg, s, i);
        KeepsCopiesAt(cfg, s, step, i);
      } else {
        NewRowHasNoCopies(cfg, s, step.event);
        NewRowUntouched(s, i);
        ElsewhereStays(cfg, s, step, i);
      }
    }
  }

  /** Copies never disappear, so a row that was in the log stays in the log. */
  lemma KeepsPublished(cfg: Config, s: State, step: Step)
    requires Sized(cfg, s) && IdsOk(s) && OpenOk(s) && PublishedOk(cfg, s) && Enabled(cfg, s, step)
    ensures Sized(cfg, Apply(cfg, s, step)) && PublishedOk(cfg, Apply(cfg, s, step))
  {
    var s' := Apply(cfg, s, step);
    KeepsSized(cfg, s, step);
    forall i: nat | i < |s'.rows| && s'.rows[i].published
      ensures Copies(cfg, s', i) > 0
    {
      CopiesAfter(cfg, s, step, i);
      if !s.rows[i].published {
        assert step.Commit? && SaysPublished(s.open[step.p], i);
      }
    }
    forall p, i: nat | p in s'.open && i < |s'.rows| && SaysPublished(s'.open[p], i)
      ensures Copies(cfg, s', i) > 0
    {
      SaidPublished(cfg, s, step, p, i);
      CopiesAfter(cfg, s, step, i);
    }
  }

  lemma SaidPublished(cfg: Config, s: State, step: Step, p: nat, i: nat)
    requires Enabled(cfg, s, step) && OpenOk(s)
    requires p in Apply(cfg, s, step).open && SaysPublished(Apply(cfg, s, step).open[p], i)
    ensures i < |s.rows|
    ensures AppendedRow(s, step) == Some(i) || (p in s.open && SaysPublished(s.open[p], i))
  {
    hide CommitRows, RollBackAudit, CountCall, Appended, Leftover, Locked, Decode;
    if p in s.open {
      assert TxOk(s, s.open[p]);
    }
  }

  /******* Every run *******/

  lemma StepKeepsInv(cfg: Config, s: State, step: Step)
    requires Inv(cfg, s) && Enabled(cfg, s, step)
    ensures Inv(cfg, Apply(cfg, s, step))
  {
    KeepsIds(cfg, s, step);
    KeepsLog(cfg, s, step);
    KeepsOpen(cfg, s, step);
    KeepsCalls(cfg, s, step);
    KeepsCopies(cfg, s, step);
    KeepsPublished(cfg, s, step);
  }

  lemma {:induction false} RunKeepsInv(cfg: Config, steps: seq<Step>)
    requires Exec(cfg, steps).Some?
    ensures Inv(cfg, Exec(cfg, steps).value)
  {
    if steps != [] {
      RunKeepsInv(cfg, steps[..|steps| - 1]);
      StepKeepsInv(cfg, Exec(cfg, steps[..|steps| - 1]).value, steps[|steps| - 1]);
    }
  }
}
