/**
 The outbox table, any number of publisher transactions, and the Kafka log, as a step machine.

 A publisher transaction holds the rows it claimed until it commits or rolls back. The log does not
 roll back, and a failed Publish call says nothing about whether its record was or will be appended.
 */
module OutboxMachine {
  import opened Types
  import opened Messages

  type Positive = n: nat | n > 0 witness 1

  /** `route` is the hash that Kafka's partitioner takes of a key. */
  datatype Config = Config(route: Uuid -> nat, partitions: Positive, batchSize: nat)

  /** `published` stands for `published_at IS NOT NULL`. */
  datatype Row = Row(event: Event, published: bool, attempt: nat, lastError: Option<string>)

  datatype Outcome = MarkPublished | MarkFailed(error: string)

  /** Where the Publish call for the current row of a batch stands. */
  datatype Send = Idle | Queued | Delivered | Acked | Errored(error: string)

  /** `batch` are the claimed row numbers, `done` how many are marked, `marks` the uncommitted updates. */
  datatype Tx = Tx(batch: seq<nat>, done: nat, marks: map<nat, Outcome>, send: Send)

  /** History of one row: Publish calls, calls whose transaction rolled back, and whether a call failed. */
  datatype Audit = Audit(tried: nat, rolledBack: nat, failed: bool)

  /** `orphans` are produced records, by row number, that no caller waits for any more. */
  datatype State = State(
    rows: seq<Row>,
    open: map<nat, Tx>,
    orphans: multiset<nat>,
    log: seq<seq<Record>>,
    audit: seq<Audit>)

  datatype Step =
    | Insert(event: Event)
    | Claim(p: nat, batch: seq<nat>)
    | Produce(p: nat)
    | Refuse(p: nat, error: string)
    | Deliver(p: nat)
    | Ack(p: nat)
    | Report(p: nat, error: string, lost: bool)
    | Mark(p: nat)
    | Commit(p: nat)
    | Abort(p: nat, lost: bool)
    | DeliverLate(row: nat)
    | DropLate(row: nat)
    | Foreign(partition: nat, record: Record)

  function Init(cfg: Config): State {
    State([], map[], multiset{}, seq(cfg.partitions, _ => []), [])
  }

  function PartitionOf(cfg: Config, key: Uuid): (r: nat)
    ensures r < cfg.partitions
  {
    cfg.route(key) % cfg.partitions
  }

  predicate Locked(s: State, i: nat) {
    exists p | p in s.open :: i in s.open[p].batch
  }

  predicate Available(s: State, i: nat) {
    i < |s.rows| && !s.rows[i].published && !Locked(s, i)
  }

  function CreatedAt(s: State, i: nat): nat
    requires i < |s.rows|
  {
    s.rows[i].event.createdAt
  }

  /**
   What `WHERE published_at IS NULL ORDER BY created_at LIMIT n FOR UPDATE SKIP LOCKED` may return:
   available rows in creation order, as many as there are up to the limit, and no older one left out.
   */
  predicate IsClaim(s: State, limit: nat, batch: seq<nat>) {
    && |batch| <= limit
    && (forall k | 0 <= k < |batch| :: Available(s, batch[k]))
    && (forall k, l | 0 <= k < l < |batch| :: batch[k] != batch[l] && CreatedAt(s, batch[k]) <= CreatedAt(s, batch[l]))
    && (forall i | 0 <= i < |s.rows| :: Available(s, i) && i !in batch ==>
          |batch| == limit && forall k | 0 <= k < |batch| :: CreatedAt(s, batch[k]) <= CreatedAt(s, i))
  }

  predicate Sending(s: State, p: nat, send: Send) {
    p in s.open && s.open[p].send == send && Current(s, p)
  }

  /** The batch has a row that is not marked yet, and it is a row of the table. */
  predicate Current(s: State, p: nat)
    requires p in s.open
  {
    var tx := s.open[p];
    tx.done < |tx.batch| && tx.batch[tx.done] < |s.rows|
  }

  predicate Enabled(cfg: Config, s: State, step: Step) {
    |s.log| == cfg.partitions && |s.audit| == |s.rows|
    && match step
       case Insert(e) => forall r | r in s.rows :: r.event.id != e.id
       case Claim(p, batch) => p !in s.open && IsClaim(s, cfg.batchSize, batch)
       case Produce(p) => Sending(s, p, Idle)
       case Refuse(p, _) => Sending(s, p, Idle)
       case Deliver(p) => Sending(s, p, Queued)
       case Ack(p) => Sending(s, p, Delivered)
       case Report(p, _, _) => Sending(s, p, Queued) || Sending(s, p, Delivered)
       case Mark(p) => p in s.open && Current(s, p) && (s.open[p].send.Acked? || s.open[p].send.Errored?)
       case Commit(p) => p in s.open && s.open[p].send.Idle? && s.open[p].done == |s.open[p].batch|
       case Abort(p, _) => p in s.open
       case DeliverLate(row) => row in s.orphans && row < |s.rows|
       case DropLate(row) => row in s.orphans
       case Foreign(partition, record) => partition < |s.log| && Decode(record.value).Discarded?
  }

  function Now(s: State, p: nat): nat
    requires p in s.open && Current(s, p)
  {
    s.open[p].batch[s.open[p].done]
  }

  function Appended(cfg: Config, s: State, i: nat): seq<seq<Record>>
    requires i < |s.rows| && |s.log| == cfg.partitions
  {
    var e := s.rows[i].event;
    var part := PartitionOf(cfg, e.partitionKey);
    s.log[part := s.log[part] + [Message(e)]]
  }

  /** The records still queued for a caller that stops waiting: lost, or delivered some time later. */
  function Leftover(s: State, p: nat, lost: bool): multiset<nat>
    requires p in s.open
  {
    if s.open[p].send.Queued? && Current(s, p) && !lost then s.orphans + multiset{Now(s, p)} else s.orphans
  }

  function Updated(row: Row, m: Outcome): Row {
    match m
    case MarkPublished => row.(published := true, lastError := None)
    case MarkFailed(error) =>
      row.(attempt := row.attempt + 1, lastError := if error == "" then None else Some(error))
  }

  function CommitRows(rows: seq<Row>, marks: map<nat, Outcome>): (r: seq<Row>)
    ensures |r| == |rows|
    ensures forall i | 0 <= i < |rows| :: r[i] == if i in marks then Updated(rows[i], marks[i]) else rows[i]
  {
    seq(|rows|, i requires 0 <= i < |rows| => if i in marks then Updated(rows[i], marks[i]) else rows[i])
  }

  /** The rows a transaction has called Publish for. */
  function Tried(tx: Tx): set<nat> {
    tx.marks.Keys + if !tx.send.Idle? && tx.done < |tx.batch| then {tx.batch[tx.done]} else {}
  }

  function RollBackAudit(audit: seq<Audit>, tried: set<nat>): (r: seq<Audit>)
    ensures |r| == |audit|
    ensures forall i | 0 <= i < |audit| ::
              r[i] == if i in tried then audit[i].(rolledBack := audit[i].rolledBack + 1) else audit[i]
  {
    seq(|audit|, i requires 0 <= i < |audit| =>
      if i in tried then audit[i].(rolledBack := audit[i].rolledBack + 1) else audit[i])
  }

  function CountCall(audit: seq<Audit>, i: nat, failed: bool): seq<Audit>
    requires i < |audit|
  {
    audit[i := audit[i].(tried := audit[i].tried + 1, failed := audit[i].failed || failed)]
  }

  function Apply(cfg: Config, s: State, step: Step): State
    requires Enabled(cfg, s, step)
  {
    match step
    case Insert(e) => s.(rows := s.rows + [Row(e, false, 0, None)], audit := s.audit + [Audit(0, 0, false)])
    case Claim(p, batch) => s.(open := s.open[p := Tx(batch, 0, map[], Idle)])
    case Produce(p) =>
      s.(open := s.open[p := s.open[p].(send := Queued)], audit := CountCall(s.audit, Now(s, p), false))
    case Refuse(p, error) =>
      s.(open := s.open[p := s.open[p].(send := Errored(error))], audit := CountCall(s.audit, Now(s, p), true))
    case Deliver(p) =>
      s.(open := s.open[p := s.open[p].(send := Delivered)], log := Appended(cfg, s, Now(s, p)))
    case Ack(p) => s.(open := s.open[p := s.open[p].(send := Acked)])
    case Report(p, error, lost) =>
      var i := Now(s, p);
      s.(open := s.open[p := s.open[p].(send := Errored(error))],
         orphans := Leftover(s, p, lost),
         audit := s.audit[i := s.audit[i].(failed := true)])
    case Mark(p) =>
      var tx := s.open[p];
      var m := if tx.send.Acked? then MarkPublished else MarkFailed(tx.send.error);
      s.(open := s.open[p := Tx(tx.batch, tx.done + 1, tx.marks[Now(s, p) := m], Idle)])
    case Commit(p) => s.(rows := CommitRows(s.rows, s.open[p].marks), open := s.open - {p})
    case Abort(p, lost) =>
      s.(open := s.open - {p},
         orphans := Leftover(s, p, lost),
         audit := RollBackAudit(s.audit, Tried(s.open[p])))
    case DeliverLate(row) =>
      s.(orphans := s.orphans - multiset{row}, log := Appended(cfg, s, row))
    case DropLate(row) => s.(orphans := s.orphans - multiset{row})
    case Foreign(partition, record) => s.(log := s.log[partition := s.log[partition] + [record]])
  }

  ghost function Exec(cfg: Config, steps: seq<Step>): Option<State> {
    if steps == [] then Some(Init(cfg))
    else
      var before := Exec(cfg, steps[..|steps| - 1]);
      if before.Some? && Enabled(cfg, before.value, steps[|steps| - 1])
      then Some(Apply(cfg, before.value, steps[|steps| - 1]))
      else None
  }
}
