/**
 The consumer group as a step machine over a Kafka log: poll, handle in one database transaction,
 commit the offset; with crashes anywhere, restarts, and partitions moving between consumers.
 */
module DeliveryMachine {
  import opened Types
  import opened Messages

  type Log = seq<seq<Record>>

  /** How far the consumer is with one record; `Inserted` and `Notified` are inside the transaction. */
  datatype Work =
    | Resting
    | Polled(part: nat, off: nat)
    | Inserted(part: nat, off: nat, eventId: Uuid, user: Text)
    | Notified(part: nat, off: nat, eventId: Uuid, user: Text, noticeId: Uuid)
    | Handled(part: nat, off: nat)

  /** `pos` is where the consumer reads next in the partitions it believes it owns. */
  datatype Consumer = Consumer(pos: map<nat, nat>, work: Work)

  datatype Notification = Notification(eventId: Uuid, recipient: Text, channel: string, status: string)

  /** `owner` and `committed` are kept by the broker; a partition without an offset starts at 0. */
  datatype State = State(
    consumers: map<nat, Consumer>,
    owner: map<nat, nat>,
    committed: map<nat, nat>,
    processed: set<Uuid>,
    notifications: map<Uuid, Notification>)

  datatype Step =
    | Start(c: nat)
    | Assign(c: nat, part: nat)
    | Revoke(c: nat, part: nat)
    | Poll(c: nat, part: nat)
    | Discard(c: nat)
    | Duplicate(c: nat)
    | Insert(c: nat)
    | Notify(c: nat, noticeId: Uuid)
    | CommitTx(c: nat)
    | CommitOffset(c: nat)
    | Crash(c: nat)

  function Init(): State {
    State(map[], map[], map[], {}, map[])
  }

  function CommittedOffset(s: State, part: nat): nat {
    if part in s.committed then s.committed[part] else 0
  }

  predicate InLog(log: Log, part: nat, off: nat) {
    part < |log| && off < |log[part]|
  }

  function VerdictAt(log: Log, part: nat, off: nat): Verdict
    requires InLog(log, part, off)
  {
    Decode(log[part][off].value)
  }

  /** An open transaction of `k` has inserted a processed row for this event. */
  predicate PendingEvent(k: Consumer, id: Uuid) {
    (k.work.Inserted? || k.work.Notified?) && k.work.eventId == id
  }

  predicate PendingNotice(k: Consumer, id: Uuid) {
    k.work.Notified? && k.work.noticeId == id
  }

  predicate Busy(s: State, c: nat, log: Log) {
    c in s.consumers && s.consumers[c].work.Polled? && InLog(log, s.consumers[c].work.part, s.consumers[c].work.off)
  }

  predicate Enabled(log: Log, s: State, step: Step) {
    match step
    case Start(c) => c !in s.consumers
    case Assign(c, part) => c in s.consumers && s.consumers[c].work.Resting?
    case Revoke(c, part) => c in s.consumers && s.consumers[c].work.Resting?
    case Poll(c, part) =>
      && c in s.consumers && s.consumers[c].work.Resting? && part in s.consumers[c].pos
      && InLog(log, part, s.consumers[c].pos[part])
    case Discard(c) =>
      Busy(s, c, log) && VerdictAt(log, s.consumers[c].work.part, s.consumers[c].work.off).Discarded?
    case Duplicate(c) =>
      && Busy(s, c, log)
      && var v := VerdictAt(log, s.consumers[c].work.part, s.consumers[c].work.off);
      v.Accepted? && v.eventId in s.processed
    case Insert(c) =>
      && Busy(s, c, log)
      && var v := VerdictAt(log, s.consumers[c].work.part, s.consumers[c].work.off);
      && v.Accepted? && v.eventId !in s.processed
      && forall d | d in s.consumers && d != c :: !PendingEvent(s.consumers[d], v.eventId)
    case Notify(c, noticeId) =>
      && c in s.consumers && s.consumers[c].work.Inserted? && noticeId !in s.notifications
      && forall d | d in s.consumers && d != c :: !PendingNotice(s.consumers[d], noticeId)
    case CommitTx(c) => c in s.consumers && s.consumers[c].work.Notified?
    case CommitOffset(c) =>
      && c in s.consumers && s.consumers[c].work.Handled?
      && s.consumers[c].work.part in s.owner && s.owner[s.consumers[c].work.part] == c
    case Crash(c) => c in s.consumers
  }

  function Working(s: State, c: nat, w: Work): State
    requires c in s.consumers
  {
    s.(consumers := s.consumers[c := s.consumers[c].(work := w)])
  }

  function Apply(log: Log, s: State, step: Step): State
    requires Enabled(log, s, step)
  {
    match step
    case Start(c) => s.(consumers := s.consumers[c := Consumer(map[], Resting)])
    case Assign(c, part) =>
      var k := s.consumers[c];
      s.(owner := s.owner[part := c],
         consumers := s.consumers[c := k.(pos := k.pos[part := CommittedOffset(s, part)])])
    case Revoke(c, part) =>
      var k := s.consumers[c];
      s.(owner := if part in s.owner && s.owner[part] == c then s.owner - {part} else s.owner,
         consumers := s.consumers[c := k.(pos := k.pos - {part})])
    case Poll(c, part) => Working(s, c, Polled(part, s.consumers[c].pos[part]))
    case Discard(c) => Working(s, c, Handled(s.consumers[c].work.part, s.consumers[c].work.off))
    case Duplicate(c) => Working(s, c, Handled(s.consumers[c].work.part, s.consumers[c].work.off))
    case Insert(c) =>
      var w := s.consumers[c].work;
      var v := VerdictAt(log, w.part, w.off);
      Working(s, c, Inserted(w.part, w.off, v.eventId, v.user))
    case Notify(c, noticeId) =>
      var w := s.consumers[c].work;
      Working(s, c, Notified(w.part, w.off, w.eventId, w.user, noticeId))
    case CommitTx(c) =>
      var w := s.consumers[c].work;
      Working(s, c, Handled(w.part, w.off)).(
        processed := s.processed + {w.eventId},
        notifications := s.notifications[w.noticeId := Notification(w.eventId, w.user, "email", "sent")])
    case CommitOffset(c) =>
      var k := s.consumers[c];
      s.(committed := s.committed[k.work.part := k.work.off + 1],
         consumers := s.consumers[c := Consumer(k.pos[k.work.part := k.work.off + 1], Resting)])
    case Crash(c) => s.(consumers := s.consumers - {c})
  }
}
