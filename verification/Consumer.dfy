/**
 The notification consumer as it runs: the poll loop, Handle and the offset commit, while other
 consumers, rebalances and producers make steps of their own in between.
 */
module Consumer {
  import opened Types
  import opened Messages
  import opened DeliveryMachine
  import opened DeliveryInvariants

  datatype HandleError = InvalidMessage(reason: Reason) | StoreFailed

  /** No record, effect or source of an effect was lost. */
  predicate Kept(log: Log, s: State, log': Log, s': State) {
    && Longer(log, log') && s.processed <= s'.processed
    && forall n | n in s.notifications :: n in s'.notifications && s'.notifications[n] == s.notifications[n]
  }

  lemma KeptSelf(log: Log, s: State)
    ensures Kept(log, s, log, s)
  {
  }

  lemma KeptOnwards(log: Log, s: State, log': Log, s': State, log'': Log, s'': State)
    requires Kept(log, s, log', s') && Kept(log', s', log'', s'')
    ensures Kept(log, s, log'', s'')
  {
  }

  lemma StepKeeps(log: Log, s: State, step: Step)
    requires OffsetsOk(log, s) && Enabled(log, s, step)
    ensures Kept(log, s, log, Apply(log, s, step))
  {
  }

  /** Only a consumer's own steps, and a rebalance, change its entry. */
  lemma OthersDoNotDisturb(log: Log, s: State, step: Step, c: nat)
    requires Enabled(log, s, step) && step.c != c
    ensures var s' := Apply(log, s, step);
      (c in s.consumers <==> c in s'.consumers) && (c in s.consumers ==> s'.consumers[c] == s.consumers[c])
  {
  }

  ghost predicate Announced(s: State, id: Uuid) {
    id in s.processed && exists n :: Announces(s, n, id)
  }

  /** Consumer `c` is the only one, and reads every partition from its committed offset. */
  predicate Alone(log: Log, s: State, c: nat) {
    && s.consumers.Keys == {c} && s.consumers[c].work.Resting?
    && forall part: nat | part < |log| ::
         && part in s.owner && s.owner[part] == c
         && part in s.consumers[c].pos && s.consumers[c].pos[part] == CommittedOffset(s, part)
  }

  /** Every record is below the committed offset of its partition. */
  ghost predicate CaughtUp(log: Log, s: State) {
    forall part: nat | part < |log| :: CommittedOffset(s, part) == |log[part]|
  }

  /** The records of the first `n` partitions that are not committed yet. */
  function Lag(log: Log, s: State, n: nat): int
    requires n <= |log|
  {
    if n == 0 then 0 else Lag(log, s, n - 1) + |log[n - 1]| - CommittedOffset(s, n - 1)
  }

  lemma {:induction false} LagSame(log: Log, s: State, s': State, n: nat)
    requires n <= |log| && forall part: nat | part < n :: CommittedOffset(s, part) == CommittedOffset(s', part)
    ensures Lag(log, s', n) == Lag(log, s, n)
  {
    if n > 0 {
      LagSame(log, s, s', n - 1);
    }
  }

  lemma {:induction false} LagAfterOne(log: Log, s: State, s': State, part: nat, n: nat)
    requires part < n <= |log| && CommittedOffset(s', part) == CommittedOffset(s, part) + 1
    requires forall other: nat | other < n && other != part :: CommittedOffset(s, other) == CommittedOffset(s', other)
    ensures Lag(log, s', n) == Lag(log, s, n) - 1
  {
    if part == n - 1 {
      LagSame(log, s, s', n - 1);
    } else {
      LagAfterOne(log, s, s', part, n - 1);
    }
  }

  lemma {:induction false} LagCounts(log: Log, s: State, n: nat)
    requires n <= |log| && forall part: nat | part < n :: CommittedOffset(s, part) <= |log[part]|
    ensures Lag(log, s, n) >= 0
    ensures Lag(log, s, n) == 0 <==> forall part: nat | part < n :: CommittedOffset(s, part) == |log[part]|
  {
    if n > 0 {
      LagCounts(log, s, n - 1);
    }
  }

  lemma OffsetsInLog(log: Log, s: State)
    requires OffsetsOk(log, s)
    ensures forall part: nat | part < |log| :: CommittedOffset(s, part) <= |log[part]|
  {
    forall part: nat | part < |log|
      ensures CommittedOffset(s, part) <= |log[part]|
    {
      if part in s.committed {
        assert SettledBelow(log, s, part, s.committed[part]);
      }
    }
  }

  function Backlog(log: Log, s: State): int {
    Lag(log, s, |log|)
  }

  /** No notification, and no other open transaction, has this id. */
  predicate FreshNotice(s: State, c: nat, id: Uuid) {
    id !in s.notifications && forall d | d in s.consumers && d != c :: !PendingNotice(s.consumers[d], id)
  }

  lemma FreshNoticeExists(s: State, c: nat)
    ensures exists id: Uuid :: FreshNotice(s, c, id)
  {
    var pending := set d | d in s.consumers && s.consumers[d].work.Notified? :: s.consumers[d].work.noticeId;
    var free := Unused(s.notifications.Keys + pending);
    forall d | d in s.consumers && d != c
      ensures !PendingNotice(s.consumers[d], free)
    {
      if s.consumers[d].work.Notified? {
        assert s.consumers[d].work.noticeId in pending;
      }
    }
    assert FreshNotice(s, c, free);
  }

  /** The Kafka log, the broker's group state and the consumer tables; every change is a step of the machine. */
  class Group {
    var log: Log
    var consumers: map<nat, DeliveryMachine.Consumer>
    var owner: map<nat, nat>
    var committed: map<nat, nat>
    var processed: set<Uuid>
    var notifications: map<Uuid, Notification>

    function View(): State
      reads this
    {
      State(consumers, owner, committed, processed, notifications)
    }

    ghost predicate Valid()
      reads this
    {
      OffsetsOk(log, View()) && Inv(log, View())
    }

    constructor (log: Log)
      ensures Valid() && this.log == log && View() == Init()
    {
      this.log := log;
      consumers, owner, committed, processed, notifications := map[], map[], map[], {}, map[];
    }

    /** One step of the machine. */
    method Do(step: Step)
      requires Valid() && Enabled(log, View(), step)
      modifies this
      ensures Valid() && log == old(log) && View() == Apply(old(log), old(View()), step)
      ensures Kept(log, old(View()), log, View())
    {
      var s := Apply(log, View(), step);
      StepKeepsInv(log, View(), step);
      StepKeeps(log, View(), step);
      consumers, owner, committed, processed, notifications :=
        s.consumers, s.owner, s.committed, s.processed, s.notifications;
    }

    /** A producer appends a record. */
    method Append(part: nat, record: Record)
      requires Valid() && part < |log|
      modifies this
      ensures Valid() && View() == old(View()) && log == old(log)[part := old(log)[part] + [record]]
      ensures Kept(old(log), View(), log, View())
    {
      LongerLogKeepsInv(log, log[part := log[part] + [record]], View());
      log := log[part := log[part] + [record]];
    }

    /** Any number of steps by others; none if the caller is left in peace. */
    method Interfere(c: nat, quiet: bool)
      requires Valid()
      modifies this
      ensures Valid() && Kept(old(log), old(View()), log, View())
      ensures (c in consumers <==> c in old(consumers)) && (c in consumers ==> consumers[c] == old(consumers)[c])
      ensures quiet ==> log == old(log) && View() == old(View())
    {
      hide Inv, OffsetsOk, Kept;
      KeptSelf(log, View());
      var n: nat := *;
      while n > 0 && !quiet
        invariant Valid() && Kept(old(log), old(View()), log, View())
        invariant (c in consumers <==> c in old(consumers)) && (c in consumers ==> consumers[c] == old(consumers)[c])
        invariant quiet ==> log == old(log) && View() == old(View())
      {
        ghost var before, records := View(), log;
        var step: Step, append: bool, part: nat, record: Record := *, *, *, *;
        if append && part < |log| {
          Append(part, record);
        } else if step.c != c && Enabled(log, View(), step) {
          OthersDoNotDisturb(log, View(), step, c);
          Do(step);
        } else {
          KeptSelf(log, View());
        }
        KeptOnwards(old(log), old(View()), records, before, log, View());
        n := n - 1;
      }
    }

    /** The process ends: its transaction rolls back and its partitions are free again. */
    method Exit(c: nat)
      requires Valid() && c in consumers
      modifies this
      ensures Valid() && c !in consumers && Kept(old(log), old(View()), log, View()) && log == old(log)
      ensures View() == old(View()).(consumers := old(consumers) - {c})
    {
      Do(Crash(c));
    }

    /** Nobody else holds the event's row in `processed_events`. */
    predicate EventFree(c: nat, id: Uuid)
      reads this
    {
      forall d | d in consumers && d != c :: !PendingEvent(consumers[d], id)
    }

    /** A statement of the transaction: others run first, and then it fails if it must or if it happens to. */
    method Statement(c: nat, quiet: bool) returns (ok: bool)
      requires Valid() && c in consumers
      modifies this
      ensures Valid() && Kept(old(log), old(View()), log, View())
      ensures if ok then c in consumers && consumers[c] == old(consumers)[c] else c !in consumers
      ensures quiet ==> ok && log == old(log) && View() == old(View())
    {
      Interfere(c, quiet);
      var fails: bool := *;
      ok := quiet || !fails;
      if !ok {
        ghost var before, records := View(), log;
        Exit(c);
        KeptOnwards(old(log), old(View()), records, before, log, View());
      }
    }

    /** CreateNotificationDelivery under a new id, then the commit of the transaction. */
    method Deliver(c: nat, quiet: bool) returns (ok: bool)
      requires Valid() && c in consumers && consumers[c].work.Inserted?
      requires quiet ==> consumers.Keys == {c}
      modifies this
      ensures Valid() && Kept(old(log), old(View()), log, View())
      ensures var w := old(consumers)[c].work;
        if ok
        then
          && c in consumers && consumers[c] == old(consumers)[c].(work := Handled(w.part, w.off))
          && w.eventId in processed
          && exists n: Uuid :: n !in old(notifications) && n in notifications
                             && notifications[n] == Notification(w.eventId, w.user, "email", "sent")
        else c !in consumers
      ensures quiet ==> ok && log == old(log) && owner == old(owner) && committed == old(committed) && consumers.Keys == {c}
      ensures var w := old(consumers)[c].work;
        quiet ==>
          && processed == old(processed) + {w.eventId}
          && exists n: Uuid :: n !in old(notifications)
                              && notifications == old(notifications)[n := Notification(w.eventId, w.user, "email", "sent")]
    {
      hide Inv, OffsetsOk, Kept;
      ghost var w := consumers[c].work;
      ok := Statement(c, quiet);
      if !ok {
        return;
      }
      FreshNoticeExists(View(), c);
      ghost var s1, l1 := View(), log;
      var noticeId: Uuid :| FreshNotice(View(), c, noticeId);
      Do(Notify(c, noticeId));
      KeptOnwards(old(log), old(View()), l1, s1, log, View());
      ghost var s2, l2 := View(), log;
      ok := Statement(c, quiet);
      KeptOnwards(old(log), old(View()), l2, s2, log, View());
      if ok {
        ok := CommitTransaction(c, quiet);
        KeptOnwards(old(log), old(View()), l2, s2, log, View());
        if ok {
          NewNotice(old(log), old(View()), l1, s1, c, noticeId);
          assert notifications[noticeId] == Notification(w.eventId, w.user, "email", "sent");
        }
      }
    }

    /** Commit; when its answer is lost, the caller sees an error although the rows are there. */
    method CommitTransaction(c: nat, quiet: bool) returns (ok: bool)
      requires Valid() && c in consumers && consumers[c].work.Notified?
      modifies this
      ensures Valid() && Kept(old(log), old(View()), log, View()) && log == old(log)
      ensures var w := old(consumers)[c].work;
        && processed == old(processed) + {w.eventId}
        && notifications == old(notifications)[w.noticeId := Notification(w.eventId, w.user, "email", "sent")]
      ensures var w := old(consumers)[c].work;
        if ok then consumers == old(consumers)[c := old(consumers)[c].(work := Handled(w.part, w.off))]
        else c !in consumers
      ensures owner == old(owner) && committed == old(committed) && (quiet ==> ok)
    {
      hide Inv, OffsetsOk, Kept;
      Do(CommitTx(c));
      var lost: bool := *;
      ok := quiet || !lost;
      if !ok {
        ghost var before := View();
        Exit(c);
        KeptOnwards(log, old(View()), log, before, log, View());
      }
    }

    /**
     Handle. A message it finds invalid changes nothing; any other one is afterwards processed and
     announced, by this call or by an earlier one, unless the call fails and the process ends.
     */
    method Handle(c: nat, quiet: bool) returns (err: Option<HandleError>)
      requires Valid() && Busy(View(), c, log)
      requires quiet ==> consumers.Keys == {c}
      modifies this
      ensures Valid() && Kept(old(log), old(View()), log, View())
      ensures var w := old(consumers)[c].work;
        match VerdictAt(old(log), w.part, w.off)
        case Discarded(reason) => err == Some(InvalidMessage(reason)) && View() == old(View()) && log == old(log)
        case Accepted(id, user, _) =>
          if err.None? then
            && c in consumers && consumers[c] == old(consumers)[c].(work := Handled(w.part, w.off))
            && Announced(View(), id)
          else err == Some(StoreFailed) && c !in consumers
      ensures quiet ==> log == old(log) && owner == old(owner) && committed == old(committed) && consumers.Keys == {c}
      ensures var w := old(consumers)[c].work;
        var v := VerdictAt(old(log), w.part, w.off);
        quiet && v.Accepted? ==>
          && err.None? && processed == old(processed) + {v.eventId}
          && if v.eventId in old(processed) then notifications == old(notifications)
             else exists n: Uuid :: n !in old(notifications)
                              && notifications == old(notifications)[n := Notification(v.eventId, v.user, "email", "sent")]
    {
      hide Inv, OffsetsOk;
      var w := consumers[c].work;
      var v := VerdictAt(log, w.part, w.off);
      if v.Discarded? {
        return Some(InvalidMessage(v.reason));
      }
      var ok := Statement(c, quiet);
      if !ok {
        return Some(StoreFailed);
      }
      if v.eventId in processed {
        Do(Duplicate(c));
        ProcessedIsAnnounced(log, View(), v.eventId);
        return None;
      }
      if !EventFree(c, v.eventId) {
        Exit(c);
        return Some(StoreFailed);
      }
      Do(Insert(c));
      ok := Deliver(c, quiet);
      if ok {
        ProcessedIsAnnounced(log, View(), v.eventId);
      }
      err := if ok then None else Some(StoreFailed);
    }

    /** handleRecord of the program: an invalid record is dropped, so that its offset is committed too. */
    method HandleRecord(c: nat, quiet: bool) returns (ok: bool)
      requires Valid() && Busy(View(), c, log)
      requires quiet ==> consumers.Keys == {c}
      modifies this
      ensures Valid() && Kept(old(log), old(View()), log, View())
      ensures var w := old(consumers)[c].work;
        if ok then c in consumers && consumers[c] == old(consumers)[c].(work := Handled(w.part, w.off))
        else c !in consumers
      ensures var w := old(consumers)[c].work;
        VerdictAt(old(log), w.part, w.off).Discarded? ==> ok
      ensures quiet ==> ok && log == old(log) && owner == old(owner) && committed == old(committed) && consumers.Keys == {c}
    {
      hide Inv, OffsetsOk, Kept;
      var err := Handle(c, quiet);
      ok := true;
      if err.Some? {
        if err.value.InvalidMessage? {
          Do(Discard(c));
        } else {
          ok := false;
        }
      }
    }

    /** Partitions come to and go from consumer `c` while it polls. */
    method Rebalance(c: nat)
      requires Valid() && c in consumers && consumers[c].work.Resting?
      modifies this
      ensures Valid() && c in consumers && consumers[c].work.Resting? && log == old(log)
      ensures Kept(log, old(View()), log, View())
    {
      hide Inv, OffsetsOk, Kept;
      KeptSelf(log, View());
      var n: nat := *;
      while n > 0
        invariant Valid() && c in consumers && consumers[c].work.Resting? && log == old(log)
        invariant Kept(log, old(View()), log, View())
      {
        ghost var before := View();
        var part: nat, revoked: bool := *, *;
        if revoked {
          Do(Revoke(c, part));
        } else {
          Do(Assign(c, part));
        }
        KeptOnwards(log, old(View()), log, before, log, View());
        n := n - 1;
      }
    }

    /** A partition of consumer `c` with a record to read. */
    method NextPartition(c: nat) returns (next: Option<nat>)
      requires c in consumers
      ensures next.Some? ==> next.value in consumers[c].pos && InLog(log, next.value, consumers[c].pos[next.value])
      ensures next.None? ==> forall part: nat | part in consumers[c].pos :: !InLog(log, part, consumers[c].pos[part])
    {
      for part := 0 to |log|
        invariant forall p: nat | p < part && p in consumers[c].pos :: !InLog(log, p, consumers[c].pos[p])
      {
        if part in consumers[c].pos && InLog(log, part, consumers[c].pos[part]) {
          return Some(part);
        }
      }
      next := None;
    }

    /** CommitMessage, which the broker accepts only from the partition's owner; its answer may get lost. */
    method CommitMessage(c: nat, quiet: bool) returns (ok: bool)
      requires Valid() && c in consumers && consumers[c].work.Handled?
      modifies this
      ensures Valid() && log == old(log) && Kept(log, old(View()), log, View())
      ensures var part := old(consumers)[c].work.part;
        && (ok ==> part in old(owner) && old(owner)[part] == c)
        && (quiet && part in old(owner) && old(owner)[part] == c ==> ok)
      ensures var w := old(consumers)[c].work;
        if ok then
          && committed == old(committed)[w.part := w.off + 1] && owner == old(owner)
          && consumers == old(consumers)[c := DeliveryMachine.Consumer(old(consumers)[c].pos[w.part := w.off + 1], Resting)]
        else
          && c !in consumers
          && (committed == old(committed)
              || (w.part in old(owner) && old(owner)[w.part] == c && committed == old(committed)[w.part := w.off + 1]))
      ensures processed == old(processed) && notifications == old(notifications)
    {
      hide Inv, OffsetsOk, Kept;
      var part, stopped: bool, lost: bool := consumers[c].work.part, *, *;
      ok := part in owner && owner[part] == c && (quiet || !stopped);
      if ok {
        Do(CommitOffset(c));
        ok := quiet || !lost;
      }
      if !ok {
        ghost var before := View();
        Exit(c);
        KeptOnwards(log, old(View()), log, before, log, View());
      }
    }

    /** One turn of the loop in Run that gets a record: handle it, then commit its offset. */
    method Consume(c: nat, part: nat, quiet: bool) returns (ok: bool)
      requires Valid() && c in consumers && consumers[c].work.Resting?
      requires part in consumers[c].pos && InLog(log, part, consumers[c].pos[part])
      requires quiet ==> Alone(log, View(), c)
      modifies this
      ensures Valid() && Kept(old(log), old(View()), log, View())
      ensures if ok then c in consumers && consumers[c].work.Resting? else c !in consumers
      ensures ok ==>
                var off := old(consumers)[c].pos[part];
                && part in committed && committed[part] == off + 1 && part in owner && owner[part] == c
                && InLog(log, part, off) && Settled(log, View(), part, off)
      ensures quiet ==> ok && log == old(log) && Alone(log, View(), c)
      ensures quiet ==> committed == old(committed)[part := CommittedOffset(old(View()), part) + 1]
    {
      hide Inv, OffsetsOk, Kept;
      Do(Poll(c, part));
      ghost var s1, l1 := View(), log;
      Interfere(c, quiet);
      KeptOnwards(old(log), old(View()), l1, s1, log, View());
      assert Busy(View(), c, log) by {
        StillInLog(old(log), old(View()), log, View(), part, old(consumers[c].pos[part]));
      }
      ghost var s2, l2 := View(), log;
      ok := HandleRecord(c, quiet);
      KeptOnwards(old(log), old(View()), l2, s2, log, View());
      if ok {
        ghost var s3, l3 := View(), log;
        ok := CommitMessage(c, quiet);
        KeptOnwards(old(log), old(View()), l3, s3, log, View());
        if ok {
          CommittedIsSettled(log, View(), part, old(consumers)[c].pos[part]);
        }
      }
    }

    /** SubscribeTopics; a consumer on its own is given every partition. */
    method Subscribe(c: nat, quiet: bool)
      requires Valid() && c !in consumers
      modifies this
      ensures Valid() && c in consumers && consumers[c].work.Resting? && log == old(log)
      ensures Kept(log, old(View()), log, View())
      ensures quiet && old(consumers) == map[] ==> Alone(log, View(), c) && committed == old(committed)
    {
      hide Inv, OffsetsOk, Kept;
      Do(Start(c));
      if quiet {
        for part := 0 to |log|
          invariant Valid() && log == old(log) && Kept(log, old(View()), log, View())
          invariant committed == old(committed) && consumers.Keys == old(consumers).Keys + {c}
          invariant consumers[c].work.Resting?
          invariant forall p: nat | p < part ::
                      && p in owner && owner[p] == c
                      && p in consumers[c].pos && consumers[c].pos[p] == CommittedOffset(View(), p)
        {
          ghost var before := View();
          Do(Assign(c, part));
          KeptOnwards(log, old(View()), log, before, log, View());
        }
      }
    }

    /** One turn of the loop in Run: an empty poll, a recoverable or fatal error, or a record. */
    method Turn(c: nat, quiet: bool) returns (ok: bool)
      requires Valid() && c in consumers && consumers[c].work.Resting?
      requires quiet ==> Alone(log, View(), c)
      modifies this
      ensures Valid() && Kept(old(log), old(View()), log, View())
      ensures if ok then c in consumers && consumers[c].work.Resting? else c !in consumers
      ensures quiet ==> ok && log == old(log) && Alone(log, View(), c)
      ensures quiet ==> Backlog(log, View()) == if Backlog(log, old(View())) == 0 then 0 else Backlog(log, old(View())) - 1
    {
      hide Inv, OffsetsOk, Kept;
      Interfere(c, quiet);
      if !quiet {
        ghost var before, records := View(), log;
        Rebalance(c);
        KeptOnwards(old(log), old(View()), records, before, log, View());
      }
      var next := NextPartition(c);
      var empty: bool, fatal: bool := *, *;
      ghost var before, records := View(), log;
      ok := true;
      if next.Some? && (quiet || !empty) {
        BacklogCounts(log, View());
        ok := Consume(c, next.value, quiet);
        KeptOnwards(old(log), old(View()), records, before, log, View());
        if quiet {
          BacklogCounts(log, View());
          BacklogShrinks(log, before, View(), next.value);
        }
      } else if fatal && !quiet {
        Exit(c);
        KeptOnwards(old(log), old(View()), records, before, log, View());
        ok := false;
      } else if quiet {
        NothingToRead(log, View(), c);
      }
    }

    /**
     Run, for at most `polls` turns. Whatever happens, what was announced stays announced; left in peace,
     the consumer has committed every record after as many turns as there were uncommitted ones.
     */
    method Run(c: nat, polls: nat, quiet: bool) returns (ok: bool)
      requires Valid() && c !in consumers
      modifies this
      ensures Valid() && c !in consumers && Kept(old(log), old(View()), log, View())
      ensures quiet && old(consumers) == map[] && Backlog(old(log), old(View())) <= polls ==>
                log == old(log) && CaughtUp(log, View())
    {
      hide Inv, OffsetsOk, Kept, Backlog, Alone, CaughtUp;
      var alone := quiet && consumers == map[];
      BacklogCounts(log, View());
      Subscribe(c, alone);
      ghost var start := Backlog(log, old(View()));
      SameBacklog(log, old(View()), View());
      ok := true;
      for n := 0 to polls
        invariant Valid() && c in consumers && consumers[c].work.Resting?
        invariant Kept(old(log), old(View()), log, View())
        invariant alone ==> log == old(log) && Alone(log, View(), c)
        invariant alone ==> Backlog(log, View()) == if start <= n then 0 else start - n
      {
        var stopped: bool := *;
        if stopped && !alone {
          break;
        }
        ghost var before, records := View(), log;
        ok := Turn(c, alone);
        KeptOnwards(old(log), old(View()), records, before, log, View());
        if !ok {
          return;
        }
      }
      BacklogCounts(log, View());
      ghost var before, records := View(), log;
      Exit(c);
      KeptOnwards(old(log), old(View()), records, before, log, View());
      SameBacklog(log, before, View());
      BacklogCounts(log, View());
    }
  }

  lemma SameBacklog(log: Log, s: State, s': State)
    ensures s.committed == s'.committed ==> Backlog(log, s') == Backlog(log, s)
  {
    if s.committed == s'.committed {
      LagSame(log, s, s', |log|);
    }
  }

  /** The committed offsets after one record of partition `part`. */
  lemma BacklogShrinks(log: Log, s: State, s': State, part: nat)
    requires part < |log| && s'.committed == s.committed[part := CommittedOffset(s, part) + 1]
    ensures Backlog(log, s') == Backlog(log, s) - 1
  {
    LagAfterOne(log, s, s', part, |log|);
  }

  lemma BacklogCounts(log: Log, s: State)
    requires OffsetsOk(log, s)
    ensures Backlog(log, s) >= 0 && (Backlog(log, s) == 0 <==> CaughtUp(log, s))
  {
    OffsetsInLog(log, s);
    LagCounts(log, s, |log|);
  }

  /** A consumer on its own that finds nothing to read has read everything. */
  lemma NothingToRead(log: Log, s: State, c: nat)
    requires OffsetsOk(log, s) && Alone(log, s, c)
    requires forall part: nat | part in s.consumers[c].pos :: !InLog(log, part, s.consumers[c].pos[part])
    ensures Backlog(log, s) == 0
  {
    OffsetsInLog(log, s);
    LagCounts(log, s, |log|);
  }

  lemma NewNotice(log: Log, s: State, log': Log, s': State, c: nat, n: Uuid)
    requires Kept(log, s, log', s') && FreshNotice(s', c, n)
    ensures n !in s.notifications
  {
  }

  /** What lies below a committed offset is settled. */
  lemma CommittedIsSettled(log: Log, s: State, part: nat, off: nat)
    requires OffsetsOk(log, s) && part in s.committed && s.committed[part] == off + 1
    ensures InLog(log, part, off) && Settled(log, s, part, off)
  {
    assert SettledBelow(log, s, part, s.committed[part]);
  }

  lemma StillInLog(log: Log, s: State, log': Log, s': State, part: nat, off: nat)
    requires Kept(log, s, log', s') && InLog(log, part, off)
    ensures InLog(log', part, off)
  {
  }

  lemma ProcessedIsAnnounced(log: Log, s: State, id: Uuid)
    requires Inv(log, s) && id in s.processed
    ensures Announced(s, id)
  {
  }
}
