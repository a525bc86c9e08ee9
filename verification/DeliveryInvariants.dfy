/** What every interleaving of consumers keeps: offsets only pass settled records, effects happen once. */
module DeliveryInvariants {
  import opened Types
  import opened Messages
  import opened DeliveryMachine

  /** The record needs no further work: it was discarded as invalid, or its event was processed. */
  predicate Settled(log: Log, s: State, part: nat, off: nat)
    requires InLog(log, part, off)
  {
    var v := VerdictAt(log, part, off);
    v.Discarded? || v.eventId in s.processed
  }

  predicate SettledBelow(log: Log, s: State, part: nat, n: nat) {
    n == 0 || (part < |log| && n <= |log[part]| && forall off: nat | off < n :: Settled(log, s, part, off))
  }

  ghost predicate OffsetsOk(log: Log, s: State) {
    && (forall part | part in s.committed :: SettledBelow(log, s, part, s.committed[part]))
    && (forall c | c in s.consumers :: PositionsOk(log, s, s.consumers[c]) && WorkOk(log, s, s.consumers[c].work))
  }

  ghost predicate PositionsOk(log: Log, s: State, k: Consumer) {
    forall part | part in k.pos :: SettledBelow(log, s, part, k.pos[part])
  }

  predicate WorkOk(log: Log, s: State, w: Work) {
    !w.Resting? ==>
      && InLog(log, w.part, w.off)
      && SettledBelow(log, s, w.part, if w.Handled? then w.off + 1 else w.off)
      && (w.Inserted? || w.Notified? ==>
            && VerdictAt(log, w.part, w.off).Accepted?
            && VerdictAt(log, w.part, w.off).eventId == w.eventId && VerdictAt(log, w.part, w.off).user == w.user
            && w.eventId !in s.processed)
      && (w.Notified? ==> w.noticeId !in s.notifications)
  }

  predicate Apart(a: Consumer, b: Consumer) {
    && (a.work.Inserted? || a.work.Notified? ==> !PendingEvent(b, a.work.eventId))
    && (a.work.Notified? ==> !PendingNotice(b, a.work.noticeId))
  }

  ghost predicate Exclusive(s: State) {
    forall c, d | c in s.consumers && d in s.consumers && c != d :: Apart(s.consumers[c], s.consumers[d])
  }

  predicate Announces(s: State, n: Uuid, id: Uuid) {
    n in s.notifications && s.notifications[n].eventId == id
  }

  /** A processed event has exactly one notification, and a notification only a processed event. */
  ghost predicate EffectsOk(s: State) {
    && (forall id | id in s.processed :: exists n :: Announces(s, n, id))
    && (forall n | n in s.notifications :: s.notifications[n].eventId in s.processed)
    && (forall m, n | m in s.notifications && n in s.notifications
                      && s.notifications[m].eventId == s.notifications[n].eventId :: m == n)
  }

  predicate ReadFrom(log: Log, part: nat, off: nat, n: Notification) {
    && InLog(log, part, off) && VerdictAt(log, part, off).Accepted?
    && VerdictAt(log, part, off).eventId == n.eventId && VerdictAt(log, part, off).user == n.recipient
    && n.channel == "email" && n.status == "sent"
  }

  /** Every notification repeats what some record of the log says. */
  ghost predicate SourcesOk(log: Log, s: State) {
    forall n | n in s.notifications :: exists part: nat, off: nat :: ReadFrom(log, part, off, s.notifications[n])
  }

  ghost predicate Inv(log: Log, s: State) {
    OffsetsOk(log, s) && Exclusive(s) && EffectsOk(s) && SourcesOk(log, s)
  }

  lemma SettledStays(log: Log, s: State, step: Step, part: nat, n: nat)
    requires Enabled(log, s, step) && SettledBelow(log, s, part, n)
    ensures SettledBelow(log, Apply(log, s, step), part, n)
  {
    forall off: nat | off < n
      ensures Settled(log, Apply(log, s, step), part, off)
    {
      assert Settled(log, s, part, off);
    }
  }

  lemma KeepsWork(log: Log, s: State, step: Step, c: nat)
    requires OffsetsOk(log, s) && Exclusive(s) && Enabled(log, s, step) && c in Apply(log, s, step).consumers
    ensures WorkOk(log, Apply(log, s, step), Apply(log, s, step).consumers[c].work)
  {
    var s' := Apply(log, s, step);
    if c in s.consumers {
      var w, w' := s.consumers[c].work, s'.consumers[c].work;
      if !w'.Resting? {
        if step.Poll? && step.c == c {
          SettledStays(log, s, step, w'.part, w'.off);
        } else {
          SettledStays(log, s, step, w.part, w.off);
          if w.Handled? {
            SettledStays(log, s, step, w.part, w.off + 1);
          }
          if step.CommitTx? && step.c != c {
            assert Apart(s.consumers[step.c], s.consumers[c]);
          }
        }
      }
    }
  }

  lemma KeepsPositions(log: Log, s: State, step: Step, c: nat)
    requires OffsetsOk(log, s) && Enabled(log, s, step) && c in Apply(log, s, step).consumers
    ensures PositionsOk(log, Apply(log, s, step), Apply(log, s, step).consumers[c])
  {
    var s' := Apply(log, s, step);
    forall part | part in s'.consumers[c].pos
      ensures SettledBelow(log, s', part, s'.consumers[c].pos[part])
    {
      SettledStays(log, s, step, part, s'.consumers[c].pos[part]);
    }
  }

  lemma KeepsCommitted(log: Log, s: State, step: Step)
    requires OffsetsOk(log, s) && Enabled(log, s, step)
    ensures forall part | part in Apply(log, s, step).committed ::
              SettledBelow(log, Apply(log, s, step), part, Apply(log, s, step).committed[part])
  {
    var s' := Apply(log, s, step);
    forall part | part in s'.committed
      ensures SettledBelow(log, s', part, s'.committed[part])
    {
      SettledStays(log, s, step, part, s'.committed[part]);
    }
  }

  lemma KeepsApart(log: Log, s: State, step: Step, c: nat, d: nat)
    requires Exclusive(s) && Enabled(log, s, step) && c != d
    requires c in Apply(log, s, step).consumers && d in Apply(log, s, step).consumers
    ensures Apart(Apply(log, s, step).consumers[c], Apply(log, s, step).consumers[d])
  {
    assert c in s.consumers && d in s.consumers ==> Apart(s.consumers[c], s.consumers[d]);
  }

  lemma KeepsExclusive(log: Log, s: State, step: Step)
    requires Exclusive(s) && Enabled(log, s, step)
    ensures Exclusive(Apply(log, s, step))
  {
    forall c, d | c in Apply(log, s, step).consumers && d in Apply(log, s, step).consumers && c != d
      ensures Apart(Apply(log, s, step).consumers[c], Apply(log, s, step).consumers[d])
    {
      hide Apply, Enabled, Apart;
      KeepsApart(log, s, step, c, d);
    }
  }

  lemma KeepsEffects(log: Log, s: State, step: Step)
    requires OffsetsOk(log, s) && EffectsOk(s) && Enabled(log, s, step)
    ensures EffectsOk(Apply(log, s, step))
  {
    var s' := Apply(log, s, step);
    forall id | id in s'.processed
      ensures exists n :: Announces(s', n, id)
    {
      if id in s.processed {
        var n :| Announces(s, n, id);
        if step.CommitTx? {
          assert WorkOk(log, s, s.consumers[step.c].work);
        }
        assert Announces(s', n, id);
      } else {
        assert Announces(s', s.consumers[step.c].work.noticeId, id);
      }
    }
    if step.CommitTx? {
      assert WorkOk(log, s, s.consumers[step.c].work);
    }
  }

  lemma KeepsSources(log: Log, s: State, step: Step)
    requires OffsetsOk(log, s) && SourcesOk(log, s) && Enabled(log, s, step)
    ensures SourcesOk(log, Apply(log, s, step))
  {
    if step.CommitTx? {
      var w := s.consumers[step.c].work;
      assert WorkOk(log, s, w);
      assert ReadFrom(log, w.part, w.off, Notification(w.eventId, w.user, "email", "sent"));
    }
  }

  lemma StepKeepsInv(log: Log, s: State, step: Step)
    requires Inv(log, s) && Enabled(log, s, step)
    ensures Inv(log, Apply(log, s, step))
  {
    var s' := Apply(log, s, step);
    KeepsCommitted(log, s, step);
    KeepsExclusive(log, s, step);
    KeepsEffects(log, s, step);
    KeepsSources(log, s, step);
    forall c | c in s'.consumers
      ensures PositionsOk(log, s', s'.consumers[c]) && WorkOk(log, s', s'.consumers[c].work)
    {
      KeepsPositions(log, s, step, c);
      KeepsWork(log, s, step, c);
    }
  }

  /******* A growing log *******/

  predicate Longer(log: Log, log': Log) {
    |log| <= |log'| && forall part: nat | part < |log| :: log[part] <= log'[part]
  }

  lemma LongerLogKeepsInv(log: Log, log': Log, s: State)
    requires Inv(log, s) && Longer(log, log')
    ensures Inv(log', s)
  {
    forall part: nat, n: nat | SettledBelow(log, s, part, n)
      ensures SettledBelow(log', s, part, n)
    {
      forall off: nat | off < n
        ensures InLog(log', part, off) && Settled(log', s, part, off)
      {
        assert Settled(log, s, part, off);
      }
    }
    forall n | n in s.notifications
      ensures exists part: nat, off: nat :: ReadFrom(log', part, off, s.notifications[n])
    {
      var part: nat, off: nat :| ReadFrom(log, part, off, s.notifications[n]);
      assert ReadFrom(log', part, off, s.notifications[n]);
    }
  }
}
