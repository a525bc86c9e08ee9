/**
 The whole pipeline: API processes, publishers and consumers interleaved step by step. A commit of
 the order service puts its event into the outbox; the consumers read what the publishers append.
 */
module EndToEnd {
  import opened Types
  import opened Messages
  import A = OrderMachine
  import AI = OrderInvariants
  import B = OutboxMachine
  import BI = OutboxInvariants
  import BT = OutboxTheorems
  import C = DeliveryMachine
  import CI = DeliveryInvariants

  datatype Config = Config(service: A.Config, broker: B.Config)

  datatype System = System(service: A.State, outbox: B.State, delivery: C.State)

  datatype Step = Service(a: A.Step) | Publisher(b: B.Step) | Consumer(c: C.Step)

  function Init(cfg: Config): System {
    System(A.Init(), B.Init(cfg.broker), C.Init())
  }

  /** The event that the commit of a service transaction adds to the outbox table. */
  function NewEvent(sys: System, step: A.Step): Event
    requires step.Commit? && A.Running(sys.service, step.p)
    requires A.Complete(sys.service.procs[step.p].request, sys.service.procs[step.p].tx)
  {
    sys.service.procs[step.p].tx.event.value
  }

  ghost predicate Enabled(cfg: Config, sys: System, step: Step) {
    match step
    case Service(a) =>
      && A.Enabled(cfg.service, sys.service, a)
      && (a.Commit? ==> B.Enabled(cfg.broker, sys.outbox, B.Insert(NewEvent(sys, a))))
    case Publisher(b) => !b.Insert? && B.Enabled(cfg.broker, sys.outbox, b)
    case Consumer(c) => C.Enabled(sys.outbox.log, sys.delivery, c)
  }

  ghost function Apply(cfg: Config, sys: System, step: Step): System
    requires Enabled(cfg, sys, step)
  {
    match step
    case Service(a) =>
      System(A.Apply(cfg.service, sys.service, a),
             if a.Commit? then B.Apply(cfg.broker, sys.outbox, B.Insert(NewEvent(sys, a))) else sys.outbox,
             sys.delivery)
    case Publisher(b) => sys.(outbox := B.Apply(cfg.broker, sys.outbox, b))
    case Consumer(c) => sys.(delivery := C.Apply(sys.outbox.log, sys.delivery, c))
  }

  ghost function Exec(cfg: Config, steps: seq<Step>): Option<System> {
    if steps == [] then Some(Init(cfg))
    else
      var before := Exec(cfg, steps[..|steps| - 1]);
      if before.Some? && Enabled(cfg, before.value, steps[|steps| - 1])
      then Some(Apply(cfg, before.value, steps[|steps| - 1]))
      else None
  }

  /******* Invariant *******/

  /** The publisher's rows are the service's outbox table. */
  ghost predicate Linked(sys: System) {
    && |sys.outbox.rows| == |sys.service.db.outbox|
    && forall i | 0 <= i < |sys.outbox.rows| :: sys.outbox.rows[i].event == sys.service.db.outbox[i]
  }

  ghost predicate Inv(cfg: Config, sys: System) {
    && AI.Inv(cfg.service, sys.service)
    && BI.Inv(cfg.broker, sys.outbox)
    && CI.Inv(sys.outbox.log, sys.delivery)
    && Linked(sys)
  }

  lemma InsertEnabled(cfg: Config, sys: System, e: Event)
    requires BI.Sized(cfg.broker, sys.outbox) && Linked(sys) && AI.EventIdNew(sys.service.db, e.id)
    ensures B.Enabled(cfg.broker, sys.outbox, B.Insert(e))
  {
    forall r | r in sys.outbox.rows
      ensures r.event.id != e.id
    {
      var k :| 0 <= k < |sys.outbox.rows| && sys.outbox.rows[k] == r;
      assert sys.service.db.outbox[k] in sys.service.db.outbox;
    }
  }

  /** The commit of a service transaction is never held up by the outbox: its event id is new there. */
  lemma InsertAlwaysPossible(cfg: Config, sys: System, a: A.Step)
    requires Inv(cfg, sys) && A.Enabled(cfg.service, sys.service, a)
    ensures Enabled(cfg, sys, Service(a))
  {
    hide AI.Inv, BI.Inv, CI.Inv, AI.TxOk, B.Enabled, Linked;
    if a.Commit? {
      var proc := sys.service.procs[a.p];
      AI.ProcIsOk(cfg.service, sys.service, a.p);
      BI.SizeOfInv(cfg.broker, sys.outbox);
      AI.NewEventId(cfg.service, sys.service.db, proc.request, proc.tx);
      InsertEnabled(cfg, sys, proc.tx.event.value);
    }
  }

  lemma ServiceKeepsLink(cfg: Config, sys: System, a: A.Step)
    requires Linked(sys) && Enabled(cfg, sys, Service(a))
    ensures Linked(Apply(cfg, sys, Service(a)))
  {
  }

  lemma InsertKeepsLog(cfg: Config, s: B.State, e: Event)
    requires B.Enabled(cfg.broker, s, B.Insert(e))
    ensures B.Apply(cfg.broker, s, B.Insert(e)).log == s.log
  {
  }

  lemma ServiceKeepsInv(cfg: Config, sys: System, a: A.Step)
    requires Inv(cfg, sys) && Enabled(cfg, sys, Service(a))
    ensures Inv(cfg, Apply(cfg, sys, Service(a)))
  {
    hide Linked, AI.Inv, BI.Inv, CI.Inv, A.Apply, B.Apply, B.Enabled, NewEvent;
    ServiceKeepsLink(cfg, sys, a);
    AI.StepKeepsInv(cfg.service, sys.service, a);
    if a.Commit? {
      BI.StepKeepsInv(cfg.broker, sys.outbox, B.Insert(NewEvent(sys, a)));
      InsertKeepsLog(cfg, sys.outbox, NewEvent(sys, a));
    }
  }

  lemma PublisherKeepsInv(cfg: Config, sys: System, b: B.Step)
    requires Inv(cfg, sys) && Enabled(cfg, sys, Publisher(b))
    ensures Inv(cfg, Apply(cfg, sys, Publisher(b)))
  {
    hide AI.Inv, BI.Inv, CI.Inv, B.Enabled, B.Apply;
    BI.StepKeepsInv(cfg.broker, sys.outbox, b);
    BI.RowsStay(cfg.broker, sys.outbox, b);
    BI.RowsAdded(cfg.broker, sys.outbox, b);
    BI.LogGrows(cfg.broker, sys.outbox, b);
    CI.LongerLogKeepsInv(sys.outbox.log, B.Apply(cfg.broker, sys.outbox, b).log, sys.delivery);
    var sys' := Apply(cfg, sys, Publisher(b));
    assert sys'.outbox == B.Apply(cfg.broker, sys.outbox, b) && sys'.service == sys.service;
    assert CI.Inv(sys'.outbox.log, sys'.delivery) && Linked(sys');
  }

  lemma ConsumerKeepsInv(cfg: Config, sys: System, c: C.Step)
    requires Inv(cfg, sys) && Enabled(cfg, sys, Consumer(c))
    ensures Inv(cfg, Apply(cfg, sys, Consumer(c)))
  {
    hide AI.Inv, BI.Inv, CI.Inv, C.Enabled, C.Apply;
    CI.StepKeepsInv(sys.outbox.log, sys.delivery, c);
    var sys' := Apply(cfg, sys, Consumer(c));
    assert sys'.delivery == C.Apply(sys.outbox.log, sys.delivery, c);
  }

  lemma StepKeepsInv(cfg: Config, sys: System, step: Step)
    requires Inv(cfg, sys) && Enabled(cfg, sys, step)
    ensures Inv(cfg, Apply(cfg, sys, step))
  {
    hide Inv, Enabled, Apply;
    match step
    case Service(a) => ServiceKeepsInv(cfg, sys, a);
    case Publisher(b) => PublisherKeepsInv(cfg, sys, b);
    case Consumer(c) => ConsumerKeepsInv(cfg, sys, c);
  }

  lemma InitOk(cfg: Config)
    ensures Inv(cfg, Init(cfg))
  {
    hide AI.Inv, BI.Inv;
    AI.RunKeepsInv(cfg.service, []);
    BI.RunKeepsInv(cfg.broker, []);
  }

  lemma {:induction false} RunKeepsInv(cfg: Config, steps: seq<Step>)
    requires Exec(cfg, steps).Some?
    ensures Inv(cfg, Exec(cfg, steps).value)
  {
    hide Inv, Enabled, Apply, Init;
    InitOk(cfg);
    if steps != [] {
      RunKeepsInv(cfg, steps[..|steps| - 1]);
      StepKeepsInv(cfg, Exec(cfg, steps[..|steps| - 1]).value, steps[|steps| - 1]);
    }
  }

  /******* Exactly once, end to end *******/

  predicate Notifies(sys: System, n: Uuid, e: Event) {
    n in sys.delivery.notifications && sys.delivery.notifications[n].eventId == e.id
  }

  /** Index `i` of the outbox is the event that a record accepted by the consumer came from. */
  lemma SourceOf(cfg: Config, sys: System, part: nat, off: nat) returns (i: nat)
    requires BI.LogOk(cfg.broker, sys.outbox) && Linked(sys)
    requires C.InLog(sys.outbox.log, part, off) && C.VerdictAt(sys.outbox.log, part, off).Accepted?
    ensures i < |sys.service.db.outbox|
    ensures
      var v, e := C.VerdictAt(sys.outbox.log, part, off), sys.service.db.outbox[i];
      v.eventId == e.id && v.user == IdText(e.payload.userId)
  {
    var r := sys.outbox.log[part][off];
    assert Decode(r.value).Discarded? || BI.FromRow(cfg.broker, sys.outbox, part, r);
    i :| BI.IsRow(cfg.broker, sys.outbox, part, r, i);
    ConsumerAcceptsPublisher(sys.outbox.rows[i].event);
  }

  lemma EventUser(cfg: Config, db: A.Db, i: nat)
    requires AI.OutboxOk(db) && i < |db.outbox|
    ensures db.outbox[i].partitionKey in db.orders
    ensures db.outbox[i].payload.userId == db.orders[db.outbox[i].partitionKey].userId
  {
    assert AI.EventFits(db, db.outbox[i]);
  }

  /** `n` belongs to event `i`, which has no other notification, and goes to the user of its order. */
  ghost predicate SoundNotification(sys: System, n: Uuid, i: nat) {
    var db := sys.service.db;
    && i < |db.outbox| && Notifies(sys, n, db.outbox[i])
    && (forall m :: Notifies(sys, m, db.outbox[i]) ==> m == n)
    && db.outbox[i].partitionKey in db.orders
    && sys.delivery.notifications[n].recipient == IdText(db.orders[db.outbox[i].partitionKey].userId)
    && sys.delivery.notifications[n].channel == "email" && sys.delivery.notifications[n].status == "sent"
  }

  lemma SoundAt(cfg: Config, sys: System, n: Uuid) returns (i: nat)
    requires CI.SourcesOk(sys.outbox.log, sys.delivery) && CI.EffectsOk(sys.delivery)
    requires BI.LogOk(cfg.broker, sys.outbox) && Linked(sys) && AI.OutboxOk(sys.service.db)
    requires n in sys.delivery.notifications
    ensures SoundNotification(sys, n, i)
  {
    hide Linked, BI.LogOk, AI.OutboxOk;
    var part: nat, off: nat :| CI.ReadFrom(sys.outbox.log, part, off, sys.delivery.notifications[n]);
    i := SourceOf(cfg, sys, part, off);
    EventUser(cfg, sys.service.db, i);
  }

  /**
   In every state of every run: an event has at most one notification, and a notification belongs to
   a committed event and goes to the user of that event's order.
   */
  lemma NotificationsAreSound(cfg: Config, steps: seq<Step>, n: Uuid) returns (i: nat)
    requires Exec(cfg, steps).Some? && n in Exec(cfg, steps).value.delivery.notifications
    ensures SoundNotification(Exec(cfg, steps).value, n, i)
  {
    RunKeepsInv(cfg, steps);
    i := SoundAt(cfg, Exec(cfg, steps).value, n);
  }

  /** Nothing is left to do: every row is published, and the group has committed every record. */
  ghost predicate Quiescent(sys: System) {
    && (forall i | 0 <= i < |sys.outbox.rows| :: sys.outbox.rows[i].published)
    && (forall part | 0 <= part < |sys.outbox.log| ::
          C.CommittedOffset(sys.delivery, part) == |sys.outbox.log[part]|)
  }

  lemma CommittedRecordsSettled(cfg: Config, sys: System, part: nat, off: nat)
    requires CI.OffsetsOk(sys.outbox.log, sys.delivery)
    requires C.InLog(sys.outbox.log, part, off) && off < C.CommittedOffset(sys.delivery, part)
    ensures CI.Settled(sys.outbox.log, sys.delivery, part, off)
  {
    assert CI.SettledBelow(sys.outbox.log, sys.delivery, part, sys.delivery.committed[part]);
  }

  lemma QuiescentEventProcessed(cfg: Config, sys: System, i: nat)
    requires Inv(cfg, sys) && Quiescent(sys) && i < |sys.service.db.outbox|
    ensures sys.service.db.outbox[i].id in sys.delivery.processed
  {
    var e := sys.outbox.rows[i].event;
    var off := BT.FindCopy(cfg.broker, sys.outbox, i);
    var part := BI.PartitionOfRow(cfg.broker, sys.outbox, i);
    CommittedRecordsSettled(cfg, sys, part, off);
    ConsumerAcceptsPublisher(e);
  }

  lemma ExactlyOnceAt(cfg: Config, sys: System, i: nat) returns (n: Uuid)
    requires CI.SourcesOk(sys.outbox.log, sys.delivery) && CI.EffectsOk(sys.delivery)
    requires BI.LogOk(cfg.broker, sys.outbox) && Linked(sys) && AI.OutboxOk(sys.service.db)
    requires i < |sys.service.db.outbox| && sys.service.db.outbox[i].id in sys.delivery.processed
    ensures SoundNotification(sys, n, i)
  {
    n :| CI.Announces(sys.delivery, n, sys.service.db.outbox[i].id);
    var j := SoundAt(cfg, sys, n);
    EventIdsDiffer(cfg, sys, i, j);
  }

  /** With nothing left to do every committed event has exactly one notification, sent to its user. */
  lemma QuiescentExactlyOnce(cfg: Config, steps: seq<Step>, i: nat) returns (n: Uuid)
    requires Exec(cfg, steps).Some? && Quiescent(Exec(cfg, steps).value)
    requires i < |Exec(cfg, steps).value.service.db.outbox|
    ensures SoundNotification(Exec(cfg, steps).value, n, i)
  {
    RunKeepsInv(cfg, steps);
    QuiescentEventProcessed(cfg, Exec(cfg, steps).value, i);
    n := ExactlyOnceAt(cfg, Exec(cfg, steps).value, i);
  }

  lemma EventIdsDiffer(cfg: Config, sys: System, i: nat, j: nat)
    requires AI.OutboxOk(sys.service.db) && i < |sys.service.db.outbox| && j < |sys.service.db.outbox|
    requires sys.service.db.outbox[i].id == sys.service.db.outbox[j].id
    ensures i == j
  {
  }

  /******* Counting *******/

  function EventIds(outbox: seq<Event>): set<Uuid> {
    set i | 0 <= i < |outbox| :: outbox[i].id
  }

  lemma {:induction false} CountEvents(outbox: seq<Event>)
    requires forall i, j | 0 <= i < j < |outbox| :: outbox[i].id != outbox[j].id
    ensures |EventIds(outbox)| == |outbox|
  {
    if outbox != [] {
      var init, last := outbox[..|outbox| - 1], outbox[|outbox| - 1];
      CountEvents(init);
      assert EventIds(outbox) == EventIds(init) + {last.id};
      assert last.id !in EventIds(init);
    }
  }

  function Announced(ns: map<Uuid, C.Notification>): set<Uuid> {
    set n | n in ns :: ns[n].eventId
  }

  lemma {:induction false} CountAnnounced(ns: map<Uuid, C.Notification>)
    requires forall m, n | m in ns && n in ns && ns[m].eventId == ns[n].eventId :: m == n
    ensures |Announced(ns)| == |ns|
    decreases |ns|
  {
    if ns != map[] {
      assert |ns| > 0;
      var n :| n in ns;
      CountAnnounced(ns - {n});
      var rest := ns - {n};
      assert rest.Keys == ns.Keys - {n} && |rest| == |ns| - 1;
      assert forall m | m in rest :: rest[m] == ns[m];
      forall id | id in Announced(ns)
        ensures id in Announced(rest) + {ns[n].eventId}
      {
        var m :| m in ns && ns[m].eventId == id;
        assert m == n || m in rest;
      }
      assert Announced(ns) == Announced(rest) + {ns[n].eventId};
    } else {
      assert Announced(ns) == {};
    }
  }

  lemma AllAnnounced(cfg: Config, sys: System)
    requires Inv(cfg, sys) && Quiescent(sys)
    ensures forall id | id in EventIds(sys.service.db.outbox) :: id in Announced(sys.delivery.notifications)
  {
    forall id | id in EventIds(sys.service.db.outbox)
      ensures id in Announced(sys.delivery.notifications)
    {
      var i :| 0 <= i < |sys.service.db.outbox| && sys.service.db.outbox[i].id == id;
      QuiescentEventProcessed(cfg, sys, i);
      var n :| CI.Announces(sys.delivery, n, id);
      assert sys.delivery.notifications[n].eventId == id;
    }
  }

  lemma NothingElseAnnounced(cfg: Config, sys: System)
    requires Inv(cfg, sys)
    ensures forall id | id in Announced(sys.delivery.notifications) :: id in EventIds(sys.service.db.outbox)
  {
    forall id | id in Announced(sys.delivery.notifications)
      ensures id in EventIds(sys.service.db.outbox)
    {
      var n :| n in sys.delivery.notifications && sys.delivery.notifications[n].eventId == id;
      var i := SoundAt(cfg, sys, n);
    }
  }

  lemma CountsAt(cfg: Config, sys: System)
    requires AI.OutboxOk(sys.service.db) && AI.CountsOk(sys.service.db) && CI.EffectsOk(sys.delivery)
    requires EventIds(sys.service.db.outbox) == Announced(sys.delivery.notifications)
    ensures
      var db := sys.service.db;
      |sys.delivery.notifications|
      == |db.orders| + |db.payments| + |set o | o in db.orders && db.orders[o].status == Cancelled|
  {
    var db := sys.service.db;
    AI.OnesCount(db.orders);
    assert AI.CancelledOrders(db.orders) == set o | o in db.orders && db.orders[o].status == Cancelled;
    CountEvents(sys.service.db.outbox);
    CountAnnounced(sys.delivery.notifications);
  }

  /**
   With nothing left to do the customers have been told everything once: one notification for every
   order created, every payment attempted and every order cancelled.
   */
  lemma QuiescentCount(cfg: Config, steps: seq<Step>)
    requires Exec(cfg, steps).Some? && Quiescent(Exec(cfg, steps).value)
    ensures
      var sys := Exec(cfg, steps).value;
      var db := sys.service.db;
      |sys.delivery.notifications|
      == |db.orders| + |db.payments| + |set o | o in db.orders && db.orders[o].status == Cancelled|
  {
    hide Exec;
    RunKeepsInv(cfg, steps);
    var sys := Exec(cfg, steps).value;
    AllAnnounced(cfg, sys);
    NothingElseAnnounced(cfg, sys);
    assert EventIds(sys.service.db.outbox) == Announced(sys.delivery.notifications);
    CountsAt(cfg, sys);
  }

  /** A committed offset is never ahead of the work: each record below it is processed or was invalid. */
  lemma OffsetsAreSafe(cfg: Config, steps: seq<Step>, part: nat, off: nat)
    requires Exec(cfg, steps).Some? && off < C.CommittedOffset(Exec(cfg, steps).value.delivery, part)
    ensures
      var sys := Exec(cfg, steps).value;
      && C.InLog(sys.outbox.log, part, off)
      && (var v := C.VerdictAt(sys.outbox.log, part, off);
          v.Accepted? ==> v.eventId in sys.delivery.processed)
  {
    RunKeepsInv(cfg, steps);
    var sys := Exec(cfg, steps).value;
    assert CI.SettledBelow(sys.outbox.log, sys.delivery, part, sys.delivery.committed[part]);
    CommittedRecordsSettled(cfg, sys, part, off);
  }

  /** Nobody but the publishers writes to the topic. */
  predicate OwnTopic(steps: seq<Step>) {
    forall i | 0 <= i < |steps| :: !(steps[i].Publisher? && steps[i].b.Foreign?)
  }

  lemma {:induction false} OwnLogAccepted(cfg: Config, steps: seq<Step>)
    requires Exec(cfg, steps).Some? && OwnTopic(steps)
    ensures BT.AllAccepted(Exec(cfg, steps).value.outbox.log)
  {
    if steps != [] {
      hide BT.AllAccepted, A.Enabled, A.Apply, B.Enabled, B.Apply, C.Enabled, C.Apply;
      var init, last := steps[..|steps| - 1], steps[|steps| - 1];
      OwnLogAccepted(cfg, init);
      var sys := Exec(cfg, init).value;
      match last
      case Service(a) => if a.Commit? { InsertKeepsLog(cfg, sys.outbox, NewEvent(sys, a)); }
      case Publisher(b) => BT.PublishedIsAccepted(cfg.broker, sys.outbox, b);
      case Consumer(_) =>
    }
  }

  /** On a topic of their own, everything the publishers send is accepted and no consumer ever discards a record. */
  lemma NothingIsDiscarded(cfg: Config, steps: seq<Step>, c: nat)
    requires Exec(cfg, steps).Some? && OwnTopic(steps)
    ensures
      var sys := Exec(cfg, steps).value;
      BT.AllAccepted(sys.outbox.log) && !C.Enabled(sys.outbox.log, sys.delivery, C.Discard(c))
  {
    hide Exec;
    OwnLogAccepted(cfg, steps);
  }
}
