/**
 The order service behind the Redis lock: a process takes the order's lock before it pays or cancels,
 and releases it afterwards. Events carry the start time of their transaction; the lock is what makes
 that time agree with the order of commits.
 */
module LockedService {
  import opened Types
  import A = OrderMachine
  import AI = OrderInvariants
  import L = OrderLock

  datatype Config = Config(service: A.Config, ttl: nat)

  /** Under which lock section, and when, an outbox row was committed. */
  datatype Stamp = Stamp(section: Option<nat>, at: nat)

  datatype System = System(service: A.State, lock: L.State, holding: map<nat, nat>, stamps: seq<Stamp>)

  datatype Step =
    | Tick
    | Lock(p: nat, key: Text)
    | Serve(a: A.Step)
    | Unlock(p: nat)
    | UnlockFails(p: nat)

  function Init(): System {
    System(A.Init(), L.Init(), map[], [])
  }

  predicate Guarded(r: A.Request) {
    r.PayRequest? || r.CancelRequest?
  }

  predicate HoldsFor(sys: System, p: nat, r: A.Request)
    requires Guarded(r)
  {
    && p in sys.holding && sys.holding[p] < |sys.lock.sections|
    && r.orderId == sys.lock.sections[sys.holding[p]].key
  }

  ghost predicate Enabled(cfg: Config, sys: System, step: Step) {
    match step
    case Tick => true
    case Lock(p, key) => p !in sys.holding && p !in sys.service.procs && L.Enabled(cfg.ttl, sys.lock, L.Acquire(key))
    case Serve(a) =>
      && !a.Tick? && A.Enabled(cfg.service, sys.service, a)
      && (a.Receive? && Guarded(a.request) ==> HoldsFor(sys, a.p, a.request))
      && (a.Commit? && Guarded(sys.service.procs[a.p].request) ==> a.p in sys.holding)
    case Unlock(p) =>
      p in sys.holding && p !in sys.service.procs && L.Enabled(cfg.ttl, sys.lock, L.Release(sys.holding[p]))
    case UnlockFails(p) => p in sys.holding && p !in sys.service.procs
  }

  ghost function StampFor(sys: System, a: A.Step): Stamp
    requires a.Commit? && a.p in sys.service.procs
    requires Guarded(sys.service.procs[a.p].request) ==> a.p in sys.holding
  {
    Stamp(if Guarded(sys.service.procs[a.p].request) then Some(sys.holding[a.p]) else None, sys.service.clock)
  }

  ghost function Apply(cfg: Config, sys: System, step: Step): System
    requires Enabled(cfg, sys, step)
  {
    match step
    case Tick =>
      sys.(service := A.Apply(cfg.service, sys.service, A.Tick), lock := L.Apply(cfg.ttl, sys.lock, L.Tick))
    case Lock(p, key) =>
      sys.(lock := L.Apply(cfg.ttl, sys.lock, L.Acquire(key)), holding := sys.holding[p := |sys.lock.sections|])
    case Serve(a) =>
      sys.(service := A.Apply(cfg.service, sys.service, a),
           holding := if a.Crash? then sys.holding - {a.p} else sys.holding,
           stamps := if a.Commit? then sys.stamps + [StampFor(sys, a)] else sys.stamps)
    case Unlock(p) =>
      sys.(lock := L.Apply(cfg.ttl, sys.lock, L.Release(sys.holding[p])), holding := sys.holding - {p})
    case UnlockFails(p) => sys.(holding := sys.holding - {p})
  }

  ghost function Exec(cfg: Config, steps: seq<Step>): Option<System> {
    if steps == [] then Some(Init())
    else
      var before := Exec(cfg, steps[..|steps| - 1]);
      if before.Some? && Enabled(cfg, before.value, steps[|steps| - 1])
      then Some(Apply(cfg, before.value, steps[|steps| - 1]))
      else None
  }

  /******* Invariant *******/

  ghost predicate HoldingOk(sys: System) {
    && sys.lock.now == sys.service.clock
    && (forall p | p in sys.holding ::
          sys.holding[p] < |sys.lock.sections| && sys.lock.sections[sys.holding[p]].until.None?)
    && (forall p, q | p in sys.holding && q in sys.holding && sys.holding[p] == sys.holding[q] :: p == q)
    && (forall p | p in sys.service.procs && Guarded(sys.service.procs[p].request) ::
          HoldsFor(sys, p, sys.service.procs[p].request))
  }

  /** A transaction under a lock began inside its section, after everything committed in that section. */
  predicate BeganInside(sys: System, p: nat) {
    p in sys.service.procs && sys.service.procs[p].InTx? && Guarded(sys.service.procs[p].request) ==>
      var at := sys.service.procs[p].tx.startedAt;
      && p in sys.holding && sys.holding[p] < |sys.lock.sections|
      && sys.lock.sections[sys.holding[p]].since <= at <= sys.lock.now
      && (forall i | 0 <= i < |sys.stamps| && sys.stamps[i].section == Some(sys.holding[p]) :: sys.stamps[i].at <= at)
  }

  predicate StampOk(sys: System, i: nat)
    requires i < |sys.stamps| && i < |sys.service.db.outbox|
  {
    var e, m := sys.service.db.outbox[i], sys.stamps[i];
    && m.at <= sys.lock.now
    && (m.section.None? <==> e.eventType.OrderCreated?)
    && (m.section.Some? ==>
          && m.section.value < |sys.lock.sections|
          && var c := sys.lock.sections[m.section.value];
          && c.key.Parse() == Some(e.partitionKey) && c.since <= e.createdAt <= m.at
          && (c.until.Some? ==> m.at <= c.until.value))
  }

  ghost predicate StampsOk(sys: System) {
    && |sys.stamps| == |sys.service.db.outbox|
    && forall i | 0 <= i < |sys.stamps| :: StampOk(sys, i)
  }

  /** Row `i` was committed while the time to live of its lock had not run out. */
  predicate Timely(ttl: nat, sys: System, i: nat)
    requires i < |sys.stamps|
  {
    var m := sys.stamps[i];
    m.section.Some? && m.section.value < |sys.lock.sections| && L.InTime(ttl, sys.lock.sections[m.section.value], m.at)
  }

  /** Row `i` was committed before row `j`, both under locks on one and the same text. */
  predicate SameLock(sys: System, i: nat, j: nat) {
    && i < j < |sys.stamps| && sys.stamps[i].section.Some? && sys.stamps[j].section.Some?
    && sys.stamps[i].section.value < |sys.lock.sections| && sys.stamps[j].section.value < |sys.lock.sections|
    && sys.lock.sections[sys.stamps[i].section.value].key == sys.lock.sections[sys.stamps[j].section.value].key
  }

  ghost predicate TimesOk(ttl: nat, sys: System)
    requires |sys.stamps| == |sys.service.db.outbox|
  {
    forall i: nat, j: nat | SameLock(sys, i, j) && Timely(ttl, sys, i) && Timely(ttl, sys, j) ::
      sys.stamps[i].at <= sys.service.db.outbox[j].createdAt
  }

  ghost predicate Inv(cfg: Config, sys: System) {
    && AI.Inv(cfg.service, sys.service) && L.Inv(cfg.ttl, sys.lock)
    && HoldingOk(sys) && (forall p :: BeganInside(sys, p)) && StampsOk(sys) && TimesOk(cfg.ttl, sys)
  }

  /** The transaction of a service step is the one its process was running. */
  lemma KeepsRequest(cfg: A.Config, s: A.State, a: A.Step, p: nat)
    requires A.Enabled(cfg, s, a) && p in A.Apply(cfg, s, a).procs
    ensures (a.Receive? && a.p == p) || p in s.procs
    ensures !(a.Receive? && a.p == p) ==> A.Apply(cfg, s, a).procs[p].request == s.procs[p].request
    ensures var proc := A.Apply(cfg, s, a).procs[p];
      proc.InTx? ==>
        || (a.Begin? && a.p == p && proc.tx.startedAt == s.clock)
        || (p in s.procs && s.procs[p].InTx? && s.procs[p].tx.startedAt == proc.tx.startedAt)
  {
  }

  lemma ServeKeepsHolding(cfg: Config, sys: System, step: Step)
    requires HoldingOk(sys) && Enabled(cfg, sys, step) && step.Serve?
    ensures HoldingOk(Apply(cfg, sys, step))
  {
    var sys' := Apply(cfg, sys, step);
    forall p | p in sys'.service.procs && Guarded(sys'.service.procs[p].request)
      ensures HoldsFor(sys', p, sys'.service.procs[p].request)
    {
      KeepsRequest(cfg.service, sys.service, step.a, p);
    }
    ClockOnlyTicks(cfg.service, sys.service, step.a);
  }

  lemma ClockOnlyTicks(cfg: A.Config, s: A.State, a: A.Step)
    requires A.Enabled(cfg, s, a) && !a.Tick?
    ensures A.Apply(cfg, s, a).clock == s.clock
    ensures a.Crash? ==> a.p !in A.Apply(cfg, s, a).procs
  {
  }

  lemma LockKeepsHolding(cfg: Config, sys: System, step: Step)
    requires HoldingOk(sys) && Enabled(cfg, sys, step) && !step.Serve?
    ensures HoldingOk(Apply(cfg, sys, step))
  {
    var sys' := Apply(cfg, sys, step);
    forall p | p in sys'.service.procs && Guarded(sys'.service.procs[p].request)
      ensures HoldsFor(sys', p, sys'.service.procs[p].request)
    {
      assert HoldsFor(sys, p, sys.service.procs[p].request);
    }
  }

  lemma KeepsHolding(cfg: Config, sys: System, step: Step)
    requires HoldingOk(sys) && Enabled(cfg, sys, step)
    ensures HoldingOk(Apply(cfg, sys, step))
  {
    if step.Serve? {
      ServeKeepsHolding(cfg, sys, step);
    } else {
      LockKeepsHolding(cfg, sys, step);
    }
  }

  lemma KeepsBegan(cfg: Config, sys: System, step: Step, p: nat)
    requires HoldingOk(sys) && StampsOk(sys) && BeganInside(sys, p) && L.SectionsOk(cfg.ttl, sys.lock)
    requires Enabled(cfg, sys, step)
    ensures BeganInside(Apply(cfg, sys, step), p)
  {
    var sys' := Apply(cfg, sys, step);
    if step.Serve? {
      if p in sys'.service.procs && sys'.service.procs[p].InTx? && Guarded(sys'.service.procs[p].request) {
        KeepsRequest(cfg.service, sys.service, step.a, p);
        assert HoldsFor(sys, p, sys.service.procs[p].request);
        forall i | 0 <= i < |sys.stamps|
          ensures sys.stamps[i].at <= sys.lock.now
        {
          assert StampOk(sys, i);
        }
      }
    }
  }

  /** A commit adds one row to the outbox, stamped with the section and the clock of its process. */
  lemma CommitAdds(cfg: Config, sys: System, step: Step)
    requires Enabled(cfg, sys, step) && StampsOk(sys)
    ensures var sys' := Apply(cfg, sys, step);
      if step.Serve? && step.a.Commit? then
        && |sys'.stamps| == |sys.stamps| + 1 && sys.stamps <= sys'.stamps
        && |sys'.service.db.outbox| == |sys.service.db.outbox| + 1 && sys.service.db.outbox <= sys'.service.db.outbox
      else sys'.stamps == sys.stamps && sys'.service.db.outbox == sys.service.db.outbox
  {
  }

  lemma OldStampOk(cfg: Config, sys: System, step: Step, i: nat)
    requires Enabled(cfg, sys, step) && StampsOk(sys) && i < |sys.stamps|
    ensures i < |Apply(cfg, sys, step).stamps| && i < |Apply(cfg, sys, step).service.db.outbox|
    ensures StampOk(Apply(cfg, sys, step), i)
  {
    CommitAdds(cfg, sys, step);
    assert StampOk(sys, i);
  }

  lemma NewStampOk(cfg: Config, sys: System, step: Step)
    requires Enabled(cfg, sys, step) && step.Serve? && step.a.Commit? && |sys.stamps| == |sys.service.db.outbox|
    requires HoldingOk(sys) && BeganInside(sys, step.a.p)
    requires AI.ProcOk(cfg.service, sys.service.db, sys.service.procs[step.a.p])
    ensures |sys.stamps| < |Apply(cfg, sys, step).stamps| && |sys.stamps| < |Apply(cfg, sys, step).service.db.outbox|
    ensures StampOk(Apply(cfg, sys, step), |sys.stamps|)
  {
    var proc := sys.service.procs[step.a.p];
    if Guarded(proc.request) {
      assert HoldsFor(sys, step.a.p, proc.request);
    }
  }

  lemma KeepsStamps(cfg: Config, sys: System, step: Step)
    requires AI.ProcsOk(cfg.service, sys.service)
    requires HoldingOk(sys) && (forall p :: BeganInside(sys, p)) && StampsOk(sys) && Enabled(cfg, sys, step)
    ensures StampsOk(Apply(cfg, sys, step))
  {
    var sys' := Apply(cfg, sys, step);
    CommitAdds(cfg, sys, step);
    forall i | 0 <= i < |sys'.stamps|
      ensures StampOk(sys', i)
    {
      if i < |sys.stamps| {
        OldStampOk(cfg, sys, step, i);
      } else {
        NewStampOk(cfg, sys, step);
      }
    }
  }

  /** If a later section of the key exists, an unreleased one has run out of time. */
  lemma NobodyElseInTime(ttl: nat, s: L.State, y: nat)
    requires L.SectionsOk(ttl, s) && L.OrderedOk(ttl, s) && y < |s.sections| && s.sections[y].until.None?
    ensures forall x | y < x < |s.sections| && s.sections[x].key == s.sections[y].key ::
              !L.InTime(ttl, s.sections[y], s.now)
  {
    forall x | y < x < |s.sections| && s.sections[x].key == s.sections[y].key
      ensures !L.InTime(ttl, s.sections[y], s.now)
    {
      assert L.Ordered(ttl, s.sections[y], s.sections[x]);
    }
  }

  /** A new row began after every earlier row of its order was committed, if both kept their time. */
  lemma NewRowBegan(cfg: Config, sys: System, p: nat, i: nat)
    requires L.SectionsOk(cfg.ttl, sys.lock) && L.OrderedOk(cfg.ttl, sys.lock)
    requires p in sys.service.procs && sys.service.procs[p].InTx? && Guarded(sys.service.procs[p].request)
    requires BeganInside(sys, p) && sys.lock.sections[sys.holding[p]].until.None?
    requires i < |sys.stamps| && i < |sys.service.db.outbox| && StampOk(sys, i) && Timely(cfg.ttl, sys, i)
    requires sys.lock.sections[sys.stamps[i].section.value].key == sys.lock.sections[sys.holding[p]].key
    requires L.InTime(cfg.ttl, sys.lock.sections[sys.holding[p]], sys.lock.now)
    ensures sys.stamps[i].at <= sys.service.procs[p].tx.startedAt
  {
    var x, y := sys.stamps[i].section.value, sys.holding[p];
    var c := sys.lock.sections;
    NobodyElseInTime(cfg.ttl, sys.lock, y);
    if x < y {
      assert L.Ordered(cfg.ttl, c[x], c[y]);
    }
  }

  /** A stamp stays in time or out of time. */
  lemma OldTimely(cfg: Config, sys: System, step: Step, i: nat)
    requires Enabled(cfg, sys, step) && StampsOk(sys) && i < |sys.stamps|
    ensures i < |Apply(cfg, sys, step).stamps| && Apply(cfg, sys, step).stamps[i] == sys.stamps[i]
    ensures Timely(cfg.ttl, Apply(cfg, sys, step), i) ==> Timely(cfg.ttl, sys, i)
  {
    CommitAdds(cfg, sys, step);
    assert StampOk(sys, i);
  }

  /** Sections keep their key. */
  lemma OldSections(cfg: Config, sys: System, step: Step, i: nat)
    requires Enabled(cfg, sys, step) && StampsOk(sys) && i < |sys.stamps|
    ensures var m := sys.stamps[i];
      m.section.Some? ==>
        && m.section.value < |sys.lock.sections| && m.section.value < |Apply(cfg, sys, step).lock.sections|
        && Apply(cfg, sys, step).lock.sections[m.section.value].key == sys.lock.sections[m.section.value].key
  {
    assert StampOk(sys, i);
  }

  /** Two rows that were there before. */
  lemma OldPair(cfg: Config, sys: System, step: Step, i: nat, j: nat)
    requires StampsOk(sys) && TimesOk(cfg.ttl, sys) && Enabled(cfg, sys, step) && j < |sys.stamps|
    requires var sys' := Apply(cfg, sys, step);
      && |sys.stamps| <= |sys'.stamps| && sys.service.db.outbox <= sys'.service.db.outbox
      && SameLock(sys', i, j) && Timely(cfg.ttl, sys', i) && Timely(cfg.ttl, sys', j)
    ensures Apply(cfg, sys, step).stamps[i].at <= sys.service.db.outbox[j].createdAt
  {
    hide Enabled, Apply, Timely, StampOk;
    OldTimely(cfg, sys, step, i);
    OldTimely(cfg, sys, step, j);
    OldSections(cfg, sys, step, i);
    OldSections(cfg, sys, step, j);
    assert SameLock(sys, i, j);
  }

  lemma KeepsTimes(cfg: Config, sys: System, step: Step)
    requires Inv(cfg, sys) && Enabled(cfg, sys, step)
    ensures var sys' := Apply(cfg, sys, step);
      |sys'.stamps| == |sys'.service.db.outbox| && TimesOk(cfg.ttl, sys')
  {
    hide Enabled, Apply, Timely, StampOk, BeganInside, HoldingOk, AI.DbOk, AI.ProcsOk, L.SectionsOk, L.OrderedOk;
    var sys' := Apply(cfg, sys, step);
    CommitAdds(cfg, sys, step);
    forall i: nat, j: nat | SameLock(sys', i, j) && Timely(cfg.ttl, sys', i) && Timely(cfg.ttl, sys', j)
      ensures sys'.stamps[i].at <= sys'.service.db.outbox[j].createdAt
    {
      if j < |sys.stamps| {
        OldPair(cfg, sys, step, i, j);
      } else {
        OldTimely(cfg, sys, step, i);
        LastRowBegan(cfg, sys, step, i);
      }
    }
  }

  lemma LastRowBegan(cfg: Config, sys: System, step: Step, i: nat)
    requires AI.ProcsOk(cfg.service, sys.service) && L.SectionsOk(cfg.ttl, sys.lock) && L.OrderedOk(cfg.ttl, sys.lock)
    requires HoldingOk(sys) && (forall p :: BeganInside(sys, p)) && StampsOk(sys)
    requires Enabled(cfg, sys, step) && step.Serve? && step.a.Commit? && i < |sys.stamps|
    requires var sys' := Apply(cfg, sys, step);
      && |sys'.stamps| == |sys.stamps| + 1 == |sys'.service.db.outbox| && sys.stamps <= sys'.stamps
      && sys.service.db.outbox <= sys'.service.db.outbox
      && SameLock(sys', i, |sys.stamps|) && Timely(cfg.ttl, sys, i) && Timely(cfg.ttl, sys', |sys.stamps|)
    ensures sys.stamps[i].at <= Apply(cfg, sys, step).service.db.outbox[|sys.stamps|].createdAt
  {
    var p := step.a.p;
    assert AI.ProcOk(cfg.service, sys.service.db, sys.service.procs[p]);
    assert HoldsFor(sys, p, sys.service.procs[p].request);
    assert BeganInside(sys, p) && StampOk(sys, i);
    NewRowBegan(cfg, sys, p, i);
  }

  lemma StepKeepsInv(cfg: Config, sys: System, step: Step)
    requires Inv(cfg, sys) && Enabled(cfg, sys, step)
    ensures Inv(cfg, Apply(cfg, sys, step))
  {
    KeepsHolding(cfg, sys, step);
    forall p: nat {
      KeepsBegan(cfg, sys, step, p);
    }
    KeepsStamps(cfg, sys, step);
    KeepsTimes(cfg, sys, step);
    KeepsParts(cfg, sys, step);
  }

  /** Once a request is in, the lock never holds up a step of the service. */
  lemma ServiceNotHeldUp(cfg: Config, sys: System, a: A.Step)
    requires HoldingOk(sys) && A.Enabled(cfg.service, sys.service, a) && !a.Tick? && !a.Receive?
    ensures Enabled(cfg, sys, Serve(a))
  {
    if a.Commit? && Guarded(sys.service.procs[a.p].request) {
      assert HoldsFor(sys, a.p, sys.service.procs[a.p].request);
    }
  }

  lemma KeepsParts(cfg: Config, sys: System, step: Step)
    requires AI.Inv(cfg.service, sys.service) && L.Inv(cfg.ttl, sys.lock) && Enabled(cfg, sys, step)
    ensures AI.Inv(cfg.service, Apply(cfg, sys, step).service) && L.Inv(cfg.ttl, Apply(cfg, sys, step).lock)
  {
    match step
    case Tick =>
      AI.StepKeepsInv(cfg.service, sys.service, A.Tick);
      L.StepKeepsInv(cfg.ttl, sys.lock, L.Tick);
    case Lock(p, key) => L.StepKeepsInv(cfg.ttl, sys.lock, L.Acquire(key));
    case Serve(a) => AI.StepKeepsInv(cfg.service, sys.service, a);
    case Unlock(p) => L.StepKeepsInv(cfg.ttl, sys.lock, L.Release(sys.holding[p]));
    case UnlockFails(_) =>
  }

  lemma {:induction false} RunKeepsInv(cfg: Config, steps: seq<Step>)
    requires Exec(cfg, steps).Some?
    ensures Inv(cfg, Exec(cfg, steps).value)
  {
    if steps != [] {
      RunKeepsInv(cfg, steps[..|steps| - 1]);
      StepKeepsInv(cfg, Exec(cfg, steps[..|steps| - 1]).value, steps[|steps| - 1]);
    }
  }

  /**
   Payments and cancellations of one order that committed within the time to live of their lock do not
   overlap, and the order of their `created_at` is the order of their commits.
   */
  lemma CreationFollowsCommit(cfg: Config, steps: seq<Step>, i: nat, j: nat)
    requires Exec(cfg, steps).Some? && SameLock(Exec(cfg, steps).value, i, j)
    requires Timely(cfg.ttl, Exec(cfg, steps).value, i) && Timely(cfg.ttl, Exec(cfg, steps).value, j)
    ensures
      var sys := Exec(cfg, steps).value;
      var outbox := sys.service.db.outbox;
      && j < |outbox| && outbox[i].partitionKey == outbox[j].partitionKey
      && outbox[i].createdAt <= sys.stamps[i].at <= outbox[j].createdAt <= sys.stamps[j].at
  {
    RunKeepsInv(cfg, steps);
    assert StampOk(Exec(cfg, steps).value, i) && StampOk(Exec(cfg, steps).value, j);
  }

  /** The steps of the service in a run of the whole. */
  function ServiceSteps(steps: seq<Step>): seq<A.Step> {
    if steps == [] then []
    else
      var last := steps[|steps| - 1];
      ServiceSteps(steps[..|steps| - 1]) + if last.Serve? then [last.a] else if last.Tick? then [A.Tick] else []
  }

  /** Behind the lock the service runs as it would without one, so everything proved about its runs holds here. */
  lemma {:induction false} ServiceRuns(cfg: Config, steps: seq<Step>)
    requires Exec(cfg, steps).Some?
    ensures A.Exec(cfg.service, ServiceSteps(steps)) == Some(Exec(cfg, steps).value.service)
  {
    if steps != [] {
      hide A.Enabled, A.Apply;
      var init, last := steps[..|steps| - 1], steps[|steps| - 1];
      ServiceRuns(cfg, init);
      TickEnabled(cfg.service, Exec(cfg, init).value.service);
      var before := ServiceSteps(init);
      if last.Serve? || last.Tick? {
        var step := if last.Serve? then last.a else A.Tick;
        assert ServiceSteps(steps) == before + [step] && (before + [step])[..|before|] == before;
      } else {
        assert before + [] == before;
      }
    }
  }

  lemma TickEnabled(cfg: A.Config, s: A.State)
    ensures A.Enabled(cfg, s, A.Tick)
  {
  }
}
