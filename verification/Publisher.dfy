/**
 The publisher as it runs: PublishBatch, Publish and the statements they issue, while any number of
 other publishers, the order service and the broker make steps of their own in between.
 */
module Publisher {
  import opened Types
  import opened Messages
  import opened OutboxMachine
  import opened OutboxInvariants

  /** The step is not one of publisher `p`. */
  predicate ByOthers(p: nat, step: Step) {
    match step
    case Insert(_) => true
    case DeliverLate(_) => true
    case DropLate(_) => true
    case Foreign(_, _) => true
    case _ => step.p != p
  }

  /** The rows in `held` are as they were, and what was in the log still is. */
  ghost predicate Kept(cfg: Config, s: State, t: State, held: seq<nat>) {
    && |s.rows| <= |t.rows|
    && (forall i | 0 <= i < |s.rows| :: t.rows[i].event == s.rows[i].event)
    && (forall i | i in held && i < |s.rows| :: t.rows[i] == s.rows[i])
    && (forall i: nat | HasCopy(cfg, s, i) :: HasCopy(cfg, t, i))
  }

  /** The record of row `i` is in the partition of its key. */
  predicate HasCopy(cfg: Config, s: State, i: nat) {
    && i < |s.rows| && PartitionOfRow(cfg, s, i) < |s.log|
    && Message(s.rows[i].event) in s.log[PartitionOfRow(cfg, s, i)]
  }

  lemma CopyStays(cfg: Config, s: State, step: Step, i: nat)
    requires Enabled(cfg, s, step) && HasCopy(cfg, s, i)
    ensures HasCopy(cfg, Apply(cfg, s, step), i)
  {
    RowsStay(cfg, s, step);
    LogGrows(cfg, s, step);
  }

  lemma KeptSelf(cfg: Config, s: State, held: seq<nat>)
    ensures Kept(cfg, s, s, held)
  {
  }

  lemma KeptOnwards(cfg: Config, s: State, t: State, u: State, held: seq<nat>)
    requires Kept(cfg, s, t, held) && Kept(cfg, t, u, held)
    ensures Kept(cfg, s, u, held)
  {
  }

  function Held(s: State, p: nat): seq<nat> {
    if p in s.open then s.open[p].batch else []
  }

  /** What publisher `p` may count on while others run. */
  ghost predicate Undisturbed(cfg: Config, s: State, t: State, p: nat) {
    && (p in s.open <==> p in t.open)
    && (p in s.open ==> t.open[p] == s.open[p])
    && Kept(cfg, s, t, Held(s, p))
  }

  /** Others cannot touch the rows that a publisher holds. */
  lemma OthersDoNotDisturb(cfg: Config, s: State, step: Step, p: nat)
    requires OpenOk(s) && Enabled(cfg, s, step) && ByOthers(p, step)
    ensures Undisturbed(cfg, s, Apply(cfg, s, step), p)
  {
    var t := Apply(cfg, s, step);
    RowsStay(cfg, s, step);
    if p in s.open {
      forall i | i in s.open[p].batch && i < |s.rows|
        ensures t.rows[i] == s.rows[i]
      {
        HeldRowStays(cfg, s, step, p, i);
      }
    }
    forall i: nat | HasCopy(cfg, s, i)
      ensures HasCopy(cfg, t, i)
    {
      CopyStays(cfg, s, step, i);
    }
  }

  lemma HeldRowStays(cfg: Config, s: State, step: Step, p: nat, i: nat)
    requires OpenOk(s) && Enabled(cfg, s, step) && ByOthers(p, step)
    requires p in s.open && i in s.open[p].batch && i < |s.rows|
    ensures i < |Apply(cfg, s, step).rows| && Apply(cfg, s, step).rows[i] == s.rows[i]
  {
    if step.Commit? {
      assert TxOk(s, s.open[step.p]) && i !in s.open[step.p].batch;
    }
  }

  /** The run `steps` of the machine ends in `s`, so everything proved about runs holds of it. */
  ghost predicate Reached(cfg: Config, steps: seq<Step>, s: State) {
    Exec(cfg, steps) == Some(s)
  }

  lemma ReachedNext(cfg: Config, steps: seq<Step>, s: State, step: Step)
    requires Reached(cfg, steps, s) && Enabled(cfg, s, step)
    ensures Reached(cfg, steps + [step], Apply(cfg, s, step))
  {
    assert (steps + [step])[..|steps|] == steps;
  }

  /** A Publish call of publisher `p` ends with this error. */
  predicate EndsWith(step: Step, p: nat, error: string) {
    (step.Refuse? || step.Report?) && step.p == p && step.error == error
  }

  /** Publisher `p` is at row `i` of its batch. */
  predicate IsAt(s: State, p: nat, i: nat) {
    p in s.open && Current(s, p) && Now(s, p) == i
  }

  /** From step `from` of the trace on, a call of publisher `p` for row `i` ended with this error. */
  ghost predicate CallFailed(cfg: Config, trace: seq<Step>, from: nat, p: nat, i: nat, error: string) {
    exists k: nat :: from <= k < |trace| && EndsWith(trace[k], p, error)
                && Exec(cfg, trace[..k]).Some? && IsAt(Exec(cfg, trace[..k]).value, p, i)
  }

  lemma FailedOnwards(cfg: Config, a: seq<Step>, b: seq<Step>, from: nat, p: nat, i: nat, error: string, earlier: nat)
    requires CallFailed(cfg, a, from, p, i, error) && a <= b && earlier <= from
    ensures CallFailed(cfg, b, earlier, p, i, error)
  {
    hide Exec, IsAt, EndsWith;
    var k: nat :| from <= k < |a| && EndsWith(a[k], p, error)
                  && Exec(cfg, a[..k]).Some? && IsAt(Exec(cfg, a[..k]).value, p, i);
    assert b[..k] == a[..k];
  }

  lemma FailsNow(cfg: Config, trace: seq<Step>, s: State, step: Step, i: nat)
    requires Reached(cfg, trace, s) && (step.Refuse? || step.Report?) && IsAt(s, step.p, i)
    ensures CallFailed(cfg, trace + [step], |trace|, step.p, i, step.error)
  {
    hide Exec, IsAt;
    var all := trace + [step];
    assert all[..|trace|] == trace && EndsWith(all[|trace|], step.p, step.error);
  }

  /** The outbox table and the Kafka log, shared by everyone; every change is a step of the machine. */
  class Cluster {
    const cfg: Config
    var rows: seq<Row>
    var open: map<nat, Tx>
    var orphans: multiset<nat>
    var log: seq<seq<Record>>
    var audit: seq<Audit>

    /** The steps that led here. */
    ghost var trace: seq<Step>

    function View(): State
      reads this
    {
      State(rows, open, orphans, log, audit)
    }

    ghost predicate Valid()
      reads this
    {
      Sized(cfg, View()) && Inv(cfg, View()) && Reached(cfg, trace, View())
    }

    constructor (cfg: Config)
      ensures Valid() && this.cfg == cfg && View() == Init(cfg)
    {
      this.cfg := cfg;
      rows, open, orphans, log, audit := [], map[], multiset{}, seq(cfg.partitions, _ => []), [];
      trace := [];
      new;
      RunKeepsInv(cfg, []);
    }

    /** One step of the machine. */
    method Do(step: Step)
      requires Valid() && Enabled(cfg, View(), step)
      modifies this
      ensures Valid() && View() == Apply(cfg, old(View()), step) && trace == old(trace) + [step]
    {
      hide Inv, Enabled, Apply, Reached;
      var s := Apply(cfg, View(), step);
      StepKeepsInv(cfg, View(), step);
      ReachedNext(cfg, trace, View(), step);
      KeepsSized(cfg, View(), step);
      trace := trace + [step];
      rows, open, orphans, log, audit := s.rows, s.open, s.orphans, s.log, s.audit;
    }

    /** Any number of steps by anyone but publisher `p`; none if the caller is left in peace. */
    method Interfere(p: nat, quiet: bool)
      requires Valid()
      modifies this
      ensures Valid() && Undisturbed(cfg, old(View()), View(), p) && old(trace) <= trace
      ensures quiet ==> View() == old(View())
    {
      var n: nat := *;
      while n > 0 && !quiet
        invariant Valid() && Undisturbed(cfg, old(View()), View(), p) && old(trace) <= trace
        invariant quiet ==> View() == old(View())
      {
        var step: Step := *;
        if ByOthers(p, step) && Enabled(cfg, View(), step) {
          ghost var before := View();
          OthersDoNotDisturb(cfg, before, step, p);
          Do(step);
          KeptOnwards(cfg, old(View()), before, View(), Held(before, p));
        }
        n := n - 1;
      }
    }

    /** The oldest available row that is not in `chosen`. */
    method Oldest(chosen: seq<nat>) returns (best: Option<nat>)
      ensures best.None? ==> forall i | 0 <= i < |rows| && Available(View(), i) :: i in chosen
      ensures best.Some? ==>
                && Available(View(), best.value) && best.value !in chosen
                && forall i | 0 <= i < |rows| && Available(View(), i) && i !in chosen ::
                     CreatedAt(View(), best.value) <= CreatedAt(View(), i)
    {
      best := None;
      for n := 0 to |rows|
        invariant best.None? ==> forall i | 0 <= i < n && Available(View(), i) :: i in chosen
        invariant best.Some? ==>
                    && Available(View(), best.value) && best.value !in chosen
                    && forall i | 0 <= i < n && Available(View(), i) && i !in chosen ::
                         CreatedAt(View(), best.value) <= CreatedAt(View(), i)
      {
        if Available(View(), n) && n !in chosen
           && (best.None? || rows[n].event.createdAt < rows[best.value].event.createdAt) {
          best := Some(n);
        }
      }
    }

    /** ClaimOutboxEvents: the rows that the query selects and locks. */
    method ClaimOutboxEvents(limit: nat) returns (items: seq<nat>)
      ensures IsClaim(View(), limit, items)
    {
      hide Locked;
      items := [];
      while |items| < limit
        invariant |items| <= limit
        invariant forall k | 0 <= k < |items| :: Available(View(), items[k])
        invariant forall k, l | 0 <= k < l < |items| ::
                    items[k] != items[l] && CreatedAt(View(), items[k]) <= CreatedAt(View(), items[l])
        invariant forall i, k | 0 <= i < |rows| && Available(View(), i) && i !in items && 0 <= k < |items| ::
                    CreatedAt(View(), items[k]) <= CreatedAt(View(), i)
      {
        var next := Oldest(items);
        if next.None? {
          return;
        }
        items := items + [next.value];
      }
    }

    /** A step of a Publish call of publisher `p`; the rows it holds stay as they are. */
    method Call(p: nat, step: Step)
      requires Valid() && Enabled(cfg, View(), step) && CallStep(step) && step.p == p && p in open
      modifies this
      ensures Valid() && rows == old(rows) && open == Apply(cfg, old(View()), step).open && trace == old(trace) + [step]
      ensures Kept(cfg, old(View()), View(), old(open)[p].batch)
    {
      CallKeeps(cfg, View(), step);
      Do(step);
    }

    /** The same, and then others run before this publisher goes on. */
    method CallAndWait(p: nat, step: Step, quiet: bool)
      requires Valid() && Enabled(cfg, View(), step) && CallStep(step) && step.p == p && p in open
      modifies this
      ensures Valid() && p in open && open[p] == Apply(cfg, old(View()), step).open[p] && old(trace) <= trace
      ensures Kept(cfg, old(View()), View(), old(open)[p].batch)
      ensures quiet ==> rows == old(rows) && open == Apply(cfg, old(View()), step).open
    {
      Call(p, step);
      ghost var called := View();
      Interfere(p, quiet);
      KeptOnwards(cfg, old(View()), called, View(), old(open)[p].batch);
    }

    /** The select of Publish: the delivery report, or an error that leaves the outcome open. */
    method AwaitReport(p: nat, quiet: bool, faults: bool) returns (err: Option<string>)
      requires Valid() && Sending(View(), p, Queued)
      modifies this
      ensures Valid() && p in open && old(trace) <= trace
      ensures open[p] == old(open)[p].(send := if err.None? then Acked else Errored(err.value))
      ensures err.Some? ==> CallFailed(cfg, trace, |old(trace)|, p, Now(old(View()), p), err.value)
      ensures Kept(cfg, old(View()), View(), old(open)[p].batch)
      ensures quiet ==> rows == old(rows) && open == old(open)[p := open[p]]
      ensures !faults ==> err.None?
    {
      hide Inv, Reached, CallFailed, Kept, Message, Appended, CountCall, Leftover;
      var delivered: bool := *;
      if delivered || !faults {
        CallAndWait(p, Deliver(p), quiet);
      }
      ghost var waited, steps := View(), trace;
      var reported: bool := *;
      if (delivered && reported) || !faults {
        Call(p, Ack(p));
        err := None;
      } else {
        var error: string, lost: bool := *, *;
        FailsNow(cfg, trace, View(), Report(p, error, lost), Now(old(View()), p));
        Call(p, Report(p, error, lost));
        FailedOnwards(cfg, trace, trace, |steps|, p, Now(old(View()), p), error, |old(trace)|);
        err := Some(error);
      }
      KeptOnwards(cfg, old(View()), waited, View(), old(open)[p].batch);
    }

    /** Publish: enqueue the record, then wait for its delivery report or for the context to end. */
    method Publish(p: nat, quiet: bool, faults: bool) returns (err: Option<string>)
      requires Valid() && Sending(View(), p, Idle)
      modifies this
      ensures Valid() && p in open && old(trace) <= trace
      ensures open[p] == old(open)[p].(send := if err.None? then Acked else Errored(err.value))
      ensures err.Some? ==> CallFailed(cfg, trace, |old(trace)|, p, Now(old(View()), p), err.value)
      ensures Kept(cfg, old(View()), View(), old(open)[p].batch)
      ensures quiet ==> rows == old(rows) && open == old(open)[p := open[p]]
      ensures !faults ==> err.None?
    {
      hide Inv, Reached;
      var refused: bool := *;
      if refused && faults {
        var error: string := *;
        FailsNow(cfg, trace, View(), Refuse(p, error), Now(View(), p));
        Call(p, Refuse(p, error));
        return Some(error);
      }
      CallAndWait(p, Produce(p), quiet);
      ghost var queued, steps := View(), trace;
      err := AwaitReport(p, quiet, faults);
      if err.Some? {
        FailedOnwards(cfg, trace, trace, |steps|, p, Now(old(View()), p), err.value, |old(trace)|);
      }
      KeptOnwards(cfg, old(View()), queued, View(), old(open)[p].batch);
    }

    /** A step that ends the transaction of publisher `p` without committing it. */
    method Rollback(p: nat)
      requires Valid() && p in open
      modifies this
      ensures Valid() && open == old(open) - {p} && rows == old(rows) && old(trace) <= trace
      ensures Kept(cfg, old(View()), View(), old(open)[p].batch)
    {
      var lost: bool := *;
      CallKeeps(cfg, View(), Abort(p, lost));
      Do(Abort(p, lost));
    }

    /** MarkOutboxEventPublished or MarkOutboxEventFailed for the current row, uncommitted as yet. */
    method MarkOutboxEvent(p: nat)
      requires Valid() && p in open && Current(View(), p) && (open[p].send.Acked? || open[p].send.Errored?)
      modifies this
      ensures Valid() && rows == old(rows) && Kept(cfg, old(View()), View(), old(open)[p].batch) && old(trace) <= trace
      ensures open == Apply(cfg, old(View()), Mark(p)).open
    {
      CallKeeps(cfg, View(), Mark(p));
      Do(Mark(p));
    }

    /** One round of the loop: publish the current row, then record the outcome. */
    method PublishOne(p: nat, quiet: bool, faults: bool) returns (ok: bool, ghost err: Option<string>)
      requires Valid() && Sending(View(), p, Idle)
      modifies this
      ensures Valid() && Kept(cfg, old(View()), View(), old(open)[p].batch) && old(trace) <= trace
      ensures if ok then p in open && Advanced(old(open)[p], open[p]) else p !in open
      ensures ok ==>
                open[p].marks == old(open)[p].marks[Now(old(View()), p) :=
                                                     if err.None? then MarkPublished else MarkFailed(err.value)]
      ensures err.Some? ==> CallFailed(cfg, trace, |old(trace)|, p, Now(old(View()), p), err.value)
      ensures quiet && ok ==> rows == old(rows) && open == old(open)[p := open[p]]
      ensures !faults ==> ok && err.None?
    {
      hide Inv, Reached, CallFailed;
      err := Publish(p, quiet, faults);
      ghost var published, steps := View(), trace;
      var markFails: bool := *;
      if markFails && faults {
        Rollback(p);
        ok := false;
      } else {
        MarkOutboxEvent(p);
        ok := true;
      }
      KeptOnwards(cfg, old(View()), published, View(), old(open)[p].batch);
      if err.Some? {
        FailedOnwards(cfg, steps, trace, |old(trace)|, p, Now(old(View()), p), err.value, |old(trace)|);
      }
    }

    /** The loop over the claimed rows. */
    method PublishAll(p: nat, quiet: bool, faults: bool) returns (ok: bool)
      requires Valid() && p in open && open[p].done == 0 && open[p].marks == map[] && open[p].send.Idle?
      modifies this
      ensures Valid() && Kept(cfg, old(View()), View(), old(open)[p].batch) && old(trace) <= trace
      ensures ok <==> p in open
      ensures ok ==> open[p].batch == old(open)[p].batch && open[p].done == |open[p].batch| && open[p].send.Idle?
      ensures ok ==> ErrorsAreReal(cfg, trace, |old(trace)|, p, ErrorsOf(open[p]))
      ensures quiet && ok ==> rows == old(rows) && open == old(open)[p := open[p]]
      ensures !faults ==> ok && ErrorsOf(open[p]) == map[]
    {
      hide Inv, Reached, Kept, ErrorsAreReal;
      ghost var start, items := View(), open[p].batch;
      KeptSelf(cfg, start, items);
      NoErrors(cfg, trace, |trace|, p);
      while open[p].done < |open[p].batch|
        invariant Valid() && p in open && Kept(cfg, start, View(), items) && old(trace) <= trace
        invariant open[p].batch == items && open[p].done <= |items| && open[p].send.Idle?
        invariant ErrorsAreReal(cfg, trace, |old(trace)|, p, ErrorsOf(open[p]))
        invariant quiet ==> rows == start.rows && open == start.open[p := open[p]]
        invariant !faults ==> ErrorsOf(open[p]) == map[]
        decreases |items| - open[p].done
      {
        ghost var before, steps := View(), trace;
        CurrentExists(cfg, View(), p);
        ghost var err;
        ok, err := PublishOne(p, quiet, faults);
        KeptOnwards(cfg, start, before, View(), items);
        if !ok {
          return;
        }
        OneMoreError(cfg, steps, trace, |old(trace)|, p, before.open[p], open[p], Now(before, p), err);
      }
      ok := true;
    }

    /** Commit of a batch whose rows are all marked. */
    method CommitBatch(p: nat)
      requires Valid() && p in open && open[p].send.Idle? && open[p].done == |open[p].batch|
      modifies this
      ensures Valid() && open == old(open) - {p} && rows == CommitRows(old(rows), old(open)[p].marks)
      ensures Kept(cfg, old(View()), View(), []) && old(trace) <= trace
      ensures BatchDone(cfg, old(View()), View(), old(open)[p].batch, ErrorsOf(old(open)[p]))
      ensures ErrorsOf(old(open)[p]) == map[] ==> rows == AllPublished(old(rows), old(open)[p].batch)
    {
      CommitDone(cfg, View(), p);
      CommitKeeps(cfg, View(), p);
      Do(OutboxMachine.Step.Commit(p));
    }

    /** Begin, and the claim of the batch. */
    method BeginBatch(p: nat) returns (items: seq<nat>)
      requires Valid() && p !in open
      modifies this
      ensures Valid() && IsClaim(old(View()), cfg.batchSize, items) && rows == old(rows) && old(trace) <= trace
      ensures open == old(open)[p := Tx(items, 0, map[], Idle)]
      ensures Kept(cfg, old(View()), View(), items)
    {
      hide Inv, Reached, IsClaim;
      items := ClaimOutboxEvents(cfg.batchSize);
      Do(Claim(p, items));
    }

    /** The end of WithTx: commit, unless that fails. */
    method EndBatch(p: nat, faults: bool) returns (ok: bool)
      requires Valid() && p in open && open[p].send.Idle? && open[p].done == |open[p].batch|
      modifies this
      ensures Valid() && open == old(open) - {p} && Kept(cfg, old(View()), View(), if ok then [] else old(open)[p].batch)
      ensures old(trace) <= trace
      ensures ok ==> BatchDone(cfg, old(View()), View(), old(open)[p].batch, ErrorsOf(old(open)[p]))
      ensures !faults ==> ok
      ensures ok && ErrorsOf(old(open)[p]) == map[] ==> rows == AllPublished(old(rows), old(open)[p].batch)
    {
      hide Inv, Reached, BatchDone;
      var commitFails: bool := *;
      if commitFails && faults {
        Rollback(p);
        ok := false;
      } else {
        CommitBatch(p);
        ok := true;
      }
    }

    /**
     PublishBatch. Each claimed row ends up published with its record in the log, or with one more attempt and the
     error of its call, or, if the transaction fails, as it was. Without failures all of them are published.
     */
    method PublishBatch(p: nat, quiet: bool, faults: bool)
      returns (ok: bool, ghost events: seq<nat>, ghost errors: map<nat, string>)
      requires Valid() && p !in open
      modifies this
      ensures Valid() && p !in open && old(trace) <= trace
      ensures events == [] || IsClaim(old(View()), cfg.batchSize, events)
      ensures Kept(cfg, old(View()), View(), if ok then [] else events)
      ensures ok ==> IsClaim(old(View()), cfg.batchSize, events)
      ensures ok ==> BatchDone(cfg, old(View()), View(), events, errors)
      ensures ok ==> ErrorsAreReal(cfg, trace, |old(trace)|, p, errors)
      ensures !faults ==> ok && errors == map[]
      ensures quiet && !faults ==> rows == AllPublished(old(rows), events) && open == old(open)
    {
      hide Inv, Reached, Kept, IsClaim, BatchDone, ErrorsAreReal, ErrorsOf;
      KeptSelf(cfg, View(), []);
      var beginFails: bool := *;
      if beginFails && faults {
        return false, [], map[];
      }
      events := BeginBatch(p);
      ghost var claimed, steps := View(), trace;
      ok := PublishAll(p, quiet, faults);
      KeptOnwards(cfg, old(View()), claimed, View(), events);
      errors := map[];
      if ok {
        ghost var marked, published := View(), trace;
        errors := ErrorsOf(open[p]);
        ok := EndBatch(p, faults);
        ErrorsOnwards(cfg, published, trace, |steps|, p, errors, |old(trace)|);
        if ok {
          DoneSinceClaim(cfg, old(View()), marked, View(), cfg.batchSize, events, errors);
        } else {
          KeptOnwards(cfg, old(View()), marked, View(), events);
        }
      }
    }

    /**
     Run until the context ends after `ticks` rounds. Nothing published is lost whatever happens; left in
     peace with no failing call, the publisher shortens the backlog by a whole batch every round.
     */
    method Run(p: nat, ticks: nat, quiet: bool, faults: bool)
      requires Valid() && p !in open
      modifies this
      ensures Valid() && p !in open && Kept(cfg, old(View()), View(), [])
      ensures quiet && !faults && old(open) == map[] ==> |rows| == |old(rows)| && open == map[]
      ensures quiet && !faults && old(open) == map[] ==> Backlog(rows) == Left(Backlog(old(rows)), cfg.batchSize, ticks)
      ensures quiet && !faults && old(open) == map[] && Backlog(old(rows)) <= ticks * cfg.batchSize ==> Drained(cfg, View())
    {
      hide Inv, Reached, Kept, IsClaim, BatchDone, Backlog, ErrorsAreReal;
      KeptSelf(cfg, View(), []);
      for n := 0 to ticks
        invariant Valid() && p !in open && Kept(cfg, old(View()), View(), [])
        invariant quiet && !faults && old(open) == map[] ==> |rows| == |old(rows)| && open == map[]
        invariant quiet && !faults && old(open) == map[] ==> Backlog(rows) == Left(Backlog(old(rows)), cfg.batchSize, n)
      {
        ghost var before := View();
        var ok, events, errors := PublishBatch(p, quiet, faults);
        KeptFree(cfg, before, View(), if ok then [] else events);
        KeptOnwards(cfg, old(View()), before, View(), []);
        if quiet && !faults && before.open == map[] {
          FaultFreeBatch(before, cfg.batchSize, events);
          LeftAfterOneMore(Backlog(old(rows)), cfg.batchSize, n);
        }
      }
      if Backlog(rows) == 0 {
        EmptyBacklog(cfg, View());
      }
    }
  }

  lemma KeptFree(cfg: Config, s: State, t: State, held: seq<nat>)
    requires Kept(cfg, s, t, held)
    ensures Kept(cfg, s, t, [])
  {
  }

  /** The rows not yet published. */
  function Unpublished(rows: seq<Row>): set<nat> {
    set i: nat | i < |rows| && !rows[i].published
  }

  function Backlog(rows: seq<Row>): nat {
    |Unpublished(rows)|
  }

  /** Every row is published, and its record is in the partition of its key. */
  ghost predicate Drained(cfg: Config, s: State) {
    forall i: nat | i < |s.rows| :: s.rows[i].published && HasCopy(cfg, s, i)
  }

  lemma EmptyBacklog(cfg: Config, s: State)
    requires Inv(cfg, s) && Backlog(s.rows) == 0
    ensures Drained(cfg, s)
  {
    forall i: nat | i < |s.rows|
      ensures s.rows[i].published && HasCopy(cfg, s, i)
    {
      assert i !in Unpublished(s.rows);
      CopyExists(cfg, s, i);
    }
  }

  /** What is left of `n` rows after `k` batches of at most `size`. */
  function Left(n: nat, size: nat, k: nat): (r: nat)
    ensures r == 0 <==> n <= k * size
  {
    if n <= k * size then 0 else n - k * size
  }

  lemma LeftAfterOneMore(n: nat, size: nat, k: nat)
    ensures Left(n, size, k + 1) == (if Left(n, size, k) <= size then 0 else Left(n, size, k) - size)
  {
    assert (k + 1) * size == k * size + size;
  }

  lemma {:induction false} ElementsOf(items: seq<nat>, all: set<nat>)
    requires forall k, l | 0 <= k < l < |items| :: items[k] != items[l]
    requires forall k | 0 <= k < |items| :: items[k] in all
    ensures |all - (set i | i in items)| == |all| - |items|
  {
    if items == [] {
      assert all - (set i | i in items) == all;
    } else {
      ElementsOf(items[1..], all - {items[0]});
      assert all - (set i | i in items) == all - {items[0]} - (set i | i in items[1..]);
    }
  }

  /**
   A batch without failures, with no other publisher around: it publishes as many of the oldest
   unpublished rows as fit, and leaves the others.
   */
  lemma FaultFreeBatch(s: State, limit: nat, events: seq<nat>)
    requires s.open == map[] && IsClaim(s, limit, events)
    ensures |events| == if Backlog(s.rows) <= limit then Backlog(s.rows) else limit
    ensures Backlog(AllPublished(s.rows, events)) == Backlog(s.rows) - |events|
    ensures forall i, j | i in events && j in Unpublished(AllPublished(s.rows, events)) ::
              i < |s.rows| && j < |s.rows| && CreatedAt(s, i) <= CreatedAt(s, j)
  {
    var all, chosen := Unpublished(s.rows), set i | i in events;
    forall i: nat | i < |s.rows| ensures i in all <==> Available(s, i) {
    }
    ElementsOf(events, all);
    assert Unpublished(AllPublished(s.rows, events)) == all - chosen;
    if |events| < limit {
      assert all - chosen == {};
    }
  }

  /** The rows of a batch did not change between its claim and its commit. */
  lemma DoneSinceClaim(cfg: Config, s: State, t: State, u: State, limit: nat, items: seq<nat>, errors: map<nat, string>)
    requires Kept(cfg, s, t, items) && Kept(cfg, t, u, []) && IsClaim(s, limit, items)
    requires BatchDone(cfg, t, u, items, errors)
    ensures Kept(cfg, s, u, []) && BatchDone(cfg, s, u, items, errors)
  {
  }

  lemma CurrentExists(cfg: Config, s: State, p: nat)
    requires Inv(cfg, s) && p in s.open && s.open[p].done < |s.open[p].batch|
    ensures Current(s, p)
  {
    assert TxOk(s, s.open[p]);
  }

  /** The errors with which the transaction has marked rows as failed. */
  function ErrorsOf(tx: Tx): map<nat, string> {
    map i | i in tx.marks && tx.marks[i].MarkFailed? :: tx.marks[i].error
  }

  /** Each of these is the error of a call for its row. */
  ghost predicate ErrorsAreReal(cfg: Config, trace: seq<Step>, from: nat, p: nat, errors: map<nat, string>) {
    forall i | i in errors :: CallFailed(cfg, trace, from, p, i, errors[i])
  }

  lemma NoErrors(cfg: Config, trace: seq<Step>, from: nat, p: nat)
    ensures ErrorsAreReal(cfg, trace, from, p, map[])
  {
  }

  lemma ErrorsOnwards(cfg: Config, a: seq<Step>, b: seq<Step>, from: nat, p: nat, errors: map<nat, string>, earlier: nat)
    requires ErrorsAreReal(cfg, a, from, p, errors) && a <= b && earlier <= from
    ensures ErrorsAreReal(cfg, b, earlier, p, errors)
  {
    hide CallFailed;
    forall i | i in errors
      ensures CallFailed(cfg, b, earlier, p, i, errors[i])
    {
      FailedOnwards(cfg, a, b, from, p, i, errors[i], earlier);
    }
  }

  /** One more row is marked with the outcome of its call. */
  lemma OneMoreError(cfg: Config, a: seq<Step>, b: seq<Step>, from: nat, p: nat, was: Tx, tx: Tx, i: nat, err: Option<string>)
    requires ErrorsAreReal(cfg, a, from, p, ErrorsOf(was)) && a <= b && from <= |a|
    requires tx.marks == was.marks[i := if err.None? then MarkPublished else MarkFailed(err.value)]
    requires err.Some? ==> CallFailed(cfg, b, |a|, p, i, err.value)
    ensures ErrorsAreReal(cfg, b, from, p, ErrorsOf(tx))
    ensures err.None? && ErrorsOf(was) == map[] ==> ErrorsOf(tx) == map[]
  {
    hide CallFailed;
    forall j | j in ErrorsOf(tx)
      ensures CallFailed(cfg, b, from, p, j, ErrorsOf(tx)[j])
    {
      if j == i {
        FailedOnwards(cfg, b, b, |a|, p, i, err.value, from);
      } else {
        assert j in ErrorsOf(was);
        FailedOnwards(cfg, a, b, from, p, j, ErrorsOf(was)[j], from);
      }
    }
    if err.None? && ErrorsOf(was) == map[] {
      assert forall j | j in ErrorsOf(tx) :: j in ErrorsOf(was);
    }
  }

  lemma CopyExists(cfg: Config, s: State, i: nat)
    requires i < |s.rows| && |s.log| == cfg.partitions && Copies(cfg, s, i) > 0
    ensures HasCopy(cfg, s, i)
  {
    assert Message(s.rows[i].event) in multiset(s.log[PartitionOfRow(cfg, s, i)]);
  }

  lemma RowDoneAt(cfg: Config, s: State, p: nat, i: nat)
    requires Sized(cfg, s) && PublishedOk(cfg, s) && p in s.open && TxOk(s, s.open[p])
    requires Enabled(cfg, s, OutboxMachine.Step.Commit(p)) && i in s.open[p].batch
    ensures i < |s.rows| && i in s.open[p].marks
    ensures i < |Apply(cfg, s, OutboxMachine.Step.Commit(p)).rows|
    ensures RowDone(cfg, Apply(cfg, s, OutboxMachine.Step.Commit(p)), s.rows[i], i, ErrorsOf(s.open[p]))
  {
    var tx := s.open[p];
    assert tx.batch[..tx.done] == tx.batch;
    if tx.marks[i].MarkPublished? {
      assert SaysPublished(tx, i);
      CopyExists(cfg, s, i);
      CopyStays(cfg, s, OutboxMachine.Step.Commit(p), i);
    }
  }

  lemma CommitKeeps(cfg: Config, s: State, p: nat)
    requires Enabled(cfg, s, OutboxMachine.Step.Commit(p))
    ensures Kept(cfg, s, Apply(cfg, s, OutboxMachine.Step.Commit(p)), [])
  {
    forall i: nat | HasCopy(cfg, s, i)
      ensures HasCopy(cfg, Apply(cfg, s, OutboxMachine.Step.Commit(p)), i)
    {
      CopyStays(cfg, s, OutboxMachine.Step.Commit(p), i);
    }
  }

  lemma CommitDone(cfg: Config, s: State, p: nat)
    requires Inv(cfg, s) && Enabled(cfg, s, OutboxMachine.Step.Commit(p))
    ensures var t := Apply(cfg, s, OutboxMachine.Step.Commit(p));
      && BatchDone(cfg, s, t, s.open[p].batch, ErrorsOf(s.open[p]))
      && (ErrorsOf(s.open[p]) == map[] ==> t.rows == AllPublished(s.rows, s.open[p].batch))
  {
    assert TxOk(s, s.open[p]);
    forall i | i in s.open[p].batch
      ensures i < |s.rows| && i in s.open[p].marks
      ensures i < |Apply(cfg, s, OutboxMachine.Step.Commit(p)).rows|
      ensures RowDone(cfg, Apply(cfg, s, OutboxMachine.Step.Commit(p)), s.rows[i], i, ErrorsOf(s.open[p]))
    {
      RowDoneAt(cfg, s, p, i);
    }
  }

  /** The row after its batch has committed: published, or with one more attempt and the error of its call. */
  predicate RowDone(cfg: Config, s: State, was: Row, i: nat, errors: map<nat, string>)
    requires i < |s.rows|
  {
    if i !in errors then s.rows[i] == was.(published := true, lastError := None) && HasCopy(cfg, s, i)
    else s.rows[i] == was.(attempt := was.attempt + 1, lastError := if errors[i] == "" then None else Some(errors[i]))
  }

  ghost predicate BatchDone(cfg: Config, s: State, t: State, items: seq<nat>, errors: map<nat, string>) {
    forall i | i in items :: i < |s.rows| && i < |t.rows| && RowDone(cfg, t, s.rows[i], i, errors)
  }

  function AllPublished(rows: seq<Row>, events: seq<nat>): seq<Row> {
    seq(|rows|, i requires 0 <= i < |rows| =>
      if i in events then rows[i].(published := true, lastError := None) else rows[i])
  }

  /** The batch of `b` is one row further than that of `a`. */
  predicate Advanced(a: Tx, b: Tx) {
    b.batch == a.batch && b.done == a.done + 1 && b.send.Idle?
  }

  predicate CallStep(step: Step) {
    Holds(step) && !step.Commit? && !step.Abort? && !step.Mark?
  }

  /** A publish call and its mark change no row of the table yet. */
  lemma CallKeeps(cfg: Config, s: State, step: Step)
    requires Enabled(cfg, s, step) && Holds(step) && !step.Commit?
    ensures Apply(cfg, s, step).rows == s.rows
    ensures Kept(cfg, s, Apply(cfg, s, step), s.open[step.p].batch)
  {
    forall i: nat | HasCopy(cfg, s, i)
      ensures HasCopy(cfg, Apply(cfg, s, step), i)
    {
      CopyStays(cfg, s, step, i);
    }
  }
}
