/** Guarantees of the publisher for every run: claims, accounting, no loss, and what the log holds. */
module OutboxTheorems {
  import opened Types
  import opened Messages
  import opened OutboxMachine
  import opened OutboxInvariants

  /** Open publisher transactions hold disjoint sets of rows, all of them unpublished. */
  lemma ClaimsAreDisjoint(cfg: Config, steps: seq<Step>, p: nat, q: nat, i: nat)
    requires Exec(cfg, steps).Some?
    requires
      var s := Exec(cfg, steps).value;
      p in s.open && q in s.open && i in s.open[p].batch && i in s.open[q].batch
    ensures
      var s := Exec(cfg, steps).value;
      p == q && i < |s.rows| && !s.rows[i].published
  {
    RunKeepsInv(cfg, steps);
    assert TxOk(Exec(cfg, steps).value, Exec(cfg, steps).value.open[p]);
  }

  lemma ClaimSkipsPublished(cfg: Config, s: State, step: Step, i: nat)
    requires Enabled(cfg, s, step) && i < |s.rows| && s.rows[i].published
    ensures i < |Apply(cfg, s, step).rows| && Apply(cfg, s, step).rows[i].published
    ensures step.Claim? ==> i !in step.batch
  {
    RowsStay(cfg, s, step);
    if step.Claim? {
      forall k | 0 <= k < |step.batch|
        ensures step.batch[k] != i
      {
        assert Available(s, step.batch[k]);
      }
    }
  }

  /** The steps `more` lead from state `s` to state `t`. */
  ghost predicate Leads(cfg: Config, s: State, more: seq<Step>, t: State)
    decreases |more|
  {
    if more == [] then s == t
    else Enabled(cfg, s, more[0]) && Leads(cfg, Apply(cfg, s, more[0]), more[1..], t)
  }

  /** Once the published mark of a row has committed, no later claim contains the row. */
  lemma {:induction false} PublishedRowsStayOut(cfg: Config, s: State, more: seq<Step>, t: State, i: nat)
    requires Leads(cfg, s, more, t) && i < |s.rows| && s.rows[i].published
    ensures i < |t.rows| && t.rows[i].published
    ensures forall k | 0 <= k < |more| && more[k].Claim? :: i !in more[k].batch
    decreases |more|
  {
    if more != [] {
      ClaimSkipsPublished(cfg, s, more[0], i);
      PublishedRowsStayOut(cfg, Apply(cfg, s, more[0]), more[1..], t, i);
      assert forall k | 1 <= k < |more| :: more[k] == more[1..][k - 1];
    }
  }

  /**
   Publish accounting with any number of publishers: calls are failed attempts, rolled back calls,
   the call that published, and the call of an open transaction; copies never exceed calls.
   */
  lemma PublishAccounting(cfg: Config, steps: seq<Step>, i: nat)
    requires Exec(cfg, steps).Some? && i < |Exec(cfg, steps).value.rows|
    ensures
      var s := Exec(cfg, steps).value;
      && |s.log| == cfg.partitions && |s.audit| == |s.rows|
      && s.audit[i].tried == s.rows[i].attempt + s.audit[i].rolledBack + One(s.rows[i].published) + One(Trying(s, i))
      && Copies(cfg, s, i) + s.orphans[i]
         <= s.rows[i].attempt + s.audit[i].rolledBack + One(s.rows[i].published) + One(Trying(s, i))
  {
    RunKeepsInv(cfg, steps);
    assert CallsAt(Exec(cfg, steps).value, i) && CopiesAt(cfg, Exec(cfg, steps).value, i);
  }

  /** A committed `published_at` means that the event is in the log, in the partition of its own key. */
  lemma NoLostEvents(cfg: Config, steps: seq<Step>, i: nat) returns (k: nat)
    requires Exec(cfg, steps).Some? && i < |Exec(cfg, steps).value.rows|
    requires Exec(cfg, steps).value.rows[i].published
    ensures
      var s := Exec(cfg, steps).value;
      var part := PartitionOf(cfg, s.rows[i].event.partitionKey);
      part < |s.log| && k < |s.log[part]| && s.log[part][k] == Message(s.rows[i].event)
  {
    RunKeepsInv(cfg, steps);
    k := FindCopy(cfg, Exec(cfg, steps).value, i);
  }

  lemma FindCopy(cfg: Config, s: State, i: nat) returns (k: nat)
    requires Sized(cfg, s) && i < |s.rows| && Copies(cfg, s, i) > 0
    ensures var part := PartitionOfRow(cfg, s, i);
      k < |s.log[part]| && s.log[part][k] == Message(s.rows[i].event)
  {
    var records := s.log[PartitionOfRow(cfg, s, i)];
    assert Message(s.rows[i].event) in multiset(records);
    k :| 0 <= k < |records| && records[k] == Message(s.rows[i].event);
  }

  /** All records of one order that the consumer accepts lie in one partition. */
  lemma OneOrderOnePartition(cfg: Config, steps: seq<Step>, part: nat, k: nat) returns (i: nat)
    requires Exec(cfg, steps).Some?
    requires part < |Exec(cfg, steps).value.log| && k < |Exec(cfg, steps).value.log[part]|
    requires Decode(Exec(cfg, steps).value.log[part][k].value).Accepted?
    ensures
      var s := Exec(cfg, steps).value;
      && i < |s.rows| && s.log[part][k] == Message(s.rows[i].event)
      && part == PartitionOf(cfg, s.rows[i].event.partitionKey)
  {
    RunKeepsInv(cfg, steps);
    var s := Exec(cfg, steps).value;
    assert Decode(s.log[part][k].value).Discarded? || FromRow(cfg, s, part, s.log[part][k]);
    i :| IsRow(cfg, s, part, s.log[part][k], i);
  }

  ghost predicate AllAccepted(log: seq<seq<Record>>) {
    forall part, k | 0 <= part < |log| && 0 <= k < |log[part]| :: Decode(log[part][k].value).Accepted?
  }

  lemma PublishedIsAccepted(cfg: Config, s: State, step: Step)
    requires Enabled(cfg, s, step) && !step.Foreign? && AllAccepted(s.log)
    ensures AllAccepted(Apply(cfg, s, step).log)
  {
    LogSize(cfg, s, step);
    hide Enabled, Apply, Decode, Message;
    forall part, k | 0 <= part < |s.log| && 0 <= k < |Apply(cfg, s, step).log[part]|
      ensures Decode(Apply(cfg, s, step).log[part][k].value).Accepted?
    {
      LogStep(cfg, s, step, part);
      if AppendedRow(s, step).Some? && AppendedRow(s, step).value < |s.rows| {
        ConsumerAcceptsPublisher(s.rows[AppendedRow(s, step).value].event);
      }
    }
  }

  lemma LogSize(cfg: Config, s: State, step: Step)
    requires Enabled(cfg, s, step)
    ensures |Apply(cfg, s, step).log| == |s.log|
  {
  }

  /** If only publishers write to the topic, the consumer accepts every record of the log. */
  lemma {:induction false} PublisherOnlyLog(cfg: Config, steps: seq<Step>)
    requires Exec(cfg, steps).Some? && forall i | 0 <= i < |steps| :: !steps[i].Foreign?
    ensures AllAccepted(Exec(cfg, steps).value.log)
  {
    if steps != [] {
      hide Enabled, Apply, AllAccepted;
      var init := steps[..|steps| - 1];
      PublisherOnlyLog(cfg, init);
      PublishedIsAccepted(cfg, Exec(cfg, init).value, steps[|steps| - 1]);
    }
  }
}
