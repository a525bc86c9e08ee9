/**
 Whether the log keeps the order in which the events of one order were committed.

 For every history of committed events, and one publisher at a time, the two theorems say exactly when it
 does: `created_at` has to increase with every commit of the order, and a batch of several rows must not
 meet a failing call. Several publishers break the order without either.
 */
module CommitOrder {
  import opened Types
  import opened Messages
  import opened OutboxMachine
  import opened OutboxInvariants
  import opened OutboxOrder

  /** Row `i` was committed before row `j` of the same order. */
  predicate Earlier(s: State, i: nat, j: nat) {
    i < j < |s.rows| && s.rows[i].event.partitionKey == s.rows[j].event.partitionKey
  }

  /** In every partition each record of an order follows a copy of every event committed earlier for it. */
  ghost predicate InOrder(cfg: Config, s: State)
    requires Sized(cfg, s)
  {
    forall i: nat, j: nat, k: nat | Earlier(s, i, j) && k < |RecordsOf(cfg, s, j)|
                                    && RecordsOf(cfg, s, j)[k] == Message(s.rows[j].event) ::
      Message(s.rows[i].event) in RecordsOf(cfg, s, j)[..k]
  }

  /** `s` can be reached; if `solo`, with one publisher transaction at a time. */
  ghost predicate Reached(cfg: Config, solo: bool, s: State) {
    exists steps :: Exec(cfg, steps) == Some(s) && (solo ==> SoloRun(cfg, steps))
  }

  function EventsOf(s: State): (events: seq<Event>)
    ensures |events| == |s.rows| && forall k | 0 <= k < |events| :: events[k] == s.rows[k].event
  {
    seq(|s.rows|, k requires 0 <= k < |s.rows| => s.rows[k].event)
  }

  /** Along the commits of every order `created_at` strictly increases. */
  ghost predicate Increasing(events: seq<Event>) {
    forall i, j | 0 <= i < j < |events| && events[i].partitionKey == events[j].partitionKey ::
      events[i].createdAt < events[j].createdAt
  }

  ghost predicate OnePerOrder(events: seq<Event>) {
    forall i, j | 0 <= i < j < |events| :: events[i].partitionKey != events[j].partitionKey
  }

  ghost predicate Distinct(events: seq<Event>) {
    forall i, j | 0 <= i < j < |events| :: events[i].id != events[j].id
  }

  /** While the history `events` is being committed, the log is in order in every state of one publisher's runs. */
  ghost predicate KeptWhateverFails(cfg: Config, events: seq<Event>) {
    forall s | Reached(cfg, true, s) && EventsOf(s) <= events :: Sized(cfg, s) && InOrder(cfg, s)
  }

  ghost predicate KeptIfNothingFails(cfg: Config, events: seq<Event>) {
    forall s | Reached(cfg, true, s) && EventsOf(s) <= events && NothingFailed(s) :: Sized(cfg, s) && InOrder(cfg, s)
  }

  /******* Enough *******/

  lemma SoloInv(cfg: Config, s: State)
    requires Reached(cfg, true, s)
    ensures OrderInv(cfg, s)
  {
    var steps :| Exec(cfg, steps) == Some(s) && (true ==> SoloRun(cfg, steps));
    RunKeepsOrder(cfg, steps);
  }

  lemma EarlierIsBefore(s: State, events: seq<Event>, i: nat, j: nat)
    requires EventsOf(s) <= events && Increasing(events) && Earlier(s, i, j)
    ensures Before(s, i, j)
  {
    assert EventsOf(s)[i] == events[i] && EventsOf(s)[j] == events[j];
  }

  lemma EnoughAt(cfg: Config, s: State, events: seq<Event>)
    requires Reached(cfg, true, s) && EventsOf(s) <= events && Increasing(events)
    requires NothingFailed(s) || cfg.batchSize == 1 || OnePerOrder(events)
    ensures Sized(cfg, s) && InOrder(cfg, s)
  {
    SoloInv(cfg, s);
    forall i: nat, j: nat, k: nat | Earlier(s, i, j) && k < |RecordsOf(cfg, s, j)|
                                    && RecordsOf(cfg, s, j)[k] == Message(s.rows[j].event)
      ensures Message(s.rows[i].event) in RecordsOf(cfg, s, j)[..k]
    {
      EarlierIsBefore(s, events, i, j);
      assert EventsOf(s)[i] == events[i] && EventsOf(s)[j] == events[j];
      assert CopyBefore(cfg, s, i, RecordsOf(cfg, s, j), k);
      assert s.audit[i] in s.audit;
    }
  }

  lemma ReachedInv(cfg: Config, solo: bool, s: State)
    requires Reached(cfg, solo, s)
    ensures Inv(cfg, s)
  {
    var steps :| Exec(cfg, steps) == Some(s) && (solo ==> SoloRun(cfg, steps));
    RunKeepsInv(cfg, steps);
  }

  /** Publishers that claim nothing call nothing. */
  ghost predicate Untouched(s: State) {
    (forall p | p in s.open :: s.open[p].batch == []) && (forall a | a in s.audit :: a.tried == 0)
  }

  lemma EmptyBatchStep(cfg: Config, s: State, step: Step)
    requires Inv(cfg, s) && cfg.batchSize == 0 && Enabled(cfg, s, step) && Untouched(s)
    ensures Untouched(Apply(cfg, s, step))
  {
    if Holds(step) {
      assert TxOk(s, s.open[step.p]);
      assert Tried(s.open[step.p]) <= s.open[step.p].marks.Keys;
    }
    var t := Apply(cfg, s, step);
    forall k | 0 <= k < |t.audit|
      ensures t.audit[k].tried == 0
    {
      assert k < |s.audit| ==> s.audit[k] in s.audit;
    }
  }

  lemma {:induction false} EmptyBatches(cfg: Config, steps: seq<Step>)
    requires Exec(cfg, steps).Some? && cfg.batchSize == 0
    ensures Untouched(Exec(cfg, steps).value)
  {
    if steps != [] {
      hide Enabled, Apply, Inv;
      var init := steps[..|steps| - 1];
      EmptyBatches(cfg, init);
      RunKeepsInv(cfg, init);
      EmptyBatchStep(cfg, Exec(cfg, init).value, steps[|steps| - 1]);
    }
  }

  lemma EmptyLogInOrder(cfg: Config, solo: bool, s: State)
    requires Reached(cfg, solo, s) && cfg.batchSize == 0
    ensures Sized(cfg, s) && InOrder(cfg, s)
  {
    ReachedInv(cfg, solo, s);
    var steps :| Exec(cfg, steps) == Some(s) && (solo ==> SoloRun(cfg, steps));
    EmptyBatches(cfg, steps);
    forall j: nat, k: nat | j < |s.rows| && k < |RecordsOf(cfg, s, j)|
      ensures RecordsOf(cfg, s, j)[k] != Message(s.rows[j].event)
    {
      assert s.audit[j] in s.audit && CallsAt(s, j) && CopiesAt(cfg, s, j);
      assert RecordsOf(cfg, s, j)[k] in multiset(RecordsOf(cfg, s, j));
    }
  }

  /******* Necessary: a run that breaks the order *******/

  lemma ReachedNext(cfg: Config, solo: bool, s: State, step: Step)
    requires Reached(cfg, solo, s) && Enabled(cfg, s, step) && (solo ==> Solo(s, step))
    ensures Reached(cfg, solo, Apply(cfg, s, step))
  {
    var steps :| Exec(cfg, steps) == Some(s) && (solo ==> SoloRun(cfg, steps));
    assert (steps + [step])[..|steps|] == steps;
    assert Exec(cfg, steps + [step]) == Some(Apply(cfg, s, step)) && (solo ==> SoloRun(cfg, steps + [step]));
  }

  function NewRow(e: Event): Row {
    Row(e, false, 0, None)
  }

  /** The table holds the first `n` events, and nothing else has happened. */
  ghost function Inserted(cfg: Config, events: seq<Event>, n: nat): State
    requires n <= |events|
  {
    State(seq(n, k requires 0 <= k < n => NewRow(events[k])), map[], multiset{}, Init(cfg).log,
          seq(n, _ => Audit(0, 0, false)))
  }

  lemma InsertNext(cfg: Config, events: seq<Event>, n: nat)
    requires Distinct(events) && n < |events|
    ensures Enabled(cfg, Inserted(cfg, events, n), Insert(events[n]))
    ensures Apply(cfg, Inserted(cfg, events, n), Insert(events[n])) == Inserted(cfg, events, n + 1)
  {
    var s, t := Inserted(cfg, events, n), Inserted(cfg, events, n + 1);
    assert s.rows + [NewRow(events[n])] == t.rows && s.audit + [Audit(0, 0, false)] == t.audit;
  }

  lemma {:induction false} InsertAll(cfg: Config, events: seq<Event>, n: nat)
    requires Distinct(events) && n <= |events|
    ensures Reached(cfg, true, Inserted(cfg, events, n))
  {
    if n == 0 {
      assert Inserted(cfg, events, 0) == Init(cfg);
      assert Exec(cfg, []) == Some(Init(cfg)) && SoloRun(cfg, []);
    } else {
      hide Enabled, Apply, Inserted, Reached;
      InsertAll(cfg, events, n - 1);
      InsertNext(cfg, events, n - 1);
      ReachedNext(cfg, true, Inserted(cfg, events, n - 1), Insert(events[n - 1]));
    }
  }

  /** Row `j` is in the log and the earlier row `i` of its order is not. */
  ghost predicate Overtaken(cfg: Config, s: State, i: nat, j: nat) {
    Sized(cfg, s) && Earlier(s, i, j) && Copies(cfg, s, i) == 0 && Copies(cfg, s, j) > 0
  }

  lemma OvertakenBreaksOrder(cfg: Config, s: State, i: nat, j: nat)
    requires Overtaken(cfg, s, i, j)
    ensures Sized(cfg, s) && !InOrder(cfg, s)
  {
    var records := RecordsOf(cfg, s, j);
    assert Message(s.rows[j].event) in multiset(records);
    var k :| 0 <= k < |records| && records[k] == Message(s.rows[j].event);
    assert multiset(records)[Message(s.rows[i].event)] == 0;
    assert Message(s.rows[i].event) !in records && Message(s.rows[i].event) !in records[..k];
  }

  /** Row `i` is about to be overtaken by row `j`; if `i` is not older than `j`, without any failure. */
  ghost predicate Behind(cfg: Config, s: State, i: nat, j: nat) {
    && Reached(cfg, true, s) && Sized(cfg, s) && Earlier(s, i, j)
    && !s.rows[i].published && !s.rows[j].published && Copies(cfg, s, i) == 0
    && (CreatedAt(s, j) <= CreatedAt(s, i) ==> NothingFailed(s))
  }

  /******* Claiming in creation order, row `i` last among equals *******/

  predicate Leads(s: State, i: nat, a: nat, b: nat)
    requires a < |s.rows| && b < |s.rows|
  {
    CreatedAt(s, a) < CreatedAt(s, b) || (CreatedAt(s, a) == CreatedAt(s, b) && (a == i ==> b == i))
  }

  lemma {:induction false} Leader(s: State, i: nat, all: set<nat>) returns (m: nat)
    requires all != {} && forall x | x in all :: x < |s.rows|
    ensures m in all && forall x | x in all :: Leads(s, i, m, x)
  {
    var first :| first in all;
    var rest := all - {first};
    if rest == {} {
      m := first;
    } else {
      var other := Leader(s, i, rest);
      m := if Leads(s, i, first, other) then first else other;
    }
    forall x | x in all
      ensures Leads(s, i, m, x)
    {
      assert x == first || x in rest;
    }
  }

  ghost predicate SortedClaim(s: State, limit: nat, i: nat, batch: seq<nat>) {
    && |batch| <= limit
    && (forall k | 0 <= k < |batch| :: Available(s, batch[k]))
    && (forall k, l | 0 <= k < l < |batch| :: batch[k] != batch[l] && Leads(s, i, batch[k], batch[l]))
    && (forall x: nat, k: nat | Available(s, x) && x !in batch && k < |batch| :: Leads(s, i, batch[k], x))
    && (|batch| < limit ==> forall x: nat | Available(s, x) :: x in batch)
  }

  lemma {:induction false} Claimable(s: State, limit: nat, i: nat) returns (batch: seq<nat>)
    ensures SortedClaim(s, limit, i, batch)
  {
    batch := [];
    if limit > 0 {
      batch := Claimable(s, limit - 1, i);
      var rest := set x: nat | x < |s.rows| && Available(s, x) && x !in batch;
      forall x: nat | Available(s, x) && x !in batch
        ensures x in rest
      {
      }
      if rest != {} {
        var next := Leader(s, i, rest);
        assert |batch| == limit - 1;
        batch := batch + [next];
      }
    }
  }

  lemma SortedIsClaim(s: State, limit: nat, i: nat, batch: seq<nat>)
    requires SortedClaim(s, limit, i, batch)
    ensures IsClaim(s, limit, batch)
  {
    forall k | 0 <= k < |s.rows| && Available(s, k) && k !in batch
      ensures |batch| == limit && forall l | 0 <= l < |batch| :: CreatedAt(s, batch[l]) <= CreatedAt(s, k)
    {
      forall l | 0 <= l < |batch|
        ensures CreatedAt(s, batch[l]) <= CreatedAt(s, k)
      {
        assert Leads(s, i, batch[l], k);
      }
    }
    forall k, l | 0 <= k < l < |batch|
      ensures batch[k] != batch[l] && CreatedAt(s, batch[k]) <= CreatedAt(s, batch[l])
    {
      assert Leads(s, i, batch[k], batch[l]);
    }
  }

  /** Row `j`, if it is not younger than row `i`, comes first. */
  lemma OvertakerFirst(s: State, limit: nat, i: nat, j: nat, batch: seq<nat>, l: nat)
    requires SortedClaim(s, limit, i, batch) && i != j && Available(s, i) && Available(s, j)
    requires CreatedAt(s, j) <= CreatedAt(s, i) && l < |batch| && batch[l] == i
    ensures j in batch[..l]
  {
    assert !Leads(s, i, batch[l], j);
    assert j in batch;
    var k :| 0 <= k < |batch| && batch[k] == j;
    assert !Leads(s, i, batch[l], batch[k]);
  }

  /******* Working through a batch *******/

  /** In what is left of the batch row `i` only comes after row `j`. */
  predicate FirstInLine(batch: seq<nat>, done: nat, i: nat, j: nat) {
    forall l | done <= l < |batch| && batch[l] == i :: j in batch[done..l]
  }

  lemma NextInLine(batch: seq<nat>, done: nat, i: nat, j: nat)
    requires FirstInLine(batch, done, i, j) && done < |batch| && batch[done] != j
    ensures FirstInLine(batch, done + 1, i, j) && batch[done] != i
  {
    forall l | done <= l < |batch| && batch[l] == i
      ensures l > done && j in batch[done + 1..l]
    {
      assert j in batch[done..l];
      assert batch[done..l] == [batch[done]] + batch[done + 1..l];
    }
  }

  /** A transaction over a table of `n` rows that has not come to row `j`, and has only failed to send row `i`. */
  predicate Passing(tx: Tx, n: nat, i: nat, j: nat, tie: bool) {
    && tx.send.Idle? && tx.done <= |tx.batch| && (forall k | 0 <= k < |tx.batch| :: tx.batch[k] < n)
    && j !in tx.marks && (forall m | m in tx.marks :: tx.marks[m].MarkFailed? <==> m == i)
    && (tie ==> FirstInLine(tx.batch, tx.done, i, j))
  }

  lemma PassingOn(tx: Tx, n: nat, i: nat, j: nat, tie: bool)
    requires Passing(tx, n, i, j, tie) && tx.done < |tx.batch| && tx.batch[tx.done] != j
    ensures
      var m := tx.batch[tx.done];
      Passing(Tx(tx.batch, tx.done + 1, tx.marks[m := if m == i then MarkFailed("down") else MarkPublished], Idle), n, i, j, tie)
    ensures tie ==> tx.batch[tx.done] != i
  {
    if tie {
      NextInLine(tx.batch, tx.done, i, j);
    }
  }

  /** The publisher is inside such a batch. */
  ghost predicate Working(cfg: Config, s: State, i: nat, j: nat) {
    && Behind(cfg, s, i, j) && s.open.Keys == {0}
    && Passing(s.open[0], |s.rows|, i, j, CreatedAt(s, j) <= CreatedAt(s, i))
  }

  /** Publisher `p` publishes and marks its current row. */
  function Published(cfg: Config, s: State, p: nat): State
    requires Sized(cfg, s) && p in s.open && Current(s, p)
  {
    var tx, m := s.open[p], Now(s, p);
    s.(open := s.open[p := Tx(tx.batch, tx.done + 1, tx.marks[m := MarkPublished], Idle)],
       audit := CountCall(s.audit, m, false), log := Appended(cfg, s, m))
  }

  /** The current row has been sent, and its report is not back yet. */
  function Shown(cfg: Config, s: State, p: nat): State
    requires Sized(cfg, s) && p in s.open && Current(s, p)
  {
    var tx, m := s.open[p], Now(s, p);
    s.(open := s.open[p := tx.(send := Delivered)], audit := CountCall(s.audit, m, false), log := Appended(cfg, s, m))
  }

  /** The call for the current row was refused, and the row is marked so. */
  function Refused(cfg: Config, s: State): State
    requires Sized(cfg, s) && 0 in s.open && Current(s, 0)
  {
    var tx, m := s.open[0], Now(s, 0);
    s.(open := s.open[0 := Tx(tx.batch, tx.done + 1, tx.marks[m := MarkFailed("down")], Idle)],
       audit := CountCall(s.audit, m, true))
  }

  lemma ShownReached(cfg: Config, solo: bool, s: State, p: nat)
    requires Reached(cfg, solo, s) && Sized(cfg, s) && Sending(s, p, Idle)
    ensures Reached(cfg, solo, Shown(cfg, s, p))
  {
    hide Reached, IsClaim;
    ReachedNext(cfg, solo, s, Produce(p));
    var a := Apply(cfg, s, Produce(p));
    ReachedNext(cfg, solo, a, Deliver(p));
    assert Apply(cfg, a, Deliver(p)) == Shown(cfg, s, p);
  }

  lemma PublishedReached(cfg: Config, solo: bool, s: State, p: nat)
    requires Reached(cfg, solo, s) && Sized(cfg, s) && Sending(s, p, Idle)
    ensures Reached(cfg, solo, Published(cfg, s, p))
  {
    hide Reached, IsClaim;
    ShownReached(cfg, solo, s, p);
    var a := Shown(cfg, s, p);
    ReachedNext(cfg, solo, a, Ack(p));
    var b := Apply(cfg, a, Ack(p));
    ReachedNext(cfg, solo, b, Mark(p));
    assert Apply(cfg, b, Mark(p)) == Published(cfg, s, p);
  }

  lemma RefusedReached(cfg: Config, s: State)
    requires Reached(cfg, true, s) && Sized(cfg, s) && Sending(s, 0, Idle)
    ensures Reached(cfg, true, Refused(cfg, s))
  {
    hide Reached, IsClaim;
    ReachedNext(cfg, true, s, Refuse(0, "down"));
    var a := Apply(cfg, s, Refuse(0, "down"));
    ReachedNext(cfg, true, a, Mark(0));
    assert Apply(cfg, a, Mark(0)) == Refused(cfg, s);
  }

  /** What one more record does to the copies of a row. */
  lemma CopiesAppended(cfg: Config, s: State, m: nat, i: nat)
    requires Sized(cfg, s) && IdsOk(s) && m < |s.rows| && i < |s.rows|
    ensures |Appended(cfg, s, m)| == cfg.partitions
    ensures var t := s.(log := Appended(cfg, s, m));
      Copies(cfg, t, i) == Copies(cfg, s, i) + One(i == m)
  {
    hide Message;
    if i != m && Message(s.rows[i].event) == Message(s.rows[m].event) {
      MessageInjective(s.rows[i].event, s.rows[m].event);
      assert false;
    }
    OneMoreRecord(cfg, s, PartitionOfRow(cfg, s, m), Message(s.rows[m].event), i);
  }

  lemma OneCall(audit: seq<Audit>, m: nat)
    requires m < |audit| && forall a | a in audit :: !a.failed
    ensures forall a | a in CountCall(audit, m, false) :: !a.failed
  {
    var after := CountCall(audit, m, false);
    forall k | 0 <= k < |after|
      ensures !after[k].failed
    {
      assert audit[k] in audit;
    }
  }

  lemma ShowOvertakes(cfg: Config, s: State, i: nat, j: nat)
    requires Working(cfg, s, i, j) && s.open[0].done < |s.open[0].batch| && Now(s, 0) == j
    ensures Reached(cfg, true, Shown(cfg, s, 0)) && Overtaken(cfg, Shown(cfg, s, 0), i, j)
    ensures CreatedAt(s, j) <= CreatedAt(s, i) ==> NothingFailed(Shown(cfg, s, 0))
  {
    hide Reached, IsClaim, Message, Passing, Appended, Copies, OrderInv;
    PassingNow(s.open[0], |s.rows|, i, j, CreatedAt(s, j) <= CreatedAt(s, i));
    ShownReached(cfg, true, s, 0);
    ShownCopies(cfg, s, i, j);
    if NothingFailed(s) {
      OneCall(s.audit, j);
    }
  }

  lemma ShownCopies(cfg: Config, s: State, i: nat, j: nat)
    requires Reached(cfg, true, s) && Sized(cfg, s) && Sending(s, 0, Idle) && Now(s, 0) == j && i < |s.rows| && i != j
    ensures Sized(cfg, Shown(cfg, s, 0))
    ensures Copies(cfg, Shown(cfg, s, 0), i) == Copies(cfg, s, i) && Copies(cfg, Shown(cfg, s, 0), j) > 0
  {
    hide Reached, IsClaim, Message, Appended, Copies;
    SoloInv(cfg, s);
    CopiesAppended(cfg, s, j, i);
    CopiesAppended(cfg, s, j, j);
    SameCopies(cfg, Shown(cfg, s, 0), s.(log := Appended(cfg, s, j)), i);
    SameCopies(cfg, Shown(cfg, s, 0), s.(log := Appended(cfg, s, j)), j);
  }

  lemma BehindStays(cfg: Config, s: State, t: State, i: nat, j: nat)
    requires Behind(cfg, s, i, j) && Reached(cfg, true, t) && t.rows == s.rows && |t.log| == |s.log|
    requires t.audit == s.audit || (|t.audit| == |s.audit| && (CreatedAt(s, j) <= CreatedAt(s, i) ==> NothingFailed(t)))
    requires Copies(cfg, t, i) == Copies(cfg, s, i)
    ensures Behind(cfg, t, i, j)
  {
    SoloInv(cfg, t);
  }

  lemma SameCopies(cfg: Config, s: State, t: State, i: nat)
    requires i < |s.rows| && i < |t.rows| && s.rows[i].event == t.rows[i].event
    requires s.log == t.log && |s.log| == cfg.partitions
    ensures Copies(cfg, s, i) == Copies(cfg, t, i)
  {
  }

  lemma PublishGoesOn(cfg: Config, s: State, i: nat, j: nat)
    requires Working(cfg, s, i, j) && s.open[0].done < |s.open[0].batch| && Now(s, 0) != j && Now(s, 0) != i
    ensures Working(cfg, Published(cfg, s, 0), i, j)
  {
    hide Reached, IsClaim, Message, Passing, Appended, Copies;
    PassingNow(s.open[0], |s.rows|, i, j, CreatedAt(s, j) <= CreatedAt(s, i));
    PassingOn(s.open[0], |s.rows|, i, j, CreatedAt(s, j) <= CreatedAt(s, i));
    SoloInv(cfg, s);
    PublishedReached(cfg, true, s, 0);
    CopiesAppended(cfg, s, Now(s, 0), i);
    SameCopies(cfg, Published(cfg, s, 0), s.(log := Appended(cfg, s, Now(s, 0))), i);
    if NothingFailed(s) {
      OneCall(s.audit, Now(s, 0));
    }
    BehindStays(cfg, s, Published(cfg, s, 0), i, j);
  }

  lemma RefuseGoesOn(cfg: Config, s: State, i: nat, j: nat)
    requires Working(cfg, s, i, j) && s.open[0].done < |s.open[0].batch| && Now(s, 0) == i
    ensures Working(cfg, Refused(cfg, s), i, j)
  {
    hide Reached, IsClaim, Message, Passing, Copies;
    PassingNow(s.open[0], |s.rows|, i, j, CreatedAt(s, j) <= CreatedAt(s, i));
    PassingOn(s.open[0], |s.rows|, i, j, CreatedAt(s, j) <= CreatedAt(s, i));
    RefusedReached(cfg, s);
    SameCopies(cfg, Refused(cfg, s), s, i);
    BehindStays(cfg, s, Refused(cfg, s), i, j);
  }

  lemma PassingNow(tx: Tx, n: nat, i: nat, j: nat, tie: bool)
    requires Passing(tx, n, i, j, tie)
    ensures tx.send.Idle? && tx.done <= |tx.batch| && forall k | 0 <= k < |tx.batch| :: tx.batch[k] < n
  {
  }

  /** The same events, and everything that was published still is. */
  ghost predicate Gained(s: State, t: State) {
    && |t.rows| == |s.rows|
    && forall k | 0 <= k < |s.rows| ::
         t.rows[k].event == s.rows[k].event && (s.rows[k].published ==> t.rows[k].published)
  }

  /** What the commit of a batch does to the table. */
  lemma CommitMarks(cfg: Config, s: State, i: nat, j: nat)
    requires Working(cfg, s, i, j) && s.open[0].done == |s.open[0].batch| && TxOk(s, s.open[0])
    ensures var rows := CommitRows(s.rows, s.open[0].marks);
      && !rows[i].published && !rows[j].published
      && (forall k | 0 <= k < |rows| :: rows[k].event == s.rows[k].event && (s.rows[k].published ==> rows[k].published))
      && (forall m | m in s.open[0].batch && m != i :: m < |rows| && rows[m].published)
  {
    hide Reached, Message, FirstInLine, Copies, NothingFailed;
    assert s.open[0].batch[..s.open[0].done] == s.open[0].batch;
  }

  lemma CommitEnds(cfg: Config, s: State, i: nat, j: nat) returns (t: State)
    requires Working(cfg, s, i, j) && s.open[0].done == |s.open[0].batch|
    ensures Behind(cfg, t, i, j) && t.open == map[] && Gained(s, t)
    ensures forall m | m in s.open[0].batch && m != i :: m < |t.rows| && t.rows[m].published
  {
    SoloInv(cfg, s);
    assert TxOk(s, s.open[0]);
    hide Reached, Message, IsClaim, FirstInLine, Copies, NothingFailed, OrderInv, Inv, TxOk;
    CommitMarks(cfg, s, i, j);
    ReachedNext(cfg, true, s, OutboxMachine.Step.Commit(0));
    hide CommitRows;
    t := Apply(cfg, s, OutboxMachine.Step.Commit(0));
    SameCopies(cfg, t, s, i);
    SameFailures(s, t);
  }

  lemma SameFailures(s: State, t: State)
    requires s.audit == t.audit
    ensures NothingFailed(s) <==> NothingFailed(t)
  {
  }

  /** Either row `j` gets into the log while row `i` is not, or the batch ends and all its other rows are published. */
  lemma {:induction false} Work(cfg: Config, s: State, i: nat, j: nat) returns (t: State)
    requires Working(cfg, s, i, j)
    ensures Reached(cfg, true, t) && Gained(s, t)
    ensures
      || (Overtaken(cfg, t, i, j) && (CreatedAt(s, j) <= CreatedAt(s, i) ==> NothingFailed(t)))
      || (Behind(cfg, t, i, j) && t.open == map[]
          && forall m | m in s.open[0].batch && m != i :: m < |t.rows| && t.rows[m].published)
    decreases |s.open[0].batch| - s.open[0].done
  {
    hide Reached, Overtaken, NothingFailed, Passing;
    PassingNow(s.open[0], |s.rows|, i, j, CreatedAt(s, j) <= CreatedAt(s, i));
    if s.open[0].done == |s.open[0].batch| {
      t := CommitEnds(cfg, s, i, j);
    } else if Now(s, 0) == j {
      ShowOvertakes(cfg, s, i, j);
      t := Shown(cfg, s, 0);
    } else if Now(s, 0) == i {
      RefuseGoesOn(cfg, s, i, j);
      t := Work(cfg, Refused(cfg, s), i, j);
    } else {
      PublishGoesOn(cfg, s, i, j);
      t := Work(cfg, Published(cfg, s, 0), i, j);
    }
  }

  /** A claim that can be passed, and a row of it other than row `i`. */
  lemma StartBatch(cfg: Config, s: State, i: nat, j: nat) returns (t: State, m: nat)
    requires Behind(cfg, s, i, j) && s.open == map[] && cfg.batchSize >= 1
    requires CreatedAt(s, j) <= CreatedAt(s, i) || cfg.batchSize >= 2
    ensures Working(cfg, t, i, j) && t.rows == s.rows
    ensures m in t.open[0].batch && m != i && m < |s.rows| && !s.rows[m].published
  {
    var batch := Claimable(s, cfg.batchSize, i);
    SortedIsClaim(s, cfg.batchSize, i, batch);
    assert Available(s, i) && Available(s, j);
    if CreatedAt(s, j) <= CreatedAt(s, i) {
      forall l | 0 <= l < |batch| && batch[l] == i
        ensures j in batch[0..l]
      {
        OvertakerFirst(s, cfg.batchSize, i, j, batch, l);
        assert batch[0..l] == batch[..l];
      }
      assert FirstInLine(batch, 0, i, j);
    }
    if |batch| < cfg.batchSize {
      m := j;
    } else {
      m := if batch[0] == i then batch[1] else batch[0];
    }
    assert Available(s, m);
    ClaimReached(cfg, s, i, j, batch);
    t := Apply(cfg, s, Claim(0, batch));
  }

  lemma ClaimReached(cfg: Config, s: State, i: nat, j: nat, batch: seq<nat>)
    requires Behind(cfg, s, i, j) && s.open == map[] && IsClaim(s, cfg.batchSize, batch)
    requires CreatedAt(s, j) <= CreatedAt(s, i) ==> FirstInLine(batch, 0, i, j)
    ensures Enabled(cfg, s, Claim(0, batch)) && Working(cfg, Apply(cfg, s, Claim(0, batch)), i, j)
  {
    hide Reached, FirstInLine, Message, Copies, NothingFailed;
    ReachedNext(cfg, true, s, Claim(0, batch));
    var t := Apply(cfg, s, Claim(0, batch));
    forall k | 0 <= k < |batch|
      ensures batch[k] < |s.rows|
    {
      assert Available(s, batch[k]);
    }
    hide IsClaim, Enabled;
    SameCopies(cfg, t, s, i);
    BehindStays(cfg, s, t, i, j);
  }

  function Waiting(rows: seq<Row>): set<nat> {
    set k: nat | k < |rows| && !rows[k].published
  }

  lemma FewerWaiting(s: State, t: State, m: nat)
    requires Gained(s, t) && m < |s.rows| && !s.rows[m].published && t.rows[m].published
    ensures |Waiting(t.rows)| < |Waiting(s.rows)|
  {
    assert Waiting(t.rows) <= Waiting(s.rows) - {m};
    Smaller(Waiting(t.rows), Waiting(s.rows) - {m});
  }

  lemma {:induction false} Smaller(a: set<nat>, b: set<nat>)
    requires a <= b
    ensures |a| <= |b|
  {
    if a != {} {
      var x :| x in a;
      Smaller(a - {x}, b - {x});
    }
  }

  /** A publisher that works on and on lets row `j` overtake row `i`. */
  lemma {:induction false} Drive(cfg: Config, s: State, i: nat, j: nat) returns (t: State)
    requires Behind(cfg, s, i, j) && s.open == map[] && cfg.batchSize >= 1
    requires CreatedAt(s, j) <= CreatedAt(s, i) || cfg.batchSize >= 2
    ensures Reached(cfg, true, t) && Gained(s, t) && Overtaken(cfg, t, i, j)
    ensures CreatedAt(s, j) <= CreatedAt(s, i) ==> NothingFailed(t)
    decreases |Waiting(s.rows)|
  {
    hide Reached, NothingFailed, Overtaken, Working, Waiting;
    var u, m := StartBatch(cfg, s, i, j);
    WorkingIsBehind(cfg, u, i, j);
    var v := Work(cfg, u, i, j);
    if Overtaken(cfg, v, i, j) && (CreatedAt(s, j) <= CreatedAt(s, i) ==> NothingFailed(v)) {
      t := v;
    } else {
      FewerWaiting(s, v, m);
      t := Drive(cfg, v, i, j);
    }
  }

  lemma WorkingIsBehind(cfg: Config, s: State, i: nat, j: nat)
    requires Working(cfg, s, i, j)
    ensures Behind(cfg, s, i, j)
  {
  }

  /** A history with two events of one order, committed in the order `i`, `j`, that some run logs the other way. */
  lemma SomeRunOvertakes(cfg: Config, events: seq<Event>, i: nat, j: nat) returns (t: State)
    requires Distinct(events) && i < j < |events| && events[i].partitionKey == events[j].partitionKey
    requires cfg.batchSize >= 2 || (cfg.batchSize == 1 && events[j].createdAt <= events[i].createdAt)
    ensures Reached(cfg, true, t) && EventsOf(t) <= events && Sized(cfg, t) && !InOrder(cfg, t)
    ensures events[j].createdAt <= events[i].createdAt ==> NothingFailed(t)
  {
    hide Reached, NothingFailed, Overtaken, Behind, InOrder;
    var s := Inserted(cfg, events, j + 1);
    InsertAll(cfg, events, j + 1);
    InsertedBehind(cfg, events, i, j);
    t := Drive(cfg, s, i, j);
    OvertakenBreaksOrder(cfg, t, i, j);
    assert forall k | 0 <= k <= j :: EventsOf(t)[k] == s.rows[k].event == events[k];
  }

  lemma InsertedBehind(cfg: Config, events: seq<Event>, i: nat, j: nat)
    requires Distinct(events) && i < j < |events| && events[i].partitionKey == events[j].partitionKey
    requires Reached(cfg, true, Inserted(cfg, events, j + 1))
    ensures Behind(cfg, Inserted(cfg, events, j + 1), i, j)
  {
    hide Reached, Message;
    SoloInv(cfg, Inserted(cfg, events, j + 1));
  }

  /******* The theorems *******/

  /**
   One publisher at a time, whatever fails: the log keeps the commit order of a history exactly if nothing is
   ever claimed, or `created_at` increases with the commits of every order and either rows are claimed one by
   one or no order has two events.
   */
  lemma KeptWhateverFailsExactly(cfg: Config, events: seq<Event>)
    requires Distinct(events)
    ensures KeptWhateverFails(cfg, events)
            <==> cfg.batchSize == 0 || (Increasing(events) && (cfg.batchSize == 1 || OnePerOrder(events)))
  {
    hide Reached, InOrder, NothingFailed;
    if cfg.batchSize == 0 || (Increasing(events) && (cfg.batchSize == 1 || OnePerOrder(events))) {
      forall s | Reached(cfg, true, s) && EventsOf(s) <= events
        ensures Sized(cfg, s) && InOrder(cfg, s)
      {
        if cfg.batchSize == 0 {
          EmptyLogInOrder(cfg, true, s);
        } else {
          EnoughAt(cfg, s, events);
        }
      }
    } else {
      var i, j :| 0 <= i < j < |events| && events[i].partitionKey == events[j].partitionKey
                  && (cfg.batchSize >= 2 || events[j].createdAt <= events[i].createdAt);
      var t := SomeRunOvertakes(cfg, events, i, j);
    }
  }

  /** The same for the runs in which no Publish call fails: then only `created_at` matters. */
  lemma KeptIfNothingFailsExactly(cfg: Config, events: seq<Event>)
    requires Distinct(events)
    ensures KeptIfNothingFails(cfg, events) <==> cfg.batchSize == 0 || Increasing(events)
  {
    hide Reached, InOrder, NothingFailed;
    if cfg.batchSize == 0 || Increasing(events) {
      forall s | Reached(cfg, true, s) && EventsOf(s) <= events && NothingFailed(s)
        ensures Sized(cfg, s) && InOrder(cfg, s)
      {
        if cfg.batchSize == 0 {
          EmptyLogInOrder(cfg, true, s);
        } else {
          EnoughAt(cfg, s, events);
        }
      }
    } else {
      var i, j :| 0 <= i < j < |events| && events[i].partitionKey == events[j].partitionKey
                  && events[j].createdAt <= events[i].createdAt;
      var t := SomeRunOvertakes(cfg, events, i, j);
    }
  }

  /******* Any number of publishers *******/

  /** The log is in commit order in every state of every run, with any number of publishers. */
  ghost predicate KeptByMany(cfg: Config, events: seq<Event>) {
    forall s | Reached(cfg, false, s) && EventsOf(s) <= events :: Sized(cfg, s) && InOrder(cfg, s)
  }

  ghost predicate KeptByManyIfNothingFails(cfg: Config, events: seq<Event>) {
    forall s | Reached(cfg, false, s) && EventsOf(s) <= events && NothingFailed(s) :: Sized(cfg, s) && InOrder(cfg, s)
  }

  /** Nothing has failed, and every row is published or held by a publisher. */
  ghost predicate NothingLeft(cfg: Config, s: State) {
    Reached(cfg, false, s) && Sized(cfg, s) && NothingFailed(s) && forall k: nat | k < |s.rows| :: !Available(s, k)
  }

  /** The next event has been inserted, and publisher `p` holds its row. */
  function HeldNext(s: State, p: nat, e: Event): State {
    s.(rows := s.rows + [NewRow(e)], audit := s.audit + [Audit(0, 0, false)],
       open := s.open[p := Tx([|s.rows|], 0, map[], Idle)])
  }

  lemma OnlyNextAvailable(cfg: Config, s: State, e: Event)
    requires NothingLeft(cfg, s) && OpenOk(s)
    ensures var a := s.(rows := s.rows + [NewRow(e)], audit := s.audit + [Audit(0, 0, false)]);
      cfg.batchSize >= 1 ==> IsClaim(a, cfg.batchSize, [|s.rows|])
  {
    var a := s.(rows := s.rows + [NewRow(e)], audit := s.audit + [Audit(0, 0, false)]);
    forall q | q in a.open
      ensures |s.rows| !in a.open[q].batch
    {
      assert TxOk(s, s.open[q]);
    }
    forall k: nat | k < |s.rows|
      ensures !Available(a, k)
    {
      assert !Available(s, k);
    }
  }

  lemma HoldNext(cfg: Config, s: State, p: nat, e: Event)
    requires NothingLeft(cfg, s) && p !in s.open && cfg.batchSize >= 1
    requires forall r | r in s.rows :: r.event.id != e.id
    ensures Reached(cfg, false, HeldNext(s, p, e)) && NothingLeft(cfg, HeldNext(s, p, e))
    ensures Copies(cfg, HeldNext(s, p, e), |s.rows|) == 0
    ensures forall i: nat | i < |s.rows| :: Copies(cfg, HeldNext(s, p, e), i) == Copies(cfg, s, i)
  {
    hide Message, Reached, IsClaim;
    ReachedInv(cfg, false, s);
    ReachedNext(cfg, false, s, Insert(e));
    var a := Apply(cfg, s, Insert(e));
    OnlyNextAvailable(cfg, s, e);
    ReachedNext(cfg, false, a, Claim(p, [|s.rows|]));
    var t := HeldNext(s, p, e);
    ReachedInv(cfg, false, t);
    assert CallsAt(t, |s.rows|) && CopiesAt(cfg, t, |s.rows|) by {
      hide CallsAt, CopiesAt;
    }
    forall k: nat | k < |t.rows|
      ensures !Available(t, k)
    {
      if k < |s.rows| {
        assert !Available(s, k);
        HeldStays(s, t, p, k);
      } else {
        assert p in t.open && k in t.open[p].batch;
      }
    }
    forall k | 0 <= k < |t.audit|
      ensures !t.audit[k].failed
    {
      assert k < |s.audit| ==> s.audit[k] in s.audit;
    }
  }

  /** A row that was published or held still is. */
  lemma HeldStays(s: State, t: State, p: nat, k: nat)
    requires k < |s.rows| && k < |t.rows| && !Available(s, k) && t.rows[k].published == s.rows[k].published
    requires p !in s.open && forall q | q in s.open :: q in t.open && t.open[q] == s.open[q]
    ensures !Available(t, k)
  {
    if !s.rows[k].published {
      var q :| q in s.open && k in s.open[q].batch;
      assert q in t.open && k in t.open[q].batch;
    }
  }

  /** The held row has been published, and its transaction has committed. */
  function Committed(cfg: Config, s: State, p: nat, e: Event): State
    requires |s.log| == cfg.partitions
  {
    State(s.rows + [NewRow(e).(published := true)], s.open, s.orphans,
          Appended(cfg, HeldNext(s, p, e), |s.rows|), s.audit + [Audit(1, 0, false)])
  }

  lemma CommittedReached(cfg: Config, s: State, p: nat, e: Event)
    requires Sized(cfg, s) && p !in s.open && Reached(cfg, false, HeldNext(s, p, e))
    ensures Reached(cfg, false, Committed(cfg, s, p, e))
  {
    hide Reached, IsClaim, Message;
    var h, n := HeldNext(s, p, e), |s.rows|;
    PublishedReached(cfg, false, h, p);
    var a, step := Published(cfg, h, p), OutboxMachine.Step.Commit(p);
    ReachedNext(cfg, false, a, step);
    var t := Apply(cfg, a, step);
    assert t.rows == Committed(cfg, s, p, e).rows;
    assert t.audit == Committed(cfg, s, p, e).audit;
    assert t.open == s.open;
  }

  lemma PublishNext(cfg: Config, s: State, p: nat, e: Event)
    requires NothingLeft(cfg, s) && p !in s.open && cfg.batchSize >= 1
    requires forall r | r in s.rows :: r.event.id != e.id
    ensures NothingLeft(cfg, Committed(cfg, s, p, e))
    ensures forall i: nat | i < |s.rows| :: Copies(cfg, Committed(cfg, s, p, e), i) == Copies(cfg, s, i)
  {
    hide Message, Reached, IsClaim, Appended, Copies;
    HoldNext(cfg, s, p, e);
    CommittedReached(cfg, s, p, e);
    var h, t := HeldNext(s, p, e), Committed(cfg, s, p, e);
    ReachedInv(cfg, false, h);
    ReachedInv(cfg, false, t);
    forall k: nat | k < |t.rows|
      ensures !Available(t, k)
    {
      if k < |s.rows| {
        assert !Available(s, k);
        HeldStays(s, t, p, k);
      }
    }
    forall k | 0 <= k < |t.audit|
      ensures !t.audit[k].failed
    {
      assert k < |s.audit| ==> s.audit[k] in s.audit;
    }
    forall i: nat | i < |s.rows|
      ensures Copies(cfg, t, i) == Copies(cfg, s, i)
    {
      CopiesAppended(cfg, h, |s.rows|, i);
      SameCopies(cfg, t, h.(log := Appended(cfg, h, |s.rows|)), i);
    }
  }

  lemma NewToPrefix(s: State, events: seq<Event>, n: nat)
    requires Distinct(events) && n < |events| && EventsOf(s) == events[..n]
    ensures forall r | r in s.rows :: r.event.id != events[n].id
  {
    forall k | 0 <= k < |s.rows|
      ensures s.rows[k].event.id != events[n].id
    {
      assert EventsOf(s)[k] == events[k];
    }
  }

  lemma NextEvents(s: State, t: State, events: seq<Event>, n: nat)
    requires n < |events| && EventsOf(s) == events[..n] && |t.rows| == n + 1 && t.rows[n].event == events[n]
    requires forall k | 0 <= k < n :: t.rows[k].event == s.rows[k].event
    ensures EventsOf(t) == events[..n + 1]
  {
    forall k | 0 <= k < n
      ensures EventsOf(t)[k] == events[k]
    {
      assert EventsOf(s)[k] == events[k];
    }
  }

  /** A publisher that keeps up with the first `n` events. */
  lemma {:induction false} KeptUp(cfg: Config, events: seq<Event>, n: nat) returns (s: State)
    requires Distinct(events) && n <= |events| && cfg.batchSize >= 1
    ensures NothingLeft(cfg, s) && s.open == map[] && EventsOf(s) == events[..n]
  {
    if n == 0 {
      s := Init(cfg);
      assert Exec(cfg, []) == Some(s);
    } else {
      hide NothingLeft, Appended;
      var before := KeptUp(cfg, events, n - 1);
      NewToPrefix(before, events, n - 1);
      PublishNext(cfg, before, 1, events[n - 1]);
      assert |before.log| == cfg.partitions by {
        LeftSized(cfg, before);
      }
      s := Committed(cfg, before, 1, events[n - 1]);
      NextEvents(before, s, events, n - 1);
    }
  }

  lemma LeftSized(cfg: Config, s: State)
    requires NothingLeft(cfg, s)
    ensures Sized(cfg, s)
  {
  }

  /** Publisher 0 holds row `i` and rests, while publisher 1 keeps up with the events after it. */
  lemma {:induction false} HeldBack(cfg: Config, events: seq<Event>, i: nat, n: nat) returns (s: State)
    requires Distinct(events) && i < n <= |events| && cfg.batchSize >= 1
    ensures NothingLeft(cfg, s) && s.open.Keys == {0} && EventsOf(s) == events[..n]
    ensures |s.log| == cfg.partitions && Copies(cfg, s, i) == 0
  {
    hide NothingLeft, Appended, Copies;
    if n == i + 1 {
      var before := KeptUp(cfg, events, i);
      NewToPrefix(before, events, i);
      HoldNext(cfg, before, 0, events[i]);
      s := HeldNext(before, 0, events[i]);
      LeftSized(cfg, s);
      NextEvents(before, s, events, i);
    } else {
      var before := HeldBack(cfg, events, i, n - 1);
      NewToPrefix(before, events, n - 1);
      LeftSized(cfg, before);
      PublishNext(cfg, before, 1, events[n - 1]);
      s := Committed(cfg, before, 1, events[n - 1]);
      LeftSized(cfg, s);
      NextEvents(before, s, events, n - 1);
    }
  }

  /** Two publishers log two events of one order the wrong way round, whatever they are, and no call fails. */
  lemma TwoPublishersOvertake(cfg: Config, events: seq<Event>, i: nat, j: nat) returns (t: State)
    requires Distinct(events) && i < j < |events| && events[i].partitionKey == events[j].partitionKey
    requires cfg.batchSize >= 1
    ensures Reached(cfg, false, t) && EventsOf(t) <= events && NothingFailed(t)
    ensures Sized(cfg, t) && !InOrder(cfg, t)
  {
    hide Reached, Appended, Copies, InOrder, Message;
    var before := HeldBack(cfg, events, i, j);
    NewToPrefix(before, events, j);
    HoldNext(cfg, before, 1, events[j]);
    var s := HeldNext(before, 1, events[j]);
    ShownReached(cfg, false, s, 1);
    t := Shown(cfg, s, 1);
    NextEvents(before, t, events, j);
    assert EventsOf(t)[i] == events[i];
    ShownOvertakes(cfg, s, i, j);
    OvertakenBreaksOrder(cfg, t, i, j);
    OneCall(s.audit, j);
  }

  lemma ShownOvertakes(cfg: Config, s: State, i: nat, j: nat)
    requires Reached(cfg, false, s) && Sized(cfg, s) && Sending(s, 1, Idle) && Now(s, 1) == j
    requires Earlier(s, i, j) && Copies(cfg, s, i) == 0
    ensures Overtaken(cfg, Shown(cfg, s, 1), i, j)
  {
    hide Reached, Appended, Copies, Message;
    ReachedInv(cfg, false, s);
    CopiesAppended(cfg, s, j, i);
    CopiesAppended(cfg, s, j, j);
    SameCopies(cfg, Shown(cfg, s, 1), s.(log := Appended(cfg, s, j)), i);
    SameCopies(cfg, Shown(cfg, s, 1), s.(log := Appended(cfg, s, j)), j);
  }

  /**
   Any number of publishers: the log keeps the commit order of a history exactly if nothing is ever claimed or no
   order has two events, and that is so even for the runs in which no Publish call fails.
   */
  lemma KeptByManyExactly(cfg: Config, events: seq<Event>)
    requires Distinct(events)
    ensures KeptByMany(cfg, events) <==> cfg.batchSize == 0 || OnePerOrder(events)
    ensures KeptByManyIfNothingFails(cfg, events) <==> cfg.batchSize == 0 || OnePerOrder(events)
  {
    hide Reached, InOrder, NothingFailed;
    if cfg.batchSize == 0 || OnePerOrder(events) {
      forall s | Reached(cfg, false, s) && EventsOf(s) <= events
        ensures Sized(cfg, s) && InOrder(cfg, s)
      {
        if cfg.batchSize == 0 {
          EmptyLogInOrder(cfg, false, s);
        } else {
          NothingToOrder(cfg, s, events);
        }
      }
    } else {
      var i, j :| 0 <= i < j < |events| && events[i].partitionKey == events[j].partitionKey;
      var t := TwoPublishersOvertake(cfg, events, i, j);
    }
  }

  lemma NothingToOrder(cfg: Config, s: State, events: seq<Event>)
    requires Reached(cfg, false, s) && EventsOf(s) <= events && OnePerOrder(events)
    ensures Sized(cfg, s) && InOrder(cfg, s)
  {
    hide Reached;
    ReachedInv(cfg, false, s);
    forall i: nat, j: nat | i < j < |s.rows|
      ensures !Earlier(s, i, j)
    {
      assert EventsOf(s)[i] == events[i] && EventsOf(s)[j] == events[j];
    }
  }
}
