/**
 The two-step requests (lookup, then transaction) refine an atomic ledger that executes each
 idempotency key at most once.
 */
module Idempotency {
  import opened Types
  import opened OrderMachine
  import opened OrderInvariants

  /******* The atomic specification *******/

  datatype Call = Pending(request: Request) | Decided(request: Request, outcome: Outcome)

  datatype Spec = Spec(ledger: map<Key, IdemRow>, calls: map<nat, Call>, responses: seq<Response>)

  datatype Action =
    | Stutter
    | Invoke(p: nat, call: Call)
    | Execute(p: nat, resource: Resource, reported: bool)
    | Replay(p: nat)
    | Reject(p: nat)
    | Give(p: nat, outcome: Outcome)
    | Return(p: nat)
    | Die(p: nat)

  predicate IsPending(a: Spec, p: nat) {
    p in a.calls && a.calls[p].Pending?
  }

  /** Everything one request may do to the ledger happens in one action. */
  ghost predicate May(cfg: Config, a: Spec, act: Action) {
    match act
    case Stutter => true
    case Invoke(p, call) => p !in a.calls && (call.Decided? ==> call.outcome.Failed? && !call.outcome.error.IdempotencyConflict?)
    case Execute(p, resource, _) =>
      && IsPending(a, p) && HasKey(a.calls[p].request)
      && KeyOf(a.calls[p].request) !in a.ledger
      && (a.calls[p].request.CreateRequest? <==> resource.OrderResource?)
      && (forall k | k in a.ledger :: a.ledger[k].resource != resource)
    case Replay(p) =>
      && IsPending(a, p) && HasKey(a.calls[p].request)
      && KeyOf(a.calls[p].request) in a.ledger
      && Matches(cfg, a.calls[p].request, a.ledger[KeyOf(a.calls[p].request)])
    case Reject(p) =>
      && IsPending(a, p) && HasKey(a.calls[p].request)
      && KeyOf(a.calls[p].request) in a.ledger
      && !Matches(cfg, a.calls[p].request, a.ledger[KeyOf(a.calls[p].request)])
    case Give(p, outcome) =>
      && IsPending(a, p)
      && !outcome.Answer?
      && (outcome.CancelDone? ==> a.calls[p].request.CancelRequest?)
      && (outcome.Failed? ==> !outcome.error.IdempotencyConflict?)
    case Return(p) => p in a.calls && a.calls[p].Decided?
    case Die(p) => p in a.calls
  }

  function Decide(a: Spec, p: nat, outcome: Outcome): Spec
    requires p in a.calls
  {
    a.(calls := a.calls[p := Decided(a.calls[p].request, outcome)])
  }

  function Do(cfg: Config, a: Spec, act: Action): Spec
    requires May(cfg, a, act)
  {
    match act
    case Stutter => a
    case Invoke(p, call) => a.(calls := a.calls[p := call])
    case Execute(p, resource, reported) =>
      var r := a.calls[p].request;
      var row := RowFor(cfg, r, resource);
      Decide(a.(ledger := a.ledger[KeyOf(r) := row]), p,
             if reported then Answer(resource, row.statusCode, false) else Failed(StoreError))
    case Replay(p) =>
      var row := a.ledger[KeyOf(a.calls[p].request)];
      Decide(a, p, Answer(row.resource, row.statusCode, true))
    case Reject(p) => Decide(a, p, Failed(IdempotencyConflict))
    case Give(p, outcome) => Decide(a, p, outcome)
    case Return(p) =>
      a.(calls := a.calls - {p}, responses := a.responses + [Response(a.calls[p].request, a.calls[p].outcome)])
    case Die(p) => a.(calls := a.calls - {p})
  }

  /******* Refinement *******/

  function CallOf(proc: Proc): Call {
    if proc.Answering? then Decided(proc.request, proc.outcome) else Pending(proc.request)
  }

  function Abs(s: State): Spec {
    Spec(s.db.idem, map p | p in s.procs :: CallOf(s.procs[p]), s.responses)
  }

  /** The request body that a step brings in. */
  function NewBody(cfg: Config, step: Step): set<RequestBody> {
    if step.Receive? && Keyed(Admit(cfg, step.request).request) then {BodyOf(Admit(cfg, step.request).request)} else {}
  }

  /** The bodies of the requests that a run has received. */
  function Bodies(cfg: Config, steps: seq<Step>): set<RequestBody> {
    if steps == [] then {} else Bodies(cfg, steps[..|steps| - 1]) + NewBody(cfg, steps[|steps| - 1])
  }

  lemma {:induction false} BodiesGrow(cfg: Config, steps: seq<Step>, all: seq<Step>)
    requires steps <= all
    ensures Bodies(cfg, steps) <= Bodies(cfg, all)
  {
    if steps == all {
    } else {
      BodiesGrow(cfg, steps, all[..|all| - 1]);
    }
  }

  /** No two of these request bodies share a hash. */
  ghost predicate CollisionFree(cfg: Config, bodies: set<RequestBody>) {
    forall a, b | a in bodies && b in bodies && cfg.hash(a) == cfg.hash(b) :: a == b
  }

  /** The atomic action that each concrete step performs. */
  function ActionOf(cfg: Config, s: State, step: Step): Action
    requires Enabled(cfg, s, step)
  {
    match step
    case Receive(p, r) => Invoke(p, CallOf(Admit(cfg, r)))
    case Lookup(p, ok) =>
      (match AfterLookup(cfg, s.db, s.procs[p].request, ok)
       case Answering(_, _) => Reject(p)
       case _ => Stutter)
    case ReadBack(p, ok) => if ok then Replay(p) else Give(p, Failed(StoreError))
    case LockOrder(p) =>
      (match AfterLock(s.db, s.procs[p].request, s.procs[p].tx)
       case Answering(_, o) => Give(p, o)
       case _ => Stutter)
    case Fail(p) => Give(p, Failed(FailureOf(s.procs[p])))
    case Commit(p, reported) =>
      var r, tx := s.procs[p].request, s.procs[p].tx;
      (match r
       case CreateRequest(_, _, _, _, _, _, _) => Execute(p, OrderResource(tx.order.value.id), reported)
       case PayRequest(_, _, _, _, _, _) => Execute(p, PaymentResource(tx.payment.value.id), reported)
       case CancelRequest(_, _, _) =>
         Give(p, if reported then CancelDone(tx.order.value.id) else Failed(StoreError)))
    case Respond(p) => Return(p)
    case Crash(p) => Die(p)
    case _ => Stutter
  }

  /** The row under `k` was written for a request with one of these bodies. */
  ghost predicate WrittenFrom(cfg: Config, db: Db, k: Key, bodies: set<RequestBody>)
    requires k in db.idem
  {
    exists r :: WrittenFor(cfg, db, k, r) && BodyOf(r) in bodies
  }

  /** Everything the service works on, has answered or has recorded goes back to these bodies. */
  ghost predicate FromBodies(cfg: Config, s: State, bodies: set<RequestBody>) {
    && (forall p | p in s.procs && Keyed(s.procs[p].request) :: BodyOf(s.procs[p].request) in bodies)
    && (forall i | 0 <= i < |s.responses| && Keyed(s.responses[i].request) :: BodyOf(s.responses[i].request) in bodies)
    && (forall k | k in s.db.idem :: WrittenFrom(cfg, s.db, k, bodies))
  }

  lemma WrittenStays(cfg: Config, db: Db, r: Request, tx: Tx, k: Key, bodies: set<RequestBody>)
    requires Commits(cfg, db, r, tx) && k in Committed(db, r, tx).idem
    requires k in db.idem ==> WrittenFrom(cfg, db, k, bodies)
    requires Keyed(r) ==> BodyOf(r) in bodies
    ensures WrittenFrom(cfg, Committed(db, r, tx), k, bodies)
  {
    if k in db.idem {
      var r' :| WrittenFor(cfg, db, k, r') && BodyOf(r') in bodies;
      assert WrittenFor(cfg, Committed(db, r, tx), k, r');
    } else {
      assert WrittenFor(cfg, Committed(db, r, tx), k, r);
    }
  }

  lemma MoreBodies(cfg: Config, s: State, bodies: set<RequestBody>, more: set<RequestBody>)
    requires FromBodies(cfg, s, bodies) && bodies <= more
    ensures FromBodies(cfg, s, more)
  {
    forall k | k in s.db.idem
      ensures WrittenFrom(cfg, s.db, k, more)
    {
      var r :| WrittenFor(cfg, s.db, k, r) && BodyOf(r) in bodies;
      assert WrittenFor(cfg, s.db, k, r) && BodyOf(r) in more;
    }
  }

  /** The request of a process stays, and a commit changes no other table than the service's. */
  lemma BodiesOfStep(cfg: Config, s: State, step: Step, bodies: set<RequestBody>)
    requires Enabled(cfg, s, step) && FromBodies(cfg, s, bodies) && NewBody(cfg, step) <= bodies
    ensures var t := Apply(cfg, s, step);
      && (forall p | p in t.procs && Keyed(t.procs[p].request) :: BodyOf(t.procs[p].request) in bodies)
      && (forall i | 0 <= i < |t.responses| && Keyed(t.responses[i].request) :: BodyOf(t.responses[i].request) in bodies)
  {
    hide WrittenFrom, BodyOf;
  }

  lemma StepFromBodies(cfg: Config, s: State, step: Step, bodies: set<RequestBody>)
    requires Inv(cfg, s) && Enabled(cfg, s, step) && FromBodies(cfg, s, bodies) && NewBody(cfg, step) <= bodies
    ensures FromBodies(cfg, Apply(cfg, s, step), bodies)
  {
    BodiesOfStep(cfg, s, step, bodies);
    if step.Commit? {
      var proc := s.procs[step.p];
      ProcIsOk(cfg, s, step.p);
      forall k | k in Apply(cfg, s, step).db.idem
        ensures WrittenFrom(cfg, Apply(cfg, s, step).db, k, bodies)
      {
        WrittenStays(cfg, s.db, proc.request, proc.tx, k, bodies);
      }
    }
  }

  lemma {:induction false} RunFromBodies(cfg: Config, steps: seq<Step>)
    requires Exec(cfg, steps).Some?
    ensures FromBodies(cfg, Exec(cfg, steps).value, Bodies(cfg, steps))
  {
    if steps != [] {
      hide Inv, Enabled, Apply, FromBodies;
      var init := steps[..|steps| - 1];
      RunFromBodies(cfg, init);
      RunKeepsInv(cfg, init);
      MoreBodies(cfg, Exec(cfg, init).value, Bodies(cfg, init), Bodies(cfg, steps));
      StepFromBodies(cfg, Exec(cfg, init).value, steps[|steps| - 1], Bodies(cfg, steps));
    }
  }

  /** A row that matches a request was written for the same body, so it names a live resource of the right kind. */
  lemma MatchingRow(cfg: Config, db: Db, r: Request, k: Key, bodies: set<RequestBody>)
    requires LedgerOk(db) && Keyed(r) && k in db.idem && Matches(cfg, r, db.idem[k])
    requires CollisionFree(cfg, bodies) && WrittenFrom(cfg, db, k, bodies) && BodyOf(r) in bodies
    ensures db.idem[k].statusCode == if r.CreateRequest? then 201 else 200
    ensures match db.idem[k].resource
            case OrderResource(id) => r.CreateRequest? && id in db.orders
            case PaymentResource(id) =>
              && r.PayRequest? && id in db.payments && r.orderId.Parse() == Some(db.payments[id].orderId)
              && db.payments[id].orderId in db.orders
  {
    var r' :| WrittenFor(cfg, db, k, r') && BodyOf(r') in bodies;
    assert BodyOf(r') == BodyOf(r);
    if db.idem[k].resource.PaymentResource? {
      assert PaymentFits(db, db.idem[k].resource.id);
    }
  }

  /** What the replay branch finds under a key it has matched. */
  predicate Live(db: Db, r: Request, row: IdemRow)
    requires Keyed(r)
  {
    && row.statusCode != 0
    && (match row.resource
        case OrderResource(id) => r.CreateRequest? && id in db.orders
        case PaymentResource(id) =>
          r.PayRequest? && id in db.payments && db.payments[id].orderId in db.orders)
  }

  lemma ReadBackRefines(cfg: Config, s: State, step: Step)
    requires Enabled(cfg, s, step) && step.ReadBack?
    requires ProcOk(cfg, s.db, s.procs[step.p]) && Live(s.db, s.procs[step.p].request, s.procs[step.p].row)
    ensures May(cfg, Abs(s), ActionOf(cfg, s, step))
    ensures Do(cfg, Abs(s), ActionOf(cfg, s, step)) == Abs(Apply(cfg, s, step))
  {
  }

  lemma CommitRefines(cfg: Config, s: State, step: Step)
    requires Enabled(cfg, s, step) && step.Commit?
    requires ProcOk(cfg, s.db, s.procs[step.p])
    requires forall k | k in s.db.idem && Keyed(s.procs[step.p].request) ::
               s.db.idem[k].resource != s.procs[step.p].tx.idem.value.resource
    ensures May(cfg, Abs(s), ActionOf(cfg, s, step))
    ensures Do(cfg, Abs(s), ActionOf(cfg, s, step)) == Abs(Apply(cfg, s, step))
  {
  }

  /** Steps other than a read-back refine the ledger whatever the hash function does. */
  lemma WriteRefines(cfg: Config, s: State, step: Step)
    requires Inv(cfg, s) && Enabled(cfg, s, step) && !step.ReadBack?
    ensures May(cfg, Abs(s), ActionOf(cfg, s, step))
    ensures Do(cfg, Abs(s), ActionOf(cfg, s, step)) == Abs(Apply(cfg, s, step))
  {
    if step.Commit? {
      var proc := s.procs[step.p];
      assert ProcOk(cfg, s.db, proc);
      forall k | k in s.db.idem && Keyed(proc.request)
        ensures s.db.idem[k].resource != proc.tx.idem.value.resource
      {
        CommitDistinct(cfg, s.db, proc.request, proc.tx, k);
      }
      CommitRefines(cfg, s, step);
    } else if IsLocal(step) {
      LocalRefines(cfg, s, step);
    } else {
      QuietRefines(cfg, s, step);
    }
  }

  lemma StepRefines(cfg: Config, s: State, step: Step, bodies: set<RequestBody>)
    requires CollisionFree(cfg, bodies) && FromBodies(cfg, s, bodies) && Inv(cfg, s) && Enabled(cfg, s, step)
    ensures May(cfg, Abs(s), ActionOf(cfg, s, step))
    ensures Do(cfg, Abs(s), ActionOf(cfg, s, step)) == Abs(Apply(cfg, s, step))
  {
    if step.ReadBack? {
      var proc := s.procs[step.p];
      assert ProcOk(cfg, s.db, proc);
      MatchingRow(cfg, s.db, proc.request, KeyOf(proc.request), bodies);
      ReadBackRefines(cfg, s, step);
    } else {
      hide May, Do, Abs, Apply, ActionOf, Inv;
      WriteRefines(cfg, s, step);
    }
  }

  lemma OtherMay(cfg: Config, s: State, step: Step)
    requires Enabled(cfg, s, step) && !step.ReadBack? && !step.Commit?
    ensures May(cfg, Abs(s), ActionOf(cfg, s, step))
  {
  }

  /** A step that changes one process changes one call. */
  lemma OneCallChanges(s: State, p: nat, proc: Proc)
    ensures Abs(s.(procs := s.procs[p := proc])) == Abs(s).(calls := Abs(s).calls[p := CallOf(proc)])
  {
  }

  lemma LocalRefines(cfg: Config, s: State, step: Step)
    requires Enabled(cfg, s, step) && IsLocal(step) && !step.ReadBack?
    ensures May(cfg, Abs(s), ActionOf(cfg, s, step))
    ensures Do(cfg, Abs(s), ActionOf(cfg, s, step)) == Abs(Apply(cfg, s, step))
  {
    hide May;
    OtherMay(cfg, s, step);
    OneCallChanges(s, step.p, Local(cfg, s, step));
    if !step.Receive? && CallOf(Local(cfg, s, step)) == CallOf(s.procs[step.p]) {
      assert Abs(s).calls[step.p := CallOf(Local(cfg, s, step))] == Abs(s).calls;
    }
  }

  lemma QuietRefines(cfg: Config, s: State, step: Step)
    requires Enabled(cfg, s, step) && (step.Tick? || step.Respond? || step.Crash?)
    ensures May(cfg, Abs(s), ActionOf(cfg, s, step))
    ensures Do(cfg, Abs(s), ActionOf(cfg, s, step)) == Abs(Apply(cfg, s, step))
  {
  }

  /** The specification's own runs, action by action. */
  ghost function SpecExec(cfg: Config, acts: seq<Action>): Option<Spec> {
    if acts == [] then Some(Spec(map[], map[], []))
    else
      var before := SpecExec(cfg, acts[..|acts| - 1]);
      if before.Some? && May(cfg, before.value, acts[|acts| - 1])
      then Some(Do(cfg, before.value, acts[|acts| - 1]))
      else None
  }

  ghost function Actions(cfg: Config, steps: seq<Step>): seq<Action>
    requires Exec(cfg, steps).Some?
  {
    if steps == [] then []
    else
      var init := steps[..|steps| - 1];
      Actions(cfg, init) + [ActionOf(cfg, Exec(cfg, init).value, steps[|steps| - 1])]
  }

  lemma ActionsAppend(cfg: Config, steps: seq<Step>)
    requires Exec(cfg, steps).Some? && steps != []
    ensures var init, acts := steps[..|steps| - 1], Actions(cfg, steps);
      && Exec(cfg, init).Some? && Enabled(cfg, Exec(cfg, init).value, steps[|steps| - 1])
      && Exec(cfg, steps).value == Apply(cfg, Exec(cfg, init).value, steps[|steps| - 1])
      && acts != [] && acts[..|acts| - 1] == Actions(cfg, init)
      && acts[|acts| - 1] == ActionOf(cfg, Exec(cfg, init).value, steps[|steps| - 1])
  {
    hide Enabled, Apply, ActionOf;
  }

  /** Refinement: every run of the service is a run of the atomic ledger with the same answers. */
  lemma {:induction false} RunRefines(cfg: Config, steps: seq<Step>)
    requires Exec(cfg, steps).Some? && CollisionFree(cfg, Bodies(cfg, steps))
    ensures SpecExec(cfg, Actions(cfg, steps)) == Some(Abs(Exec(cfg, steps).value))
  {
    if steps != [] {
      hide Inv, May, Do, Abs, Apply, Enabled, ActionOf, Exec, Actions, FromBodies, Bodies;
      var init := steps[..|steps| - 1];
      ActionsAppend(cfg, steps);
      BodiesGrow(cfg, init, steps);
      RunRefines(cfg, init);
      RunKeepsInv(cfg, init);
      RunFromBodies(cfg, init);
      StepRefines(cfg, Exec(cfg, init).value, steps[|steps| - 1], Bodies(cfg, init));
    }
  }

  /******* What the specification guarantees *******/

  /** An answer names what the ledger holds under the key of its request. */
  predicate AnswerOk(cfg: Config, ledger: map<Key, IdemRow>, r: Request, o: Outcome) {
    o.Answer? ==>
      && HasKey(r) && KeyOf(r) in ledger
      && ledger[KeyOf(r)].resource == o.resource && ledger[KeyOf(r)].statusCode == o.statusCode
      && Matches(cfg, r, ledger[KeyOf(r)])
  }

  predicate FreshFor(r: Request, o: Outcome, k: Key) {
    o.Answer? && !o.cached && HasKey(r) && KeyOf(r) == k
  }

  ghost predicate AnswersOk(cfg: Config, a: Spec) {
    && (forall i | 0 <= i < |a.responses| :: AnswerOk(cfg, a.ledger, a.responses[i].request, a.responses[i].outcome))
    && (forall p | p in a.calls && a.calls[p].Decided? :: AnswerOk(cfg, a.ledger, a.calls[p].request, a.calls[p].outcome))
  }

  ghost predicate OnceOk(a: Spec) {
    && (forall i, j, k | 0 <= i < j < |a.responses| ::
          !(FreshFor(a.responses[i].request, a.responses[i].outcome, k)
            && FreshFor(a.responses[j].request, a.responses[j].outcome, k)))
    && (forall i, p, k | 0 <= i < |a.responses| && p in a.calls && a.calls[p].Decided? ::
          !(FreshFor(a.responses[i].request, a.responses[i].outcome, k)
            && FreshFor(a.calls[p].request, a.calls[p].outcome, k)))
    && (forall p, q, k | p in a.calls && q in a.calls && p != q && a.calls[p].Decided? && a.calls[q].Decided? ::
          !(FreshFor(a.calls[p].request, a.calls[p].outcome, k)
            && FreshFor(a.calls[q].request, a.calls[q].outcome, k)))
  }

  lemma ActionKeepsAnswers(cfg: Config, a: Spec, act: Action)
    requires AnswersOk(cfg, a) && May(cfg, a, act)
    ensures AnswersOk(cfg, Do(cfg, a, act))
  {
  }

  /** Executed answers have their key in the ledger. */
  ghost predicate FreshOk(a: Spec) {
    && (forall i, k | 0 <= i < |a.responses| && FreshFor(a.responses[i].request, a.responses[i].outcome, k) :: k in a.ledger)
    && (forall p, k | p in a.calls && a.calls[p].Decided? && FreshFor(a.calls[p].request, a.calls[p].outcome, k) ::
          k in a.ledger)
  }

  lemma ActionKeepsFresh(cfg: Config, a: Spec, act: Action)
    requires FreshOk(a) && May(cfg, a, act)
    ensures FreshOk(Do(cfg, a, act))
  {
  }

  lemma ActionExecutesOnce(cfg: Config, a: Spec, act: Action)
    requires FreshOk(a) && OnceOk(a) && May(cfg, a, act)
    ensures OnceOk(Do(cfg, a, act))
  {
  }

  lemma AnswersAreFresh(cfg: Config, a: Spec)
    requires AnswersOk(cfg, a)
    ensures FreshOk(a)
  {
  }

  lemma {:induction false} SpecRunOk(cfg: Config, acts: seq<Action>)
    requires SpecExec(cfg, acts).Some?
    ensures AnswersOk(cfg, SpecExec(cfg, acts).value) && OnceOk(SpecExec(cfg, acts).value)
  {
    if acts != [] {
      hide AnswersOk, OnceOk, FreshOk, May, Do;
      var before := SpecExec(cfg, acts[..|acts| - 1]).value;
      SpecRunOk(cfg, acts[..|acts| - 1]);
      ActionKeepsAnswers(cfg, before, acts[|acts| - 1]);
      AnswersAreFresh(cfg, before);
      ActionExecutesOnce(cfg, before, acts[|acts| - 1]);
    }
  }

  /******* At most once, for every run of the service *******/

  /** Two answers under one key name one resource and one status code. */
  lemma SameAnswer(cfg: Config, steps: seq<Step>, i: nat, j: nat)
    requires Exec(cfg, steps).Some? && CollisionFree(cfg, Bodies(cfg, steps))
    requires
      var log := Exec(cfg, steps).value.responses;
      && i < j < |log| && log[i].outcome.Answer? && log[j].outcome.Answer?
      && HasKey(log[i].request) && HasKey(log[j].request) && KeyOf(log[i].request) == KeyOf(log[j].request)
    ensures
      var log := Exec(cfg, steps).value.responses;
      log[i].outcome.resource == log[j].outcome.resource && log[i].outcome.statusCode == log[j].outcome.statusCode
  {
    hide Exec, SpecExec, Actions;
    RunRefines(cfg, steps);
    SpecRunOk(cfg, Actions(cfg, steps));
    var a := Abs(Exec(cfg, steps).value);
    assert AnswerOk(cfg, a.ledger, a.responses[i].request, a.responses[i].outcome);
    assert AnswerOk(cfg, a.ledger, a.responses[j].request, a.responses[j].outcome);
  }

  /** An answer that was not executed now changes nothing about those that were. */
  lemma OldAnswerStays(a: Spec, p: nat, r: Request, o: Outcome)
    requires FreshOk(a) && OnceOk(a) && (o.Answer? ==> o.cached)
    ensures FreshOk(a.(calls := a.calls[p := Decided(r, o)])) && OnceOk(a.(calls := a.calls[p := Decided(r, o)]))
  {
  }

  lemma StepKeepsFresh(cfg: Config, s: State, step: Step)
    requires Inv(cfg, s) && Enabled(cfg, s, step) && FreshOk(Abs(s)) && OnceOk(Abs(s))
    ensures FreshOk(Abs(Apply(cfg, s, step))) && OnceOk(Abs(Apply(cfg, s, step)))
  {
    if step.ReadBack? {
      var proc := Local(cfg, s, step);
      OneCallChanges(s, step.p, proc);
      hide Abs, FreshOk, OnceOk;
      OldAnswerStays(Abs(s), step.p, proc.request, proc.outcome);
    } else {
      hide May, Do, Abs, Apply, ActionOf, Inv, FreshOk, OnceOk;
      WriteRefines(cfg, s, step);
      ActionKeepsFresh(cfg, Abs(s), ActionOf(cfg, s, step));
      ActionExecutesOnce(cfg, Abs(s), ActionOf(cfg, s, step));
    }
  }

  lemma {:induction false} RunKeepsFresh(cfg: Config, steps: seq<Step>)
    requires Exec(cfg, steps).Some?
    ensures FreshOk(Abs(Exec(cfg, steps).value)) && OnceOk(Abs(Exec(cfg, steps).value))
  {
    if steps != [] {
      hide Inv, Abs, Apply, Enabled, FreshOk, OnceOk;
      var init := steps[..|steps| - 1];
      RunKeepsFresh(cfg, init);
      RunKeepsInv(cfg, init);
      StepKeepsFresh(cfg, Exec(cfg, init).value, steps[|steps| - 1]);
    }
  }

  /** Of two answers under one key at most one was executed, even if request bodies collide in the hash. */
  lemma AtMostOnce(cfg: Config, steps: seq<Step>, i: nat, j: nat)
    requires Exec(cfg, steps).Some?
    requires
      var log := Exec(cfg, steps).value.responses;
      && i < j < |log| && log[i].outcome.Answer? && log[j].outcome.Answer?
      && HasKey(log[i].request) && HasKey(log[j].request) && KeyOf(log[i].request) == KeyOf(log[j].request)
    ensures
      var log := Exec(cfg, steps).value.responses;
      log[i].outcome.cached || log[j].outcome.cached
  {
    hide Exec, FreshOk;
    RunKeepsFresh(cfg, steps);
    var a := Abs(Exec(cfg, steps).value);
    var k := KeyOf(a.responses[i].request);
    assert !(FreshFor(a.responses[i].request, a.responses[i].outcome, k)
             && FreshFor(a.responses[j].request, a.responses[j].outcome, k));
  }

  /******* Later states of a run *******/

  /** Nothing committed is ever taken back: rows stay, and only the status of an order may change. */
  ghost predicate Grows(a: Db, b: Db) {
    && (forall k | k in a.idem :: k in b.idem && b.idem[k] == a.idem[k])
    && (forall id | id in a.payments :: id in b.payments && b.payments[id] == a.payments[id])
    && (forall id | id in a.orders :: id in b.orders && SameButStatus(a.orders[id], b.orders[id]))
    && a.outbox <= b.outbox
  }

  lemma StepGrows(cfg: Config, s: State, step: Step)
    requires Enabled(cfg, s, step)
    requires step.Commit? ==> OrdersOk(s.db) && ProcOk(cfg, s.db, s.procs[step.p])
    ensures Grows(s.db, Apply(cfg, s, step).db)
  {
  }

  lemma {:induction false} RunGrows(cfg: Config, steps: seq<Step>, more: seq<Step>)
    requires Exec(cfg, steps + more).Some?
    ensures Exec(cfg, steps).Some?
    ensures Grows(Exec(cfg, steps).value.db, Exec(cfg, steps + more).value.db)
  {
    if more == [] {
      assert steps + more == steps;
    } else {
      var n := |more| - 1;
      assert (steps + more)[..|steps + more| - 1] == steps + more[..n];
      RunGrows(cfg, steps, more[..n]);
      var s := Exec(cfg, steps + more[..n]).value;
      if more[n].Commit? {
        ProcAt(cfg, steps + more[..n], more[n].p);
      }
      StepGrows(cfg, s, more[n]);
    }
  }

  /** Process `p` is serving a request whose key is already recorded. */
  predicate Late(s: State, p: nat) {
    p in s.procs && HasKey(s.procs[p].request) && KeyOf(s.procs[p].request) in s.db.idem
  }

  lemma LateCannotCommit(cfg: Config, s: State, step: Step, p: nat)
    requires Enabled(cfg, s, step) && Late(s, p) && ProcOk(cfg, s.db, s.procs[p])
    requires !(step.Receive? && step.p == p)
    ensures !(step.Commit? && step.p == p)
    ensures !(step.Respond? && step.p == p) && !(step.Crash? && step.p == p) ==> Late(Apply(cfg, s, step), p)
  {
  }

  /** The loser of a race, and every request that missed a recorded key, never commits a transaction. */
  lemma {:induction false} RaceLoserWritesNothing(cfg: Config, steps: seq<Step>, more: seq<Step>, p: nat)
    requires Exec(cfg, steps + more).Some? && Exec(cfg, steps).Some?
    requires Late(Exec(cfg, steps).value, p)
    requires forall i | 0 <= i < |more| :: !(more[i].Receive? && more[i].p == p)
    ensures forall i | 0 <= i < |more| :: !(more[i].Commit? && more[i].p == p)
    ensures
      var s := Exec(cfg, steps + more).value;
      Late(s, p) || p !in s.procs
  {
    if more == [] {
      assert steps + more == steps;
    } else {
      var n := |more| - 1;
      assert (steps + more)[..|steps + more| - 1] == steps + more[..n];
      RaceLoserWritesNothing(cfg, steps, more[..n], p);
      var s := Exec(cfg, steps + more[..n]).value;
      if Late(s, p) {
        ProcAt(cfg, steps + more[..n], p);
        LateCannotCommit(cfg, s, more[n], p);
      }
    }
  }

  /** A race is lost: past its lookup, the process finds its key recorded; or it has failed already. */
  predicate Beaten(s: State, p: nat) {
    p in s.procs && match s.procs[p]
                    case Ready(_) => Late(s, p)
                    case InTx(_, _) => Late(s, p)
                    case Answering(_, o) => o.Failed?
                    case _ => false
  }

  lemma BeatenStep(cfg: Config, s: State, step: Step, p: nat)
    requires Enabled(cfg, s, step) && Beaten(s, p) && ProcOk(cfg, s.db, s.procs[p])
    ensures
      || Beaten(Apply(cfg, s, step), p)
      || (step.Crash? && step.p == p && p !in Apply(cfg, s, step).procs)
      || (step.Respond? && step.p == p && p !in Apply(cfg, s, step).procs
          && Apply(cfg, s, step).responses == s.responses + [Response(s.procs[p].request, s.procs[p].outcome)]
          && s.procs[p].outcome.Failed?)
  {
  }

  /**
   The loser of a race for a key is never answered with a result: as long as it has not been answered it stays
   beaten, and the answer it gets is a failure.
   */
  lemma {:induction false} RaceLoserFails(cfg: Config, steps: seq<Step>, more: seq<Step>, p: nat)
    requires Exec(cfg, steps + more).Some? && Exec(cfg, steps).Some? && Beaten(Exec(cfg, steps).value, p)
    requires forall i | 0 <= i < |more| :: !(more[i].Receive? && more[i].p == p)
    ensures Beaten(Exec(cfg, steps + more).value, p) || p !in Exec(cfg, steps + more).value.procs
    ensures forall i | 0 <= i < |more| && more[i] == Respond(p) ::
              && Exec(cfg, steps + more[..i]).Some? && Beaten(Exec(cfg, steps + more[..i]).value, p)
              && Exec(cfg, steps + more[..i]).value.procs[p].Answering?
  {
    if more == [] {
      assert steps + more == steps;
    } else {
      hide Beaten;
      var n := |more| - 1;
      assert (steps + more)[..|steps + more| - 1] == steps + more[..n];
      RaceLoserFails(cfg, steps, more[..n], p);
      var s := Exec(cfg, steps + more[..n]).value;
      assert forall i | 0 <= i < n :: more[..n][..i] == more[..i];
      if p in s.procs {
        ProcAt(cfg, steps + more[..n], p);
        BeatenStep(cfg, s, more[n], p);
      } else {
        GoneStaysGone(cfg, s, more[n], p);
      }
    }
  }

  lemma GoneStaysGone(cfg: Config, s: State, step: Step, p: nat)
    requires Enabled(cfg, s, step) && p !in s.procs && !(step.Receive? && step.p == p)
    ensures p !in Apply(cfg, s, step).procs && step != Respond(p)
  {
  }

  /** Two creations, or two payments, with the same user, key, method, path and content. */
  predicate SameRequest(a: Request, b: Request) {
    match (a, b)
    case (CreateRequest(user, key, m, path, amount, currency, description),
          CreateRequest(user', key', m', path', amount', currency', description')) =>
      && user.Parse() == user'.Parse() && key == key' && m == m' && path == path'
      && amount == amount' && currency == currency' && description == description'
    case (PayRequest(user, _, orderId, key, m, path), PayRequest(user', _, orderId', key', m', path')) =>
      user.Parse() == user'.Parse() && key == key' && m == m' && path == path' && orderId == orderId'
    case _ => false
  }

  /** The stored hash is of everything a request asks for, so different contents under one key are told apart. */
  lemma BodiesTellApart(a: Request, b: Request)
    requires HasKey(a) && HasKey(b)
    ensures SameRequest(a, b) <==>
              KeyOf(a) == KeyOf(b) && a.httpMethod == b.httpMethod && a.path == b.path && BodyOf(a) == BodyOf(b)
  {
  }

  /** A request under the key of an answered one is answered alike, or refused. */
  lemma FoundAgain(cfg: Config, db: Db, r: Request, o: Outcome, again: Request, bodies: set<RequestBody>)
    requires LedgerOk(db) && HasKey(r) && HasKey(again) && KeyOf(again) == KeyOf(r) && KeyOf(r) in db.idem
    requires o.Answer? && AnswerOk(cfg, db.idem, r, o)
    requires CollisionFree(cfg, bodies) && WrittenFrom(cfg, db, KeyOf(r), bodies)
    requires BodyOf(r) in bodies && BodyOf(again) in bodies
    ensures Repeats(cfg, db, r, o, again)
  {
    BodiesTellApart(r, again);
    if Matches(cfg, again, db.idem[KeyOf(again)]) {
      MatchingRow(cfg, db, again, KeyOf(again), bodies);
    }
  }

  /** What a process that looks up `again` finds after a request `r` has been answered with `o`. */
  predicate Repeats(cfg: Config, db: Db, r: Request, o: Outcome, again: Request)
    requires Keyed(again) && o.Answer?
  {
    var found := AfterLookup(cfg, db, again, true);
    if SameRequest(r, again) then
      && found.Replaying?
      && AfterReadBack(db, again, found.row, true) == Answering(again, Answer(o.resource, o.statusCode, true))
      && Exists(db, o.resource)
      && (again.PayRequest? ==>
            && o.resource.PaymentResource?
            && again.orderId.Parse() == Some(db.payments[o.resource.id].orderId))
    else
      found == Answering(again, Failed(IdempotencyConflict))
  }

  /**
   After any later run, repeating an answered request finds the stored row and reads back the same
   resource and status code; a request that differs in method, path or content is refused.
   */
  lemma RepeatedRequest(cfg: Config, steps: seq<Step>, more: seq<Step>, i: nat, again: Request)
    requires Exec(cfg, steps + more).Some? && Exec(cfg, steps).Some?
    requires Keyed(again) ==> CollisionFree(cfg, Bodies(cfg, steps + more) + {BodyOf(again)})
    requires i < |Exec(cfg, steps).value.responses|
    requires
      var first := Exec(cfg, steps).value.responses[i];
      first.outcome.Answer? && HasKey(again) && HasKey(first.request) && KeyOf(again) == KeyOf(first.request)
    ensures
      var first := Exec(cfg, steps).value.responses[i];
      Repeats(cfg, Exec(cfg, steps + more).value.db, first.request, first.outcome, again)
  {
    hide Exec, SpecExec, Actions, IdemOk, LedgerOk, HistoriesOk, OutboxOk, CountsOk, OrdersOk, ProcsOk;
    hide Repeats, BodyOf, Matches, WrittenFrom;
    var bodies := Bodies(cfg, steps + more) + {BodyOf(again)};
    BodiesGrow(cfg, steps, steps + more);
    RunFromBodies(cfg, steps);
    RunFromBodies(cfg, steps + more);
    MoreBodies(cfg, Exec(cfg, steps + more).value, Bodies(cfg, steps + more), bodies);
    hide Bodies;
    RunRefines(cfg, steps);
    SpecRunOk(cfg, Actions(cfg, steps));
    var a := Abs(Exec(cfg, steps).value);
    assert AnswerOk(cfg, a.ledger, a.responses[i].request, a.responses[i].outcome);
    RunGrows(cfg, steps, more);
    RunKeepsInv(cfg, steps + more);
    var db := Exec(cfg, steps + more).value.db;
    FoundAgain(cfg, db, a.responses[i].request, a.responses[i].outcome, again, bodies);
  }
}
