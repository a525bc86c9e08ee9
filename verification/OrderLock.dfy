/**
 The Redis lock around paying and cancelling: a token under a key with a time to live, taken only if
 absent and deleted only by its own token. Each acquisition opens a section; its number is its token.
 */
module OrderLock {
  import opened Types

  /** `expiresAt` is `None` when the lock was set without a time to live. */
  datatype Entry = Entry(token: nat, expiresAt: Option<nat>)

  type Redis = map<Text, Entry>

  /** `until` is when the holder released its section; a holder that crashed never does. */
  datatype Section = Section(key: Text, since: nat, until: Option<nat>)

  datatype State = State(now: nat, redis: Redis, sections: seq<Section>)

  datatype Step = Tick | Acquire(key: Text) | Release(x: nat)

  function Init(): State {
    State(0, map[], [])
  }

  predicate Live(e: Entry, now: nat) {
    e.expiresAt.Some? ==> now < e.expiresAt.value
  }

  predicate Present(redis: Redis, key: Text, now: nat) {
    key in redis && Live(redis[key], now)
  }

  /** SET NX with a time to live; a duration of zero sets no expiry. */
  function SetNX(redis: Redis, key: Text, token: nat, ttl: nat, now: nat): Redis {
    if Present(redis, key, now) then redis
    else redis[key := Entry(token, if ttl == 0 then None else Some(now + ttl))]
  }

  /** The release script: compare the token, then delete. */
  function CompareAndDelete(redis: Redis, key: Text, token: nat, now: nat): Redis {
    if Present(redis, key, now) && redis[key].token == token then redis - {key} else redis
  }

  predicate Enabled(ttl: nat, s: State, step: Step) {
    match step
    case Tick => true
    case Acquire(key) => !Present(s.redis, key, s.now)
    case Release(x) => x < |s.sections| && s.sections[x].until.None?
  }

  function Apply(ttl: nat, s: State, step: Step): State
    requires Enabled(ttl, s, step)
  {
    match step
    case Tick => s.(now := s.now + 1)
    case Acquire(key) =>
      s.(redis := SetNX(s.redis, key, |s.sections|, ttl, s.now),
         sections := s.sections + [Section(key, s.now, None)])
    case Release(x) =>
      s.(redis := CompareAndDelete(s.redis, s.sections[x].key, x, s.now),
         sections := s.sections[x := s.sections[x].(until := Some(s.now))])
  }

  ghost function Exec(ttl: nat, steps: seq<Step>): Option<State> {
    if steps == [] then Some(Init())
    else
      var before := Exec(ttl, steps[..|steps| - 1]);
      if before.Some? && Enabled(ttl, before.value, steps[|steps| - 1])
      then Some(Apply(ttl, before.value, steps[|steps| - 1]))
      else None
  }

  /** `t` is within the time to live of the section. */
  predicate InTime(ttl: nat, c: Section, t: nat) {
    ttl == 0 || t < c.since + ttl
  }

  /** The section's own token is the live one. */
  predicate Holds(s: State, x: nat) {
    x < |s.sections| && Present(s.redis, s.sections[x].key, s.now) && s.redis[s.sections[x].key].token == x
  }

  /** The earlier section of a key was released, or had outlived its time, when the later one began. */
  predicate Ordered(ttl: nat, a: Section, b: Section) {
    a.key == b.key ==>
      a.since <= b.since && ((a.until.Some? && a.until.value <= b.since) || !InTime(ttl, a, b.since))
  }

  /** A section that is not released holds the lock for its whole time to live. */
  ghost predicate SectionsOk(ttl: nat, s: State) {
    forall x | 0 <= x < |s.sections| ::
      && s.sections[x].since <= s.now
      && (s.sections[x].until.Some? ==> s.sections[x].since <= s.sections[x].until.value <= s.now)
      && (s.sections[x].until.None? && InTime(ttl, s.sections[x], s.now) ==> Holds(s, x))
  }

  predicate EntryOk(ttl: nat, s: State, key: Text, e: Entry) {
    && e.token < |s.sections| && s.sections[e.token].key == key
    && (Live(e, s.now) ==> s.sections[e.token].until.None?)
    && e.expiresAt == if ttl == 0 then None else Some(s.sections[e.token].since + ttl)
  }

  ghost predicate RedisOk(ttl: nat, s: State) {
    forall key | key in s.redis :: EntryOk(ttl, s, key, s.redis[key])
  }

  ghost predicate OrderedOk(ttl: nat, s: State) {
    forall x, y | 0 <= x < y < |s.sections| :: Ordered(ttl, s.sections[x], s.sections[y])
  }

  ghost predicate Inv(ttl: nat, s: State) {
    SectionsOk(ttl, s) && RedisOk(ttl, s) && OrderedOk(ttl, s)
  }

  lemma KeepsSections(ttl: nat, s: State, step: Step)
    requires SectionsOk(ttl, s) && RedisOk(ttl, s) && Enabled(ttl, s, step)
    ensures SectionsOk(ttl, Apply(ttl, s, step))
  {
  }

  lemma KeepsRedis(ttl: nat, s: State, step: Step)
    requires RedisOk(ttl, s) && Enabled(ttl, s, step)
    ensures RedisOk(ttl, Apply(ttl, s, step))
  {
  }

  lemma KeepsOrdered(ttl: nat, s: State, step: Step)
    requires SectionsOk(ttl, s) && OrderedOk(ttl, s) && Enabled(ttl, s, step)
    ensures OrderedOk(ttl, Apply(ttl, s, step))
  {
  }

  lemma StepKeepsInv(ttl: nat, s: State, step: Step)
    requires Inv(ttl, s) && Enabled(ttl, s, step)
    ensures Inv(ttl, Apply(ttl, s, step))
  {
    KeepsSections(ttl, s, step);
    KeepsRedis(ttl, s, step);
    KeepsOrdered(ttl, s, step);
  }

  lemma {:induction false} RunKeepsInv(ttl: nat, steps: seq<Step>)
    requires Exec(ttl, steps).Some?
    ensures Inv(ttl, Exec(ttl, steps).value)
  {
    if steps != [] {
      RunKeepsInv(ttl, steps[..|steps| - 1]);
      StepKeepsInv(ttl, Exec(ttl, steps[..|steps| - 1]).value, steps[|steps| - 1]);
    }
  }

  /** One live token per key; and a section that is not released holds the lock for its whole time to live. */
  lemma OneHolder(ttl: nat, steps: seq<Step>, x: nat, y: nat)
    requires Exec(ttl, steps).Some?
    requires var s := Exec(ttl, steps).value; x < |s.sections| && y < |s.sections|
    ensures
      var s := Exec(ttl, steps).value;
      && (Holds(s, x) && Holds(s, y) && s.sections[x].key == s.sections[y].key ==> x == y)
      && (Holds(s, x) <==> s.sections[x].until.None? && InTime(ttl, s.sections[x], s.now))
  {
    RunKeepsInv(ttl, steps);
  }

  /** Whoever tries to take a key, holders go on holding theirs; it is taken exactly if nobody holds it. */
  lemma AttemptSparesHolders(ttl: nat, steps: seq<Step>, key: Text, token: nat)
    requires Exec(ttl, steps).Some?
    ensures
      var s := Exec(ttl, steps).value;
      var redis := SetNX(s.redis, key, token, ttl, s.now);
      && (forall y: nat | Holds(s, y) :: Holds(s.(redis := redis), y))
      && ((exists y: nat :: Holds(s, y) && s.sections[y].key == key) <==> !Enabled(ttl, s, Acquire(key)))
      && (!Enabled(ttl, s, Acquire(key)) ==> redis == s.redis)
  {
    RunKeepsInv(ttl, steps);
    var s := Exec(ttl, steps).value;
    if Present(s.redis, key, s.now) {
      assert EntryOk(ttl, s, key, s.redis[key]);
      assert Holds(s, s.redis[key].token);
    }
  }

  /** Releasing a section never takes the lock from another one, even after it has expired. */
  lemma ReleaseSparesOthers(ttl: nat, steps: seq<Step>, x: nat, y: nat)
    requires Exec(ttl, steps).Some? && Enabled(ttl, Exec(ttl, steps).value, Release(x))
    requires y != x && Holds(Exec(ttl, steps).value, y)
    ensures Holds(Apply(ttl, Exec(ttl, steps).value, Release(x)), y)
  {
    RunKeepsInv(ttl, steps);
  }

  /** A section that ended within its time is over before the next one of its key begins. */
  lemma TimelySectionsAreDisjoint(ttl: nat, steps: seq<Step>, x: nat, y: nat)
    requires Exec(ttl, steps).Some?
    requires
      var c := Exec(ttl, steps).value.sections;
      && x < y < |c| && c[x].key == c[y].key
      && c[x].until.Some? && InTime(ttl, c[x], c[x].until.value)
    ensures
      var c := Exec(ttl, steps).value.sections;
      c[x].until.value <= c[y].since
  {
    RunKeepsInv(ttl, steps);
    assert Ordered(ttl, Exec(ttl, steps).value.sections[x], Exec(ttl, steps).value.sections[y]);
  }

  /** The lock manager over its Redis client; `now` is Redis's time and `token` the new token. */
  class Manager {
    const ttl: nat
    var redis: Redis

    constructor (ttl: nat)
      ensures this.ttl == ttl && redis == map[]
    {
      this.ttl := ttl;
      redis := map[];
    }

    /** `acquired` is false for ErrLockNotAcquired; a failed attempt leaves everything as it was. */
    method Acquire(key: Text, token: nat, now: nat) returns (acquired: bool)
      modifies this
      ensures acquired <==>
                !(key in old(redis) && (old(redis)[key].expiresAt.None? || now < old(redis)[key].expiresAt.value))
      ensures !acquired ==> redis == old(redis)
      ensures acquired ==> redis == old(redis)[key := Entry(token, if ttl == 0 then None else Some(now + ttl))]
      ensures redis == SetNX(old(redis), key, token, ttl, now)
    {
      acquired := !Present(redis, key, now);
      if acquired {
        redis := redis[key := Entry(token, if ttl == 0 then None else Some(now + ttl))];
      }
    }

    method Release(key: Text, token: nat, now: nat) returns (deleted: bool)
      modifies this
      ensures deleted <==>
                && key in old(redis) && old(redis)[key].token == token
                && (old(redis)[key].expiresAt.None? || now < old(redis)[key].expiresAt.value)
      ensures redis == if deleted then old(redis) - {key} else old(redis)
      ensures redis == CompareAndDelete(old(redis), key, token, now)
    {
      deleted := Present(redis, key, now) && redis[key].token == token;
      if deleted {
        redis := redis - {key};
      }
    }
  }
}
