/**
 The ownership lease of a user's bridge (src/api/services/bridgeLease.js): atomic Redis commands on one
 key, seen by any number of server instances, and the in-memory fallback of a single instance.
 */
module Lease {
  import opened Values

  type Instance = nat

  /** Milliseconds of `EX 60`. */
  const TTL: int := 60000

  // ---------------------------------------------------------------- Redis

  datatype Held = Held(owner: Instance, until: int)

  /** A stretch of time during which an instance is entitled to think that it owns the lease. */
  datatype Interval = Interval(owner: Instance, from: int, until: int)

  /** The key of one user, and all ownership intervals so far. */
  datatype Redis = Redis(key: Option<Held>, intervals: seq<Interval>)

  datatype Op = Acquire | Refresh | Release

  /** A command of an instance, at the time the server executes it. */
  datatype Command = Command(op: Op, who: Instance, at: int)

  const EMPTY := Redis(None, [])

  /** The owner that GET sees: an expired key is gone. */
  function Owner(key: Option<Held>, now: int): Option<Instance> {
    if key.Some? && now < key.value.until then Some(key.value.owner) else None
  }

  /** Whether the command does something: SET NX finds no key, the two scripts find the caller's id. */
  predicate Succeeds(redis: Redis, c: Command) {
    match c.op
    case Acquire => Owner(redis.key, c.at).None?
    case Refresh => Owner(redis.key, c.at) == Some(c.who)
    case Release => Owner(redis.key, c.at) == Some(c.who)
  }

  /** The last interval gets a new end. */
  function Until(intervals: seq<Interval>, end: int): seq<Interval> {
    if intervals == [] then []
    else intervals[|intervals| - 1 := intervals[|intervals| - 1].(until := end)]
  }

  function Step(redis: Redis, c: Command): Redis {
    if !Succeeds(redis, c) then redis
    else
      match c.op
      case Acquire => Redis(Some(Held(c.who, c.at + TTL)), redis.intervals + [Interval(c.who, c.at, c.at + TTL)])
      case Refresh => Redis(Some(Held(c.who, c.at + TTL)), Until(redis.intervals, c.at + TTL))
      case Release => Redis(None, Until(redis.intervals, c.at))
  }

  function Run(redis: Redis, commands: seq<Command>): Redis {
    if commands == [] then redis else Step(Run(redis, commands[..|commands| - 1]), commands[|commands| - 1])
  }

  ghost predicate Monotone(commands: seq<Command>) {
    forall i, j :: 0 <= i <= j < |commands| ==> commands[i].at <= commands[j].at
  }

  /** Intervals follow each other without overlap. */
  ghost predicate Disjoint(intervals: seq<Interval>) {
    && (forall i :: 0 <= i < |intervals| ==> intervals[i].from <= intervals[i].until)
    && (forall i, j :: 0 <= i < j < |intervals| ==> intervals[i].until <= intervals[j].from)
  }

  /** The key is the last interval; without a key every interval is over. */
  ghost predicate Consistent(redis: Redis, now: int) {
    && Disjoint(redis.intervals)
    && (forall i :: 0 <= i < |redis.intervals| ==> redis.intervals[i].from <= now)
    && (if redis.key.Some? then
          redis.intervals != [] &&
          var last := redis.intervals[|redis.intervals| - 1];
          redis.key.value == Held(last.owner, last.until)
        else forall i :: 0 <= i < |redis.intervals| ==> redis.intervals[i].until <= now)
  }

  lemma StepConsistent(redis: Redis, earlier: int, c: Command)
    requires Consistent(redis, earlier) && earlier <= c.at
    ensures Consistent(Step(redis, c), c.at)
  {
  }

  lemma {:induction false} RunConsistent(commands: seq<Command>, now: int)
    requires Monotone(commands) && forall i :: 0 <= i < |commands| ==> commands[i].at <= now
    ensures Consistent(Run(EMPTY, commands), now)
  {
    if commands != [] {
      var earlier, c := commands[..|commands| - 1], commands[|commands| - 1];
      RunConsistent(earlier, c.at);
      StepConsistent(Run(EMPTY, earlier), c.at, c);
    }
  }

  /**
   Over every run of every set of instances, ownership intervals never overlap; so at any moment at most
   one instance can still believe in its last successful acquire or refresh.
   */
  lemma OwnershipNeverOverlaps(commands: seq<Command>, i: nat, j: nat, moment: int)
    requires Monotone(commands)
    ensures var intervals := Run(EMPTY, commands).intervals;
      i < |intervals| && j < |intervals|
      && intervals[i].from <= moment < intervals[i].until && intervals[j].from <= moment < intervals[j].until
      ==> i == j
  {
    RunConsistent(commands, if commands == [] then 0 else commands[|commands| - 1].at);
  }

  /** The holder refreshes before its lease runs out, each time, and does not release. */
  predicate KeepsAlive(holder: Instance, until: int, commands: seq<Command>)
    decreases |commands|
  {
    commands == [] ||
    (&& commands[0].at < until
     && !(commands[0].op.Release? && commands[0].who == holder)
     && KeepsAlive(holder,
                   if commands[0].op.Refresh? && commands[0].who == holder then commands[0].at + 60_000 else until,
                   commands[1..]))
  }

  /** A run, read from its first command. */
  lemma {:induction false} RunFromFirst(redis: Redis, commands: seq<Command>)
    requires commands != []
    ensures Run(redis, commands) == Run(Step(redis, commands[0]), commands[1..])
  {
    var last := |commands| - 1;
    if last == 0 {
      assert commands[..0] == [];
      assert commands[1..] == [];
    } else {
      RunFromFirst(redis, commands[..last]);
      assert commands[..last][1..] == commands[1..][..last - 1];
    }
  }

  /** Such a holder is never displaced: whatever the others send, its key is there at the end. */
  lemma {:induction false} LivingHolderStays(redis: Redis, holder: Instance, until: int, commands: seq<Command>)
    requires redis.key == Some(Held(holder, until)) && KeepsAlive(holder, until, commands)
    ensures var after := Run(redis, commands);
      && after.key.Some? && after.key.value.owner == holder
      && |after.intervals| == |redis.intervals|
      && (commands != [] ==> Owner(after.key, commands[|commands| - 1].at) == Some(holder))
    decreases |commands|
  {
    if commands != [] {
      var c := commands[0];
      RunFromFirst(redis, commands);
      var next := if c.op.Refresh? && c.who == holder then c.at + TTL else until;
      LivingHolderStays(Step(redis, c), holder, next, commands[1..]);
      if |commands| > 1 { assert commands[1..][|commands| - 2] == commands[|commands| - 1]; }
    }
  }

  /**
   What an instance that does not own the live lease sends changes nothing while somebody owns it; its
   acquire is refused as well, and so is the owner's own second acquire.
   */
  lemma OnlyTheOwnerActs(redis: Redis, c: Command, owner: Instance)
    requires Owner(redis.key, c.at) == Some(owner)
    ensures Step(redis, c) != redis ==> c.who == owner && !c.op.Acquire?
    ensures c.op.Acquire? ==> !Succeeds(redis, c)
    ensures c.who == owner && !c.op.Acquire? ==> Succeeds(redis, c)
  {
  }

  /** The holder's own refreshes and releases. */
  function OwnOf(holder: Instance, commands: seq<Command>): seq<Command>
    decreases |commands|
  {
    if commands == [] then []
    else
      (if commands[0].who == holder && !commands[0].op.Acquire? then [commands[0]] else [])
      + OwnOf(holder, commands[1..])
  }

  /**
   Noninterference: as long as the holder keeps its lease alive, everything that other instances send, and every
   acquire, could as well not have been sent. Key and ownership intervals are those of the holder's run alone.
   */
  lemma {:induction false} OthersDoNotInterfere(redis: Redis, holder: Instance, until: int, commands: seq<Command>)
    requires redis.key == Some(Held(holder, until)) && KeepsAlive(holder, until, commands)
    ensures Run(redis, commands) == Run(redis, OwnOf(holder, commands))
    decreases |commands|
  {
    if commands != [] {
      var c := commands[0];
      RunFromFirst(redis, commands);
      OnlyTheOwnerActs(redis, c, holder);
      var next := if c.op.Refresh? && c.who == holder then c.at + TTL else until;
      OthersDoNotInterfere(Step(redis, c), holder, next, commands[1..]);
      if c.who == holder && !c.op.Acquire? {
        var own := OwnOf(holder, commands);
        assert own[1..] == OwnOf(holder, commands[1..]);
        RunFromFirst(redis, own);
      } else {
        assert OwnOf(holder, commands) == OwnOf(holder, commands[1..]);
      }
    }
  }

  /** No live key: there is none, or its time is over. */
  predicate Free(redis: Redis, now: int) {
    redis.key.None? || redis.key.value.until <= now
  }

  /** What each command does to the key: a free one is taken for a minute, the owner's is renewed for one or deleted. */
  lemma CommandsDo(redis: Redis, who: Instance, at: int)
    ensures var mine := !Free(redis, at) && redis.key.value.owner == who;
      && Step(redis, Command(Acquire, who, at)).key ==
           (if Free(redis, at) then Some(Held(who, at + 60_000)) else redis.key)
      && Step(redis, Command(Refresh, who, at)).key == (if mine then Some(Held(who, at + 60_000)) else redis.key)
      && Step(redis, Command(Release, who, at)).key == (if mine then None else redis.key)
      && (Succeeds(redis, Command(Acquire, who, at)) <==> Free(redis, at))
      && (Succeeds(redis, Command(Refresh, who, at)) <==> mine)
        && (Succeeds(redis, Command(Release, who, at)) <==> mine)
  {
  }

  /**
   A lease lives a minute: after an acquire that succeeds and that its owner neither refreshes nor releases, whatever
   the others send in the meantime, the owner has it exactly until the minute is over, and then anyone can take it.
   */
  lemma LeaseLivesAMinute(redis: Redis, who: Instance, at: int, others: seq<Command>, t: int, next: Instance)
    requires Free(redis, at) && KeepsAlive(who, at + 60_000, others) && OwnOf(who, others) == []
    ensures var after := Run(Step(redis, Command(Acquire, who, at)), others);
      && Owner(after.key, t) == (if t < at + 60_000 then Some(who) else None)
      && (t >= at + 60_000 ==> Step(after, Command(Acquire, next, t)).key == Some(Held(next, t + 60_000)))
  {
    CommandsDo(redis, who, at);
    OthersDoNotInterfere(Step(redis, Command(Acquire, who, at)), who, at + 60_000, others);
  }

  // ---------------------------------------------------------------- the in-memory fallback

  type User = string

  /** The map that an instance falls back to when Redis is away. */
  class MemoryLeases {
    const instance: Instance
    var leases: map<User, Held>

    /** Only this instance ever writes here. */
    ghost predicate Valid()
      reads this
    {
      forall u :: u in leases ==> leases[u].owner == instance
    }

    constructor (instance: Instance)
      ensures Valid() && this.instance == instance && leases == map[]
    {
      this.instance := instance;
      leases := map[];
    }

    /**
     The refusal branch is never taken: without Redis an acquire always succeeds, and unlike the Redis path
     it also says so to an owner that already holds the lease, whose lease it then does not extend.
     */
    method Acquire(user: User, now: int) returns (acquired: bool, owner: Instance)
      requires Valid()
      modifies this
      ensures Valid() && acquired && owner == instance
      ensures leases == if user in old(leases) && now < old(leases)[user].until then old(leases)
                        else old(leases)[user := Held(instance, now + 60_000)]
    {
      if user in leases && now < leases[user].until {
        return leases[user].owner == instance, leases[user].owner;
      }
      leases := leases[user := Held(instance, now + TTL)];
      return true, instance;
    }

    /** A refresh succeeds for every entry that is still in the map, run out or not. */
    method Refresh(user: User, now: int) returns (refreshed: bool)
      requires Valid()
      modifies this
      ensures Valid() && refreshed == (user in old(leases))
      ensures leases == if user in old(leases) then old(leases)[user := Held(instance, now + 60_000)] else old(leases)
    {
      if user in leases && leases[user].owner == instance {
        leases := leases[user := leases[user].(until := now + TTL)];
        return true;
      }
      return false;
    }

    method Release(user: User)
      requires Valid()
      modifies this
      ensures Valid() && leases == old(leases) - {user}
    {
      if user in leases && leases[user].owner == instance {
        leases := leases - {user};
      }
      assert leases == old(leases) - {user};
    }
  }
}
