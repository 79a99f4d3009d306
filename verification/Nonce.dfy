/**
 One-time tokens for event streams (src/api/middleware/auth.js), kept in Redis, or in the memory of the
 process that minted them while Redis is away. Every atomic command and every stretch without an `await`
 is one step, so that validations race freely and Redis comes and goes at any point.
 */
module Nonce {
  import opened Values

  type Token = string
  type User = string

  /** Milliseconds of `NONCE_TTL_SEC`. */
  const TTL: int := 60000

  datatype Entry = Entry(user: User, expiresAt: int)

  type Store = map<Token, Entry>

  /** What a token was minted for and when; an acceptance of a token and when. */
  datatype Minted = Minted(user: User, at: int)

  datatype Acceptance = Acceptance(token: Token, user: User, at: int)

  /** The two stores, and the history of the run. */
  datatype State = State(redis: Store, memory: Store, minted: map<Token, Minted>, accepted: seq<Acceptance>)

  datatype Event =
    | Mint(token: Token, user: User, at: int, redisReady: bool)
    | TakeRedis(token: Token, at: int)
    | TakeMemory(token: Token, at: int)
    | Sweep(at: int)

  const START := State(map[], map[], map[], [])

  /** GETDEL answers nothing for a key that has run out; it is gone in any case. */
  function InRedis(store: Store, token: Token, now: int): Option<User> {
    if token in store && now < store[token].expiresAt then Some(store[token].user) else None
  }

  function InMemory(store: Store, token: Token, now: int): Option<User> {
    if token in store && now <= store[token].expiresAt then Some(store[token].user) else None
  }

  /** An empty user id counts as none. */
  function Accept(accepted: seq<Acceptance>, token: Token, user: Option<User>, now: int): seq<Acceptance> {
    if user.Some? && user.value != "" then accepted + [Acceptance(token, user.value, now)] else accepted
  }

  function Swept(store: Store, now: int): Store {
    map t | t in store && now <= store[t].expiresAt :: store[t]
  }

  function Step(s: State, e: Event): State {
    match e
    case Mint(token, user, now, redisReady) =>
      var minted := s.minted[token := Minted(user, now)];
      if redisReady then s.(minted := minted, redis := s.redis[token := Entry(user, now + TTL)])
      else s.(minted := minted, memory := s.memory[token := Entry(user, now + TTL)])
    case TakeRedis(token, now) =>
      s.(redis := s.redis - {token}, accepted := Accept(s.accepted, token, InRedis(s.redis, token, now), now))
    case TakeMemory(token, now) =>
      s.(memory := s.memory - {token}, accepted := Accept(s.accepted, token, InMemory(s.memory, token, now), now))
    case Sweep(now) => s.(memory := Swept(s.memory, now))
  }

  function Run(events: seq<Event>): State {
    if events == [] then START else Step(Run(events[..|events| - 1]), events[|events| - 1])
  }

  class NonceStore {
    var redis: Store
    var memory: Store
    ghost var minted: map<Token, Minted>
    ghost var accepted: seq<Acceptance>

    ghost function View(): State
      reads this
    {
      State(redis, memory, minted, accepted)
    }

    constructor ()
      ensures View() == START
    {
      redis, memory, minted, accepted := map[], map[], map[], [];
    }

    method Create(token: Token, user: User, now: int, redisReady: bool)
      modifies this
      ensures View() == Step(old(View()), Mint(token, user, now, redisReady))
    {
      if redisReady {
        redis := redis[token := Entry(user, now + TTL)];
      } else {
        memory := memory[token := Entry(user, now + TTL)];
      }
      minted := minted[token := Minted(user, now)];
    }

    /** The GETDEL of a validation. */
    method TakeFromRedis(token: Token, now: int) returns (user: Option<User>)
      modifies this
      ensures View() == Step(old(View()), TakeRedis(token, now))
      ensures user == InRedis(old(redis), token, now)
    {
      user := InRedis(redis, token, now);
      redis := redis - {token};
      accepted := Accept(accepted, token, user, now);
    }

    /** The check of the fallback map. */
    method TakeFromMemory(token: Token, now: int) returns (user: Option<User>)
      modifies this
      ensures View() == Step(old(View()), TakeMemory(token, now))
      ensures user == InMemory(old(memory), token, now)
    {
      user := None;
      if token in memory {
        var entry := memory[token];
        memory := memory - {token};
        if now > entry.expiresAt {
          return;
        }
        user := Some(entry.user);
        accepted := Accept(accepted, token, user, now);
      }
      assert memory == old(memory) - {token};
    }

    /**
     `authenticateSSE` that nobody interrupts: the token must be well formed, Redis is asked when it is ready
     and the command does not fail, the fallback map when that gave no user. It says yes exactly when it
     records an acceptance.
     */
    method Authenticate(token: Token, now: int, redisReady: bool, blip: bool) returns (user: Option<User>)
      modifies this
      ensures user.Some? <==>
        && 16 <= |token| <= 64
        && (|| (redisReady && !blip && Truthful(InRedis(old(redis), token, now)))
            || Truthful(InMemory(old(memory), token, now)))
      ensures accepted == if user.Some? then old(accepted) + [Acceptance(token, user.value, now)] else old(accepted)
      ensures minted == old(minted)
    {
      user := None;
      if |token| < 16 || |token| > 64 {
        return;
      }
      if redisReady && !blip {
        user := TakeFromRedis(token, now);
      }
      if user.None? || user.value == "" {
        user := TakeFromMemory(token, now);
      }
      if user.Some? && user.value == "" {
        user := None;
      }
    }

    method SweepExpired(now: int)
      modifies this
      ensures View() == Step(old(View()), Sweep(now))
    {
      SweepMemory(now);
      assert memory == Swept(old(memory), now);
    }

    method SweepMemory(now: int)
      modifies this`memory
      ensures forall t :: t in memory <==> t in old(memory) && now <= old(memory)[t].expiresAt
      ensures forall t :: t in memory ==> memory[t] == old(memory)[t]
    {
      var tokens := memory.Keys;
      while tokens != {}
        invariant tokens <= memory.Keys <= old(memory).Keys
        invariant forall t :: t in memory ==> memory[t] == old(memory)[t]
        invariant forall t :: t in old(memory) && t !in tokens ==> (t in memory <==> now <= old(memory)[t].expiresAt)
        decreases |tokens|
      {
        var token :| token in tokens;
        if now > memory[token].expiresAt {
          memory := memory - {token};
        }
        tokens := tokens - {token};
      }
    }
  }

  predicate Truthful(user: Option<User>) {
    user.Some? && user.value != ""
  }

  // ---------------------------------------------------------------- whole runs

  /** Forty random hex digits do not repeat: an assumption about the generator, not about the clock or the stores. */
  ghost predicate FreshTokens(events: seq<Event>) {
    forall i, j :: 0 <= i < j < |events| && events[i].Mint? && events[j].Mint? ==> events[i].token != events[j].token
  }

  /** A stored token stands for its mint and was not accepted yet. */
  ghost predicate StoreOk(store: Store, s: State) {
    forall t :: t in store ==>
      && t in s.minted && store[t] == Entry(s.minted[t].user, s.minted[t].at + TTL)
      && forall i :: 0 <= i < |s.accepted| ==> s.accepted[i].token != t
  }

  ghost predicate AcceptedOk(s: State) {
    && (forall i :: 0 <= i < |s.accepted| ==>
          var a := s.accepted[i];
          a.token in s.minted && a.user == s.minted[a.token].user && a.at <= s.minted[a.token].at + TTL)
    && (forall i, j :: 0 <= i < j < |s.accepted| ==> s.accepted[i].token != s.accepted[j].token)
  }

  ghost predicate Inv(s: State) {
    StoreOk(s.redis, s) && StoreOk(s.memory, s) && s.redis.Keys !! s.memory.Keys && AcceptedOk(s)
  }

  lemma MintKeeps(s: State, e: Event)
    requires Inv(s) && e.Mint? && e.token !in s.minted
    ensures Inv(Step(s, e))
  {
    var after := Step(s, e);
    assert StoreOk(after.redis, after) && StoreOk(after.memory, after);
  }

  /** Taking a token out of a store and accepting it at most in time. */
  lemma TakeKeeps(s: State, e: Event)
    requires Inv(s) && (e.TakeRedis? || e.TakeMemory?)
    ensures Inv(Step(s, e))
  {
    var after := Step(s, e);
    assert StoreOk(after.redis, after) && StoreOk(after.memory, after);
  }

  lemma SweepKeeps(s: State, e: Event)
    requires Inv(s) && e.Sweep?
    ensures Inv(Step(s, e))
  {
    var after := Step(s, e);
    assert StoreOk(after.redis, after) && StoreOk(after.memory, after);
  }

  lemma {:induction false} OnlyEventsMint(events: seq<Event>, token: Token)
    requires forall i :: 0 <= i < |events| && events[i].Mint? ==> events[i].token != token
    ensures token !in Run(events).minted
  {
    if events != [] { OnlyEventsMint(events[..|events| - 1], token); }
  }

  lemma KeepsFrom(earlier: seq<Event>, e: Event)
    requires Inv(Run(earlier)) && FreshTokens(earlier + [e])
    ensures Inv(Step(Run(earlier), e))
  {
    var before := Run(earlier);
    match e
    case Mint(token, _, _, _) =>
      var all := earlier + [e];
      assert all[|earlier|] == e;
      assert forall i :: 0 <= i < |earlier| ==> all[i] == earlier[i];
      OnlyEventsMint(earlier, token);
      MintKeeps(before, e);
    case TakeRedis(_, _) => TakeKeeps(before, e);
    case TakeMemory(_, _) => TakeKeeps(before, e);
    case Sweep(_) => SweepKeeps(before, e);
  }

  lemma {:induction false} RunKeeps(events: seq<Event>)
    requires FreshTokens(events)
    ensures Inv(Run(events))
  {
    if events != [] {
      var last := |events| - 1;
      var earlier, e := events[..last], events[last];
      assert forall i :: 0 <= i < last ==> earlier[i] == events[i];
      RunKeeps(earlier);
      KeepsFrom(earlier, e);
    }
  }

  /**
   Over every interleaving of minting, validation steps and sweeps, whichever store is in use when: a token
   is accepted at most once, for the user it was minted for, and within a minute of its minting.
   */
  lemma AcceptedOnceForItsUserInTime(events: seq<Event>, i: nat, j: nat)
    requires FreshTokens(events) && i < |Run(events).accepted| && j < |Run(events).accepted|
    ensures var s := Run(events); var a := s.accepted[i];
      && (s.accepted[i].token == s.accepted[j].token ==> i == j)
      && a.token in s.minted && a.user == s.minted[a.token].user && a.at <= s.minted[a.token].at + 60_000
  {
    RunKeeps(events);
  }

  // ---------------------------------------------------------------- a token works, once

  function RunFrom(s: State, events: seq<Event>): State {
    if events == [] then s else Step(RunFrom(s, events[..|events| - 1]), events[|events| - 1])
  }

  /** Nobody takes or mints this token, and nobody sweeps later than this. */
  predicate LeavesAlone(e: Event, token: Token, until: int) {
    match e
    case Mint(other, _, _, _) => other != token
    case TakeRedis(other, _) => other != token
    case TakeMemory(other, _) => other != token
    case Sweep(at) => at <= until
  }

  /** Where the token is: in its store with its user and end, or swept from memory when its time was over. */
  predicate Kept(s: State, token: Token, redisReady: bool, entry: Entry, until: int) {
    if redisReady then token in s.redis && s.redis[token] == entry
    else if token in s.memory then s.memory[token] == entry
    else entry.expiresAt < until
  }

  lemma {:induction false} KeptMeanwhile(s: State, events: seq<Event>, token: Token, redisReady: bool, entry: Entry,
                                         until: int)
    requires Kept(s, token, redisReady, entry, until) && forall e :: e in events ==> LeavesAlone(e, token, until)
    ensures Kept(RunFrom(s, events), token, redisReady, entry, until)
  {
    if events != [] {
      var last := |events| - 1;
      KeptMeanwhile(s, events[..last], token, redisReady, entry, until);
      assert LeavesAlone(events[last], token, until);
    }
  }

  /**
   A token opens its stream: minted for a user and left alone, it is accepted for that user within a minute, in Redis
   up to the end of the minute and in memory at its end too, and not later; after that it is gone from the store.
   */
  lemma TokenOpensOnceInTime(s: State, token: Token, user: User, at: int, redisReady: bool, between: seq<Event>, t: int)
    requires user != "" && forall e :: e in between ==> LeavesAlone(e, token, t)
    ensures var s1 := RunFrom(Step(s, Mint(token, user, at, redisReady)), between);
      var s2 := Step(s1, if redisReady then TakeRedis(token, t) else TakeMemory(token, t));
      var inTime := if redisReady then t < at + 60_000 else t <= at + 60_000;
      && s2.accepted == (if inTime then s1.accepted + [Acceptance(token, user, t)] else s1.accepted)
      && token !in (if redisReady then s2.redis else s2.memory)
  {
    KeptMeanwhile(Step(s, Mint(token, user, at, redisReady)), between, token, redisReady, Entry(user, at + TTL), t);
  }
}
