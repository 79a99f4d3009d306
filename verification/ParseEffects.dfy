/**
 What the operations of the pipeline do to the tables and the queue, field by field: a second delivery, a batch
 pass, a full reprocess, a retry, the reaper's re-enqueue, the choice of messages, and the faults.
 */
module ParseEffects {
  import opened Values
  import opened Reprocess
  import opened ParseProtocol
  import opened ParseSafety
  import opened ParseTheorems
  import PW = ParseWorker

  // ---------------------------------------------------------------- writes

  /** The listing belongs to this raw row. */
  predicate BelongsTo(l: Listing, id: RawId, raw: Raw) {
    l.id == id && l.user == raw.user && l.listed == raw.received
  }

  /**
   One write, in any state: the listing of the message then has what the worker derived, whether it was there before or
   not; one that was there keeps its id, its user and its time; every other listing stays.
   */
  lemma StoreOverwrites(world: World, s: State, w: nat)
    requires s.PcAt(w).Busy? && s.PcAt(w).phase.Derived? && world.fits(s.PcAt(w).phase.listing.columns)
    ensures var l, before, after := s.PcAt(w).phase.listing, s.tables.listings,
      Step(world, s, Store(w)).tables.listings;
      && Overwritten(before, after, l.id, l.waGroup, l.group, l.columns)
      && (l.id in before ==>
            after[l.id].id == before[l.id].id && after[l.id].user == before[l.id].user
            && after[l.id].listed == before[l.id].listed)
      && (l.id !in before ==>
            after[l.id].id == l.id && after[l.id].user == l.user && after[l.id].listed == l.listed)
  {
  }

  /**
   The last delivery wins: in any reachable state, listed before or not, changed by batch passes or not, a delivery
   that runs through leaves the listing with its row's identity, the derivation afresh, and the monitored name or
   else the name of this delivery's payload. Other listings stay as they are.
   */
  lemma LastDeliveryWins(world: World, s: State, w: nat) returns (s': State)
    requires Reachable(world, s) && InPhase(s, w, Fetched)
    requires s.PcAt(w).job.id in s.tables.raws ==> Fits(world, s.tables.raws[s.PcAt(w).job.id])
    ensures s.PcAt(w).job.id in s.tables.raws && Leads(world, s, s') && s'.tables.raws == s.tables.raws
    ensures var job, raw := s.PcAt(w).job, s.tables.raws[s.PcAt(w).job.id];
      && Overwritten(s.tables.listings, s'.tables.listings, job.id, raw.waGroup, NameFor(world, raw, job),
           world.derive(raw.text, raw.sender))
      && BelongsTo(s'.tables.listings[job.id], job.id, raw) && HasStatus(s', job.id, Done)
  {
    ReachableKeeps(world, s);
    assert WorkerOk(world, s.tables, s.workers[w]);
    LeadsNowhere(world, s);
    s' := FinishDelivery(world, s, s, w);
    var run :| RunFrom(world, s, run) == s';
    IdentityPersists(world, s, run);
    ListingsAreDerivations(world, s');
  }

  /** A stored message can be delivered again at any time by a full reprocess; its listing is then derived afresh. */
  lemma ReprocessRefreshes(world: World, s: State, id: RawId, w: nat) returns (s': State)
    requires Reachable(world, s) && id in s.tables.raws && Fits(world, s.tables.raws[id])
    requires s.queue == [] && s.PcAt(w) == Idle && s.WorkerAt(w).rest == []
    ensures Leads(world, s, s') && id in s'.tables.listings && HasStatus(s', id, Done)
    ensures var raw, l := s.tables.raws[id], s'.tables.listings[id];
      && l.columns == world.derive(raw.text, raw.sender) && l.group == world.groupName(raw.user, raw.waGroup)
      && l.waGroup == raw.waGroup
  {
    var raw := s.tables.raws[id];
    var s1 := Step(world, s, FullReprocess(id));
    assert s1.queue == [Job(id, Some(raw.text), world.groupName(raw.user, raw.waGroup))];
    LeadsNowhere(world, s);
    LeadsOn(world, s, s, FullReprocess(id));
    var s2 := Taken(world, s, s1, w);
    s' := FinishDelivery(world, s, s2, w);
  }

  lemma Taken(world: World, s0: State, s: State, w: nat) returns (s': State)
    requires Leads(world, s0, s) && |s.queue| == 1 && s.PcAt(w) == Idle && s.WorkerAt(w).rest == []
    ensures Leads(world, s0, s') && s'.tables == s.tables && s'.PcAt(w) == Busy(s.queue[0], false, Fetched, None)
  {
    s' := Step(world, s, Dequeue(w));
    LeadsOn(world, s0, s, Dequeue(w));
  }

  /** A missing or raw group name is replaced by the monitored one, if there is one; empty text becomes NULL. */
  predicate GroupAfterPass(world: World, raw: Raw, before: Option<string>, after: Option<string>) {
    var monitored := world.groupName(raw.user, raw.waGroup);
    var stale := before.None? || before.value == "" || world.rawGroupId(before.value);
    if stale && monitored.Some? && monitored.value != "" then after == monitored
    else after == (if before == Some("") then None else before)
  }

  /** A batch pass that nobody disturbs writes its columns and the group name, and nothing else. */
  lemma BatchPassWrites(world: World, s: State, k: nat, id: RawId)
    requires k !in s.sweeps && id in s.tables.listings && id in s.tables.raws
    ensures var s' := Step(world, Step(world, s, SweepRead(k, id)), SweepWrite(k));
      var before, after := s.tables.listings[id], s'.tables.listings;
      && s'.sweeps == s.sweeps && s'.tables == s.tables.(listings := after) && s'.queue == s.queue
        && s'.workers == s.workers
      && after.Keys == s.tables.listings.Keys
      && after[id].columns == world.sweep(before.columns, s.tables.raws[id].text)
      && GroupAfterPass(world, s.tables.raws[id], before.group, after[id].group)
      && after[id].id == before.id && after[id].user == before.user && after[id].waGroup == before.waGroup
      && after[id].listed == before.listed
      && forall other :: other in s.tables.listings && other != id ==> after[other] == s.tables.listings[other]
  {
    var s1 := Step(world, s, SweepRead(k, id));
    assert s1.sweeps - {k} == s.sweeps;
  }

  // ---------------------------------------------------------------- retries

  /** The attempts a failure leaves on record. */
  function AttemptsAfter(s: State, id: RawId): nat {
    if id in s.tables.jobs then s.tables.jobs[id].attempts + 1 else 1
  }

  /**
   A failed delivery with attempts left comes back: its payload is at the newest end of the queue once the delay is
   over, and not a moment earlier.
   */
  lemma RetryComesBack(world: World, s: State, w: nat, ms: nat)
    requires InPhase(s, w, Thrown) && AttemptsAfter(s, s.PcAt(w).job.id) < world.maxAttempts
    ensures var s1 := Step(world, Step(world, s, RecordFailure(w)), Tick(ms));
      var due := ms >= Backoff(world, AttemptsAfter(s, s.PcAt(w).job.id));
      var s2 := Step(world, s1, Fire(s.nextTimer));
      && s1.PcAt(w) == Idle && s2.tables == s1.tables
      && s2.queue == (if due then [s.PcAt(w).job] + s.queue else s.queue)
      && (due ==> s2.timers == s.timers - {s.nextTimer})
  {
    var s0 := Step(world, s, RecordFailure(w));
    RetryIsArmed(world, s, w);
    TimerFires(world, s0, s.nextTimer, ms);
    assert s0.timers - {s.nextTimer} == s.timers - {s.nextTimer};
  }

  lemma RetryIsArmed(world: World, s: State, w: nat)
    requires InPhase(s, w, Thrown) && AttemptsAfter(s, s.PcAt(w).job.id) < world.maxAttempts
    ensures var s' := Step(world, s, RecordFailure(w));
      var due := s.tables.clock + Backoff(world, AttemptsAfter(s, s.PcAt(w).job.id));
      && s'.timers == s.timers[s.nextTimer := Timer(w, s.PcAt(w).job, due)]
      && s'.queue == s.queue && s'.tables.clock == s.tables.clock && s'.PcAt(w) == Idle
  {
  }

  lemma TimerFires(world: World, s: State, t: nat, ms: nat)
    requires t in s.timers
    ensures var s1 := Step(world, s, Tick(ms)); var s2 := Step(world, s1, Fire(t));
      && s1.workers == s.workers && s2.tables == s1.tables
      && if s.timers[t].due <= s.tables.clock + ms
         then s2.queue == [s.timers[t].job] + s.queue && s2.timers == s.timers - {t}
         else s2.queue == s.queue && s2.timers == s.timers
  {
  }

  // ---------------------------------------------------------------- the reaper

  lemma ReapMeans(world: World, jobs: Jobs, now: nat)
    ensures PW.ReapedLedger(world, jobs, ReapSql(world, jobs, now), now)
  {
  }

  function Requeues(w: nat, n: nat): seq<Event> {
    seq(n, _ => Requeue(w))
  }

  /** The reaper has updated the ledger and is through with `n` of its enqueues. */
  predicate Rearmed(world: World, s: State, s': State, w: nat, order: seq<RawId>, n: nat)
    requires n <= |order|
  {
    && s'.tables == s.tables.(jobs := s'.tables.jobs)
    && PW.ReapedLedger(world, s.tables.jobs, s'.tables.jobs, s.tables.clock)
    && PW.Rebuilt(world, s.tables.raws, s.queue, order, n, s'.queue)
    && s'.PcAt(w) == Requeueing(order[n..])
  }

  lemma ReapStarts(world: World, s: State, w: nat, order: seq<RawId>)
    requires s.PcAt(w).Idle? && ReapOrder(world, s.tables, order)
    ensures Rearmed(world, s, Step(world, s, Reap(w, order)), w, order, 0)
  {
    ReapMeans(world, s.tables.jobs, s.tables.clock);
  }

  lemma OneMoreRequeue(world: World, s: State, w: nat, id: RawId)
    requires s.PcAt(w).Requeueing? && s.PcAt(w).todo != [] && s.PcAt(w).todo[0] == id && id in s.tables.raws
    ensures var s' := Step(world, s, Requeue(w)); var raw := s.tables.raws[id];
      && s'.tables == s.tables && s'.PcAt(w) == Requeueing(s.PcAt(w).todo[1..])
      && s'.queue == [Job(id, Some(raw.text), world.groupName(raw.user, raw.waGroup))] + s.queue
  {
  }

  lemma RearmedOn(world: World, s: State, m: State, w: nat, order: seq<RawId>, n: nat)
    requires n < |order| && Rearmed(world, s, m, w, order, n) && order[n] in s.tables.raws
    ensures Rearmed(world, s, Step(world, m, Requeue(w)), w, order, n + 1)
  {
    OneMoreRequeue(world, m, w, order[n]);
    PW.RebuiltOn(world, s.tables.raws, s.queue, order, n, m.queue);
    assert order[n..][1..] == order[n + 1..];
  }

  /** The reaper's update and the first `n` of its enqueues, as a run of the protocol. */
  lemma {:induction false} ReaperRequeues(world: World, s: State, w: nat, order: seq<RawId>, n: nat)
    requires Reachable(world, s) && s.PcAt(w).Idle? && ReapOrder(world, s.tables, order) && n <= |order|
    ensures Rearmed(world, s, RunFrom(world, s, [Reap(w, order)] + Requeues(w, n)), w, order, n)
  {
    var run := [Reap(w, order)] + Requeues(w, n);
    if n == 0 {
      assert run == [Reap(w, order)] && run[..0] == [];
      assert RunFrom(world, s, run) == Step(world, s, Reap(w, order));
      ReapStarts(world, s, w, order);
    } else {
      ReaperRequeues(world, s, w, order, n - 1);
      assert run[..n] == [Reap(w, order)] + Requeues(w, n - 1) && run[n] == Requeue(w);
      assert order[n - 1] in order;
      ReapedAreStored(world, s, order[n - 1]);
      RearmedOn(world, s, RunFrom(world, s, run[..n]), w, order, n - 1);
    }
  }

  lemma ReapedAreStored(world: World, s: State, id: RawId)
    requires Reachable(world, s) && id in s.tables.jobs
    ensures id in s.tables.raws
  {
    ReachableKeeps(world, s);
  }

  /** The history has every claim that was taken back, by row and attempt. */
  lemma ReapIsRemembered(world: World, s: State, w: nat, order: seq<RawId>, id: RawId)
    requires s.PcAt(w).Idle? && ReapOrder(world, s.tables, order) && id in s.tables.jobs
    ensures var row, reaped := s.tables.jobs[id], Step(world, s, Reap(w, order)).history.reaped;
      && s.history.reaped <= reaped
      && (row.status == Processing && row.updated.GetOr(row.created) + world.staleMs < s.tables.clock ==>
            (id, row.attempts) in reaped)
  {
  }

  /** A job that has used up its attempts is buried with the time of its burial. */
  lemma BurialIsStamped(world: World, s: State, w: nat)
    requires InPhase(s, w, Exhausted) && s.PcAt(w).job.id in s.tables.jobs
    ensures var id, jobs, after := s.PcAt(w).job.id, s.tables.jobs, Step(world, s, MarkDead(w)).tables.jobs;
      after == jobs[id := Ledger(Dead, jobs[id].attempts, jobs[id].created, Some(s.tables.clock))]
  {
  }

  // ---------------------------------------------------------------- the choice of messages

  /**
   Nobody is at work on the message, and nothing has come of it: no listing, and a job that is pending, failed or
   missing.
   */
  predicate Open(t: Tables, id: RawId) {
    && id in t.raws && id !in t.listings
    && (id in t.jobs ==> t.jobs[id].status != Processing && t.jobs[id].status != Done && t.jobs[id].status != Dead)
  }

  /** The direct poll takes any batch of distinct open messages, and no other. */
  lemma PollTakesTheOpen(world: World, s: State, w: nat, batch: seq<RawId>)
    requires s.PcAt(w) == Idle && s.WorkerAt(w).rest == [] && batch != []
    ensures Step(world, s, Poll(w, batch)).WorkerAt(w).rest ==
      if Distinct(batch) && (forall id :: id in batch ==> Open(s.tables, id)) then batch else []
  {
    if forall id :: id in batch ==> Open(s.tables, id) {
      forall id | id in batch ensures id in s.tables.raws && PollVisible(s.tables.jobs, s.tables.listings, id) {
        assert Open(s.tables, id);
      }
    } else {
      var id :| id in batch && !Open(s.tables, id);
      assert !(id in s.tables.raws && PollVisible(s.tables.jobs, s.tables.listings, id));
    }
  }

  /** Startup recovery takes any batch of stored messages without a listing, whatever their jobs say, and no other. */
  lemma RecoveryTakesTheUnlisted(world: World, s: State, w: nat, batch: seq<RawId>)
    requires s.PcAt(w) == Idle
    ensures Step(world, s, Recover(w, batch)).PcAt(w) ==
      if forall id :: id in batch ==> id in s.tables.raws && id !in s.tables.listings then Requeueing(batch) else Idle
  {
  }

  // ---------------------------------------------------------------- faults

  /** A crash loses the worker's place, its batch and its own timers; tables, queue, other workers and timers stay. */
  lemma CrashLosesItsOwn(world: World, s: State, w: nat)
    ensures var s' := Step(world, s, Crash(w));
      && s'.tables == s.tables && s'.queue == s.queue && s'.producers == s.producers && s'.sweeps == s.sweeps
      && s'.PcAt(w) == Idle && s'.WorkerAt(w).rest == []
      && (forall v :: v != w ==> s'.WorkerAt(v) == s.WorkerAt(v))
      && (forall t :: t in s'.timers <==> t in s.timers && s.timers[t].owner != w)
      && (forall t :: t in s'.timers ==> s'.timers[t] == s.timers[t])
  {
  }

  /** A lost enqueue loses one payload: the producer's, a timer's, or one of the queue. */
  lemma LossesLoseOne(world: World, s: State, p: nat, at: nat)
    ensures Step(world, s, OfferLost(p)) == s.(producers := s.producers - {p})
    ensures Step(world, s, FireLost(p)) == s.(timers := s.timers - {p})
    ensures var s' := Step(world, s, QueueLoss(at));
      && s' == s.(queue := s'.queue)
      && (at < |s.queue| ==>
            && |s'.queue| == |s.queue| - 1 && s'.queue[..at] == s.queue[..at]
            && s'.queue[at..] == s.queue[at + 1..])
      && (at >= |s.queue| ==> s'.queue == s.queue)
  {
  }
}
