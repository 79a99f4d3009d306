/**
 The sequential code of one worker (src/worker/parseWorker.js) and the producer (src/db/dualWrite.js),
 and the drain theorem: with the queue unreachable, reaper sweeps and direct polls alone
 bring every message to a listing or to the dead letters.
 */
module ParseWorker {
  import opened Values
  import opened Reprocess
  import opened ParseProtocol

  /** The two tables a worker changes. */
  datatype Db = Db(jobs: Jobs, listings: Listings)

  /**
   What the adversary does to a processing attempt once its claim has committed. With `LengthThrows` the job
   completes, but the queue cannot be asked for its length, which `processOne` does after every 25th job.
   */
  datatype Fate = Succeeds | Throws | LengthThrows | CrashesBeforeWrite | CrashesAfterWrite {
    predicate Crashes() { CrashesBeforeWrite? || CrashesAfterWrite? }
    predicate Completes() { Succeeds? || LengthThrows? }
    predicate Writes() { Completes() || CrashesAfterWrite? }
  }

  datatype Try = Try(fate: Fate, now: nat)

  /** What that comes to: without a raw row the call returns early, and a row that its columns refuse throws. */
  function Actual(world: World, raws: map<RawId, Raw>, job: Job, fate: Fate): Fate {
    if job.id in raws && world.fits(DerivedListing(world, raws[job.id], job).columns) then fate
    else if fate.Crashes() then CrashesBeforeWrite
    else if job.id in raws then Throws else Succeeds
  }

  /** One call of `processOne` that runs to its end, throws, or dies on the way. */
  function Attempt(world: World, raws: map<RawId, Raw>, db: Db, job: Job, try: Try): Db {
    var claimed, fate := ClaimSql(db.jobs, job.id, try.now), Actual(world, raws, job, try.fate);
    if job.id !in raws then db.(jobs := claimed)
    else
      Db(if fate.Completes() then DoneSql(claimed, job.id) else claimed,
         if fate.Writes() then UpsertSql(db.listings, DerivedListing(world, raws[job.id], job)) else db.listings)
  }

  /** The number of completed jobs after a call, and whether this is one of those that ask the queue for its length. */
  function Completed(world: World, raws: map<RawId, Raw>, job: Job, try: Try, processed: nat): nat {
    if job.id in raws && Actual(world, raws, job, try.fate).Completes() then processed + 1 else processed
  }

  predicate Reports(processed: nat) {
    processed % 25 == 0
  }

  /** Whether `processOne` returns: the raw row is missing, or everything succeeds, with the report if it is due. */
  predicate Returns(world: World, raws: map<RawId, Raw>, job: Job, try: Try, processed: nat) {
    var fate := Actual(world, raws, job, try.fate);
    fate.Succeeds? || (fate.LengthThrows? && !Reports(processed + 1))
  }

  /** How many calls of a direct poll's batch return before it ends. */
  function ReturnsIn(world: World, raws: map<RawId, Raw>, batch: seq<RawId>, tries: seq<Try>, processed: nat): nat
    requires |tries| == |batch|
    decreases |batch|
  {
    if batch == [] then 0
    else
      var job := Job(batch[0], None, None);
      (if Returns(world, raws, job, tries[0], processed) then 1 else 0)
      + (if tries[0].fate.Crashes() then 0
         else ReturnsIn(world, raws, batch[1..], tries[1..], Completed(world, raws, job, tries[0], processed)))
  }

  /** The direct poll over its batch; a crash ends it. */
  function Batch(world: World, raws: map<RawId, Raw>, db: Db, batch: seq<RawId>, tries: seq<Try>): Db
    requires |tries| == |batch|
    decreases |batch|
  {
    if batch == [] then db
    else
      var next := Attempt(world, raws, db, Job(batch[0], None, None), tries[0]);
      if tries[0].fate.Crashes() then next else Batch(world, raws, next, batch[1..], tries[1..])
  }

  /** The bookkeeping after a thrown error: the new ledger, and the retry timer unless the job is buried. */
  function Failure(world: World, owner: nat, jobs: Jobs, job: Job, now: nat): (Jobs, seq<Timer>) {
    var failed := FailSql(jobs, job.id, now);
    var attempts := failed[job.id].attempts;
    if attempts >= world.maxAttempts then (DeadSql(failed, job.id, now), [])
    else (failed, [Timer(owner, job, now + Backoff(world, attempts))])
  }

  /** What `writeRawMessage` does to the raw rows and the queue; an enqueue that fails is only logged. */
  function Delivered(raws: map<RawId, Raw>, queue: seq<Job>, id: RawId, raw: Raw, job: Job, queueUp: bool)
    : (map<RawId, Raw>, seq<Job>)
  {
    if KeyTaken(raws, raw.user, raw.message) then (raws, queue)
    else (raws[id := raw], if queueUp then [job] + queue else queue)
  }

  /** The unique index on user and message id. */
  predicate UniqueKeys(raws: map<RawId, Raw>) {
    forall a, b :: a in raws && b in raws && raws[a].user == raws[b].user && raws[a].message == raws[b].message ==>
      a == b
  }

  /** Delivering a message again, under whatever row id, changes nothing: it is stored and enqueued once. */
  lemma DeliveredOnce(raws: map<RawId, Raw>, queue: seq<Job>, id: RawId, raw: Raw, job: Job, queueUp: bool,
                      again: RawId, other: Raw, otherJob: Job, up: bool)
    requires UniqueKeys(raws) && id !in raws && other.user == raw.user && other.message == raw.message
    ensures var (rows, q) := Delivered(raws, queue, id, raw, job, queueUp);
      && UniqueKeys(rows) && KeyTaken(rows, raw.user, raw.message)
      && Delivered(rows, q, again, other, otherJob, up) == (rows, q)
  {
    var (rows, q) := Delivered(raws, queue, id, raw, job, queueUp);
    if !KeyTaken(raws, raw.user, raw.message) { assert rows[id] == raw; }
  }

  // ---------------------------------------------------------------- the sequential code is a run of the protocol

  /** The events of an attempt that nobody interrupts. `asks` says whether it asks the queue for its length. */
  function Script(w: nat, fate: Fate, asks: bool): seq<Event> {
    match fate
    case Succeeds => [Claim(w), Read(w), Store(w), Finish(w)]
    case LengthThrows => [Claim(w), Read(w), Store(w), Finish(w)] + (if asks then [Throw(w)] else [])
    case Throws => [Claim(w), Throw(w)]
    case CrashesBeforeWrite => [Claim(w), Crash(w)]
    case CrashesAfterWrite => [Claim(w), Read(w), Store(w), Crash(w)]
  }

  lemma RunOne(world: World, s: State, a: Event)
    ensures RunFrom(world, s, [a]) == Step(world, s, a)
  {
    assert [a][..0] == [];
  }

  lemma RunTwo(world: World, s: State, a: Event, b: Event)
    ensures RunFrom(world, s, [a, b]) == Step(world, Step(world, s, a), b)
  {
    RunOne(world, s, a);
    assert [a, b][..1] == [a];
  }

  lemma RunFour(world: World, s: State, a: Event, b: Event, c: Event, d: Event)
    ensures RunFrom(world, s, [a, b, c, d]) == Step(world, Step(world, Step(world, Step(world, s, a), b), c), d)
  {
    RunTwo(world, s, a, b);
    assert [a, b, c][..2] == [a, b];
    assert [a, b, c, d][..3] == [a, b, c];
  }

  /** The worker is still on the same job, and got it the same way. */
  predicate OnIt(s: State, s': State, w: nat) {
    && s.PcAt(w).Busy? && s'.PcAt(w).Busy? && s'.PcAt(w).job == s.PcAt(w).job && s'.PcAt(w).direct == s.PcAt(w).direct
  }

  /** The effect of a claim. */
  lemma ClaimEffect(world: World, s: State, w: nat)
    requires InPhase(s, w, Fetched)
    ensures var s' := Step(world, s, Claim(w));
      && s'.tables == s.tables.(jobs := ClaimSql(s.tables.jobs, s.PcAt(w).job.id, s.tables.clock))
      && InPhase(s', w, Claimed) && OnIt(s, s', w)
      && s'.WorkerAt(w).rest == s.WorkerAt(w).rest
  {
  }

  /** The effect of the read and the derivation: without a raw row the call returns. */
  lemma ReadEffect(world: World, s: State, w: nat)
    requires InPhase(s, w, Claimed)
    ensures var job := s.PcAt(w).job; var s' := Step(world, s, Read(w));
      && s'.tables == s.tables && s'.WorkerAt(w).rest == s.WorkerAt(w).rest
      && (if job.id !in s.tables.raws then s'.PcAt(w) == Idle
          else InPhase(s', w, Derived(DerivedListing(world, s.tables.raws[job.id], job))) && OnIt(s, s', w))
  {
  }

  lemma StoreEffect(world: World, s: State, w: nat)
    ensures var s' := Step(world, s, Store(w));
      && s'.WorkerAt(w).rest == s.WorkerAt(w).rest
      && if s.PcAt(w).Busy? && s.PcAt(w).phase.Derived? && !Refused(world, s, w) then
        && s'.tables == s.tables.(listings := UpsertSql(s.tables.listings, s.PcAt(w).phase.listing))
        && InPhase(s', w, Stored) && OnIt(s, s', w)
      else s' == s
  {
  }

  lemma FinishEffect(world: World, s: State, w: nat)
    ensures var s' := Step(world, s, Finish(w));
      && s'.WorkerAt(w).rest == s.WorkerAt(w).rest
      && if InPhase(s, w, Stored) then
        && s'.tables == s.tables.(jobs := DoneSql(s.tables.jobs, s.PcAt(w).job.id)) && InPhase(s', w, Finished)
          && OnIt(s, s', w)
      else s' == s
  {
  }

  /** A direct poll logs the error and goes on with its batch; a delivery from the queue comes to its failure branch. */
  lemma ThrowEffect(world: World, s: State, w: nat)
    requires InPhase(s, w, Claimed) || InPhase(s, w, Finished)
    ensures var s' := Step(world, s, Throw(w));
      && s'.tables == s.tables && s'.WorkerAt(w).rest == s.WorkerAt(w).rest
      && (if s.PcAt(w).direct then s'.PcAt(w) == Idle else InPhase(s', w, Thrown) && s'.PcAt(w).job == s.PcAt(w).job)
  {
  }

  lemma CrashEffect(world: World, s: State, w: nat)
    ensures Step(world, s, Crash(w)).tables == s.tables
    ensures Step(world, s, Crash(w)).WorkerAt(w) == ParseProtocol.Worker(Idle, [])
  {
  }

  /** The state after the write of an attempt. */
  lemma WriteEffect(world: World, s: State, w: nat) returns (s': State)
    requires InPhase(s, w, Fetched)
    requires var job := s.PcAt(w).job;
      job.id in s.tables.raws ==> world.fits(DerivedListing(world, s.tables.raws[job.id], job).columns)
    ensures s' == Step(world, Step(world, Step(world, s, Claim(w)), Read(w)), Store(w))
    ensures s'.WorkerAt(w).rest == s.WorkerAt(w).rest
    ensures var job := s.PcAt(w).job; var claimed := s.tables.(jobs := ClaimSql(s.tables.jobs, job.id, s.tables.clock));
      if job.id !in s.tables.raws then s'.tables == claimed && s'.PcAt(w) == Idle
      else
        && s'.tables == claimed.(
             listings := UpsertSql(s.tables.listings, DerivedListing(world, s.tables.raws[job.id], job)))
        && InPhase(s', w, Stored) && OnIt(s, s', w)
  {
    var s1 := Step(world, s, Claim(w));
    ClaimEffect(world, s, w);
    ReadEffect(world, s1, w);
    StoreEffect(world, Step(world, s1, Read(w)), w);
    s' := Step(world, Step(world, s1, Read(w)), Store(w));
  }

  function ActualAt(world: World, s: State, w: nat, fate: Fate): Fate
    requires s.PcAt(w).Busy?
  {
    Actual(world, s.tables.raws, s.PcAt(w).job, fate)
  }

  /** Where the worker is after an attempt: gone, at the end of its call, at rest, or in the failure branch. */
  predicate AfterScript(s: State, s': State, w: nat, fate: Fate, asks: bool)
    requires s.PcAt(w).Busy?
  {
    if fate.Crashes() then s'.WorkerAt(w) == ParseProtocol.Worker(Idle, [])
    else
      && s'.WorkerAt(w).rest == s.WorkerAt(w).rest
      && (if fate.Succeeds? || (fate.LengthThrows? && !asks)
          then if s.PcAt(w).job.id in s.tables.raws then InPhase(s', w, Finished) else s'.PcAt(w).Idle?
          else if s.PcAt(w).direct then s'.PcAt(w).Idle?
          else InPhase(s', w, Thrown) && s'.PcAt(w).job == s.PcAt(w).job)
  }

  /**
   The sequential code refines the protocol: on the tables, an attempt that the adversary lets run, fails or
   crashes is the run of its events.
   */
  lemma AttemptIsARun(world: World, s: State, w: nat, fate: Fate, asks: bool)
    requires InPhase(s, w, Fetched)
    ensures var after := Attempt(world, s.tables.raws, Db(s.tables.jobs, s.tables.listings), s.PcAt(w).job,
      Try(fate, s.tables.clock));
      var actual := ActualAt(world, s, w, fate); var s' := RunFrom(world, s, Script(w, actual, asks));
      && s'.tables == s.tables.(jobs := after.jobs, listings := after.listings)
      && AfterScript(s, s', w, actual, asks)
  {
    var actual := ActualAt(world, s, w, fate);
    if actual.Writes() {
      WritingAttempt(world, s, w, fate, actual, asks);
    } else {
      var s1 := Step(world, s, Claim(w));
      ClaimEffect(world, s, w);
      RunTwo(world, s, Claim(w), if actual.Throws? then Throw(w) else Crash(w));
      ThrowEffect(world, s1, w);
      CrashEffect(world, s1, w);
    }
  }

  lemma WritingAttempt(world: World, s: State, w: nat, fate: Fate, actual: Fate, asks: bool)
    requires InPhase(s, w, Fetched) && actual == ActualAt(world, s, w, fate) && actual.Writes()
    ensures var after := Attempt(world, s.tables.raws, Db(s.tables.jobs, s.tables.listings), s.PcAt(w).job,
      Try(fate, s.tables.clock));
      var s' := RunFrom(world, s, Script(w, actual, asks));
      && s'.tables == s.tables.(jobs := after.jobs, listings := after.listings)
      && AfterScript(s, s', w, actual, asks)
  {
    if actual.Completes() {
      var s2 := CompletedRun(world, s, w);
      if actual.LengthThrows? && asks {
        AskedRun(world, s, w, s2);
      } else {
        assert Script(w, Succeeds, asks) + [] == Script(w, Succeeds, asks);
      }
    } else {
      var s1 := WriteEffect(world, s, w);
      RunFour(world, s, Claim(w), Read(w), Store(w), Crash(w));
      CrashEffect(world, s1, w);
    }
  }

  /** A call that gets as far as its report, or returns early without a raw row. */
  lemma CompletedRun(world: World, s: State, w: nat) returns (s': State)
    requires InPhase(s, w, Fetched)
    requires var job := s.PcAt(w).job;
      job.id in s.tables.raws ==> world.fits(DerivedListing(world, s.tables.raws[job.id], job).columns)
    ensures s' == RunFrom(world, s, [Claim(w), Read(w), Store(w), Finish(w)])
    ensures s'.WorkerAt(w).rest == s.WorkerAt(w).rest
    ensures var job := s.PcAt(w).job; var claimed := s.tables.(jobs := ClaimSql(s.tables.jobs, job.id, s.tables.clock));
      if job.id !in s.tables.raws then s'.tables == claimed && s'.PcAt(w).Idle?
      else
        && s'.tables == claimed.(
             jobs := DoneSql(claimed.jobs, job.id),
             listings := UpsertSql(s.tables.listings, DerivedListing(world, s.tables.raws[job.id], job)))
        && InPhase(s', w, Finished) && OnIt(s, s', w)
  {
    var s1 := WriteEffect(world, s, w);
    RunFour(world, s, Claim(w), Read(w), Store(w), Finish(w));
    FinishEffect(world, s1, w);
    s' := Step(world, s1, Finish(w));
  }

  /** The queue cannot be asked: the tables stay as they are, and the worker comes to its failure branch after all. */
  lemma AskedRun(world: World, s: State, w: nat, s': State)
    requires s' == RunFrom(world, s, [Claim(w), Read(w), Store(w), Finish(w)])
    requires InPhase(s', w, Finished) && OnIt(s, s', w) && s'.WorkerAt(w).rest == s.WorkerAt(w).rest
    ensures var asked := RunFrom(world, s, Script(w, LengthThrows, true));
      asked.tables == s'.tables && AfterScript(s, asked, w, LengthThrows, true)
  {
    var script := [Claim(w), Read(w), Store(w), Finish(w)];
    assert (script + [Throw(w)])[..4] == script;
    assert RunFrom(world, s, script + [Throw(w)]) == Step(world, s', Throw(w));
    ThrowEffect(world, s', w);
  }

  /**
   The failure branch is the run of its two events: the ledger and the timers of the protocol change as `Failure`
   says.
   */
  lemma FailureIsARun(world: World, s: State, w: nat)
    requires InPhase(s, w, Thrown)
    ensures var job := s.PcAt(w).job; var failure := Failure(world, w, s.tables.jobs, job, s.tables.clock);
      var s' := RunFrom(world, s, [RecordFailure(w), MarkDead(w)]);
      && s'.tables == s.tables.(jobs := failure.0)
      && s'.timers == (if failure.1 == [] then s.timers else s.timers[s.nextTimer := failure.1[0]])
      && s'.PcAt(w) == Idle
  {
    RunTwo(world, s, RecordFailure(w), MarkDead(w));
    RecordEffect(world, s, w);
    MarkDeadEffect(world, Step(world, s, RecordFailure(w)), w);
  }

  lemma RecordEffect(world: World, s: State, w: nat)
    requires InPhase(s, w, Thrown)
    ensures var job := s.PcAt(w).job; var failed := FailSql(s.tables.jobs, job.id, s.tables.clock);
      var s' := Step(world, s, RecordFailure(w));
      && s'.tables == s.tables.(jobs := failed)
      && (if failed[job.id].attempts >= world.maxAttempts
          then s'.timers == s.timers && InPhase(s', w, Exhausted) && s'.PcAt(w).job == job
          else s'.timers == s.timers[
                 s.nextTimer := Timer(w, job, s.tables.clock + Backoff(world, failed[job.id].attempts))]
               && s'.PcAt(w) == Idle)
  {
  }

  lemma MarkDeadEffect(world: World, s: State, w: nat)
    ensures var s' := Step(world, s, MarkDead(w));
      if InPhase(s, w, Exhausted) then
        && s'.tables == s.tables.(jobs := DeadSql(s.tables.jobs, s.PcAt(w).job.id, s.tables.clock))
        && s'.timers == s.timers && s'.PcAt(w) == Idle
      else s' == s
  {
  }

  /** Every failure costs one more attempt, and the job is dead at the limit and only then, else it has one timer. */
  lemma FailureCountsOnce(world: World, owner: nat, jobs: Jobs, job: Job, now: nat)
    requires job.id in jobs
    ensures var (after, timers) := Failure(world, owner, jobs, job, now);
      && after.Keys == jobs.Keys && (forall id :: id in jobs && id != job.id ==> after[id] == jobs[id])
      && after[job.id].attempts == jobs[job.id].attempts + 1
      && (after[job.id].status == Dead <==> jobs[job.id].attempts + 1 >= world.maxAttempts)
      && (after[job.id].status == Failed <==> |timers| == 1) && (timers == [] <==> after[job.id].status == Dead)
      && after[job.id].updated == Some(now) && after[job.id].created == jobs[job.id].created
      && (forall t :: t in timers ==> t == Timer(owner, job, now + Backoff(world, jobs[job.id].attempts + 1)))
  {
  }

  /**
   The report after every 25th job can undo its completion: when the queue cannot be asked for its length, the message
   has its listing and its job was done, but the failure branch makes it failed, with a retry, or dead.
   */
  lemma ReportUndoesDone(world: World, owner: nat, raws: map<RawId, Raw>, db: Db, job: Job, try: Try, processed: nat)
    requires try.fate.LengthThrows? && Actual(world, raws, job, try.fate) == try.fate && Reports(processed + 1)
    ensures !Returns(world, raws, job, try, processed)
    ensures var after := Attempt(world, raws, db, job, try);
      var (jobs, timers) := Failure(world, owner, after.jobs, job, try.now);
      && job.id in after.listings && job.id in after.jobs && after.jobs[job.id].status == Done
      && jobs[job.id].attempts == after.jobs[job.id].attempts + 1
      && jobs[job.id].status == (if timers == [] then Dead else Failed)
  {
    var after := Attempt(world, raws, db, job, try);
    FailureCountsOnce(world, owner, after.jobs, job, try.now);
  }

  /** The producer's sequential code is the run of its events, with an enqueue that works or is lost. */
  lemma WriteIsARun(world: World, s: State, p: nat, e: Event, queueUp: bool)
    requires e.Insert? && e.p == p && p !in s.producers && e.id !in s.tables.raws
    ensures var raw := Raw(e.user, e.message, e.waGroup, e.text.GetOr(""), e.sender, e.received);
      var after := Delivered(s.tables.raws, s.queue, e.id, raw, Job(e.id, e.text, e.chat), queueUp);
      var s' := RunFrom(world, s, [e, if queueUp then Offer(p) else OfferLost(p)]);
      && s'.tables.raws == after.0 && s'.queue == after.1 && s'.producers == s.producers
      && s'.tables.jobs == s.tables.jobs && s'.tables.listings == s.tables.listings
  {
    var last := if queueUp then Offer(p) else OfferLost(p);
    RunTwo(world, s, e, last);
    InsertEffect(world, s, e);
    OfferEffect(world, Step(world, s, e), p);
    assert s.producers[p := Job(e.id, e.text, e.chat)] - {p} == s.producers;
    assert s.producers - {p} == s.producers;
  }

  lemma InsertEffect(world: World, s: State, e: Event)
    requires e.Insert? && e.p !in s.producers && e.id !in s.tables.raws
    ensures var raw := Raw(e.user, e.message, e.waGroup, e.text.GetOr(""), e.sender, e.received);
      var s' := Step(world, s, e);
      if KeyTaken(s.tables.raws, e.user, e.message) then s' == s
      else
        && s'.tables == s.tables.(raws := s.tables.raws[e.id := raw], chats := s.tables.chats[e.id := e.chat])
        && s'.queue == s.queue && s'.producers == s.producers[e.p := Job(e.id, e.text, e.chat)]
  {
  }

  lemma OfferEffect(world: World, s: State, p: nat)
    ensures var s' := Step(world, s, Offer(p));
      if p in s.producers then
        s'.tables == s.tables && s'.queue == [s.producers[p]] + s.queue && s'.producers == s.producers - {p}
      else s' == s
    ensures var s' := Step(world, s, OfferLost(p));
      s'.tables == s.tables && s'.queue == s.queue && s'.producers == s.producers - {p}
  {
  }

  // ---------------------------------------------------------------- what the reaper leaves

  /** Exactly the stale claims are re-armed, or dead if their attempts are used up; every other row stays. */
  predicate ReapedLedger(world: World, before: Jobs, after: Jobs, now: nat) {
    && after.Keys == before.Keys
    && forall id :: id in before ==>
      var row := before[id];
      if row.status == Processing
        && (if row.updated.Some? then row.updated.value else row.created) + world.staleMs < now
      then
        after[id] ==
        Ledger(if row.attempts >= world.maxAttempts then Dead else Pending, row.attempts, row.created, Some(now))
      else after[id] == row
  }

  /** The queue has `n` payloads more at its newest end, the last one first, each rebuilt from the tables. */
  predicate Rebuilt(world: World, raws: map<RawId, Raw>, before: seq<Job>, order: seq<RawId>, n: nat, after: seq<Job>)
    requires n <= |order|
  {
    && |after| == n + |before| && after[n..] == before
    && forall k :: 0 <= k < n ==> order[k] in raws && after[n - 1 - k] == Rebuild(world, raws[order[k]], order[k])
  }

  /** The row's own id and text, and the name its group is monitored under. */
  function Rebuild(world: World, raw: Raw, id: RawId): Job {
    Job(id, Some(raw.text), world.groupName(raw.user, raw.waGroup))
  }

  lemma RebuiltOn(world: World, raws: map<RawId, Raw>, before: seq<Job>, order: seq<RawId>, n: nat, after: seq<Job>)
    requires n < |order| && Rebuilt(world, raws, before, order, n, after) && order[n] in raws
    ensures Rebuilt(world, raws, before, order, n + 1, [Rebuild(world, raws[order[n]], order[n])] + after)
  {
  }

  /** The derivation of the row's own text, or of the payload's if the row has none. */
  function DerivedFrom(world: World, raw: Raw, job: Job): Columns {
    world.derive(if raw.text != "" then raw.text else if job.text.Some? then job.text.value else "", raw.sender)
  }

  // ---------------------------------------------------------------- the imperative form

  class Worker {
    const world: World
    /** Its number among the workers, in the protocol. */
    const id: nat
    var raws: map<RawId, Raw>
    var jobs: Jobs
    var listings: Listings
    var queue: seq<Job>
    var retries: seq<Timer>
    var processed: nat

    constructor (world: World, id: nat)
      ensures this.world == world && this.id == id && raws == map[] && jobs == map[] && listings == map[] && queue == []
      ensures retries == [] && processed == 0
    {
      this.world, this.id := world, id;
      raws, jobs, listings, queue, retries, processed := map[], map[], map[], [], [], 0;
    }

    function Value(): Db
      reads this
    {
      Db(jobs, listings)
    }

    /** `processOne`; `done` is false when it threw or the process died. */
    method ProcessOne(job: Job, try: Try) returns (done: bool)
      modifies `jobs, `listings, `processed
      ensures Value() == Attempt(world, raws, old(Value()), job, try)
      ensures done == Returns(world, raws, job, try, old(processed))
      ensures processed == Completed(world, raws, job, try, old(processed))
      ensures done <==>
        if job.id !in raws then !try.fate.Crashes()
        else
          && world.fits(DerivedFrom(world, raws[job.id], job))
          && (try.fate.Succeeds? || (try.fate.LengthThrows? && processed % 25 != 0))
      ensures done && job.id in raws ==>
        && Overwritten(old(listings), listings, job.id, raws[job.id].waGroup, NameFor(world, raws[job.id], job),
             DerivedFrom(world, raws[job.id], job))
        && job.id in jobs && jobs[job.id].status == Done
    {
      jobs := ClaimSql(jobs, job.id, try.now);
      if try.fate.CrashesBeforeWrite? {
        return false;
      }
      if job.id !in raws {
        return !try.fate.Crashes();
      }
      var listing := DerivedListing(world, raws[job.id], job);
      if try.fate.Throws? || !world.fits(listing.columns) {
        return false;
      }
      listings := UpsertSql(listings, listing);
      if try.fate.Crashes() {
        return false;
      }
      jobs := DoneSql(jobs, job.id);
      processed := processed + 1;
      if Reports(processed) && try.fate.LengthThrows? {
        return false;
      }
      done := true;
    }

    /** The failure branch of the loop: record, then bury or schedule one retry. */
    method HandleFailure(job: Job, now: nat)
      modifies `jobs, `retries
      ensures var failure := Failure(world, id, old(jobs), job, now);
        jobs == failure.0 && retries == old(retries) + failure.1
    {
      jobs := FailSql(jobs, job.id, now);
      var attempts := jobs[job.id].attempts;
      if attempts >= world.maxAttempts {
        jobs := DeadSql(jobs, job.id, now);
      } else {
        retries := retries + [Timer(id, job, now + Backoff(world, attempts))];
      }
    }

    /** One turn of the loop: take the oldest payload; only a thrown error, not a crash, reaches the failure branch. */
    method DeliverOne(try: Try) returns (took: bool)
      modifies `jobs, `listings, `queue, `processed, `retries
      ensures took == (old(queue) != [])
      ensures took ==> processed == Completed(world, raws, old(queue)[|old(queue)| - 1], try, old(processed))
      ensures !took ==> Value() == old(Value()) && queue == [] && retries == old(retries) && processed == old(processed)
      ensures took ==>
        var job := old(queue)[|old(queue)| - 1];
        var after := Attempt(world, raws, old(Value()), job, try);
        var throws := !try.fate.Crashes() && !Returns(world, raws, job, try, old(processed));
        var failure := if throws then Failure(world, id, after.jobs, job, try.now) else (after.jobs, []);
        && queue == old(queue)[..|old(queue)| - 1] && listings == after.listings
        && jobs == failure.0 && retries == old(retries) + failure.1
    {
      if queue == [] {
        return false;
      }
      var job := queue[|queue| - 1];
      queue := queue[..|queue| - 1];
      var done := ProcessOne(job, try);
      if !done && !try.fate.Crashes() {
        HandleFailure(job, try.now);
      }
      took := true;
    }

    /**
     `reapStuckJobs`: the UPDATE, then one enqueue per re-armed row; the queue takes the first `reached` of them and
     then throws.
     */
    method ReapStuckJobs(now: nat, order: seq<RawId>, reached: nat)
      requires ReapOrder(world, Tables(now, raws, map[], jobs, listings), order)
      requires jobs.Keys <= raws.Keys
      modifies `jobs, `queue
      ensures ReapedLedger(world, old(jobs), jobs, now)
      ensures Rebuilt(world, raws, old(queue), order, if reached < |order| then reached else |order|, queue)
    {
      assert forall id :: id in order ==> ReapHits(world, Tables(now, raws, map[], jobs, listings), id);
      jobs := ReapSql(world, jobs, now);
      var i := 0;
      while i < |order| && i < reached
        invariant 0 <= i <= |order| && i <= reached
        invariant jobs == ReapSql(world, old(jobs), now) && (forall id :: id in order ==> id in raws)
        invariant Rebuilt(world, raws, old(queue), order, i, queue)
      {
        RebuiltOn(world, raws, old(queue), order, i, queue);
        queue := [Mirrored(world, raws[order[i]], order[i])] + queue;
        i := i + 1;
      }
    }

    /** `processOrphansDirect` over the batch its SELECT returned. */
    method ProcessOrphansDirect(batch: seq<RawId>, tries: seq<Try>) returns (count: nat)
      requires |tries| == |batch|
      modifies `jobs, `listings, `processed
      ensures Value() == Batch(world, raws, old(Value()), batch, tries)
      ensures count == ReturnsIn(world, raws, batch, tries, old(processed))
      ensures (forall i :: 0 <= i < |batch| ==> batch[i] in raws && !tries[i].fate.LengthThrows?) ==>
        processed == old(processed) + count
    {
      count := 0;
      var i, alive := 0, true;
      while i < |batch| && alive
        invariant 0 <= i <= |batch|
        invariant Batch(world, raws, old(Value()), batch, tries)
               == if alive then Batch(world, raws, Value(), batch[i..], tries[i..]) else Value()
        invariant ReturnsIn(world, raws, batch, tries, old(processed))
               == count + if alive then ReturnsIn(world, raws, batch[i..], tries[i..], processed) else 0
        invariant (forall i :: 0 <= i < |batch| ==> batch[i] in raws && !tries[i].fate.LengthThrows?) ==>
          processed == old(processed) + count
      {
        var done := ProcessOne(Job(batch[i], None, None), tries[i]);
        if done {
          count := count + 1;
        }
        alive := !tries[i].fate.Crashes();
        i := i + 1;
        assert batch[i - 1..][1..] == batch[i..] && tries[i - 1..][1..] == tries[i..];
      }
    }

    /** `writeRawMessage`: insert once, enqueue only what was inserted. */
    method WriteRawMessage(id: RawId, raw: Raw, job: Job, queueUp: bool) returns (inserted: bool)
      requires id !in raws && UniqueKeys(raws)
      modifies `raws, `queue
      ensures (raws, queue) == Delivered(old(raws), old(queue), id, raw, job, queueUp)
      ensures UniqueKeys(raws) && KeyTaken(raws, raw.user, raw.message) && inserted == (id in raws)
    {
      inserted := !KeyTaken(raws, raw.user, raw.message);
      if inserted {
        raws := raws[id := raw];
        assert raws[id] == raw;
        if queueUp {
          queue := [job] + queue;
        }
      }
    }
  }

  // ---------------------------------------------------------------- the measure

  predicate Settled(db: Db, id: RawId) {
    id in db.listings || (id in db.jobs && db.jobs[id].status == Dead)
  }

  /** A job that is done has its listing, and a dead one used up its attempts. */
  predicate Sound(world: World, db: Db) {
    && (forall id :: id in db.jobs && db.jobs[id].status == Done ==> id in db.listings)
    && (forall id :: id in db.jobs && db.jobs[id].status == Dead ==> db.jobs[id].attempts >= world.maxAttempts)
  }

  function AttemptsLeft(world: World, attempts: nat): nat {
    if attempts < world.maxAttempts then world.maxAttempts - attempts else 0
  }

  /** How much can still happen to a message: falls with every reap of its claim and every new claim. */
  function Rank(world: World, db: Db, id: RawId): nat {
    if Settled(db, id) then 0
    else if id !in db.jobs then 2 * world.maxAttempts + 2
    else
      var left := AttemptsLeft(world, db.jobs[id].attempts);
      match db.jobs[id].status
      case Processing => if left == 0 then 1 else 2 * left + 3
      case Done => 0
      case _ => 2 * left + 2
  }

  function TotalRank(world: World, db: Db, ids: seq<RawId>): nat {
    if ids == [] then 0 else Rank(world, db, ids[0]) + TotalRank(world, db, ids[1..])
  }

  /** One sweep of the reaper followed by one direct poll. */
  datatype Round = Round(reapAt: nat, batch: seq<RawId>, tries: seq<Try>)

  function Reaped(world: World, db: Db, now: nat): Db {
    db.(jobs := ReapSql(world, db.jobs, now))
  }

  function AfterRound(world: World, raws: map<RawId, Raw>, db: Db, r: Round): Db
    requires |r.tries| == |r.batch|
  {
    Batch(world, raws, Reaped(world, db, r.reapAt), r.batch, r.tries)
  }

  /**
   The reaper runs once every open claim is stale, and the poll takes a batch of visible
   messages: empty only when none is visible.
   */
  predicate ValidRound(world: World, raws: map<RawId, Raw>, db: Db, r: Round) {
    && |r.tries| == |r.batch|
    && (forall id :: id in db.jobs ==> db.jobs[id].Stamp() + world.staleMs < r.reapAt)
    && Distinct(r.batch)
    && (forall id :: id in r.batch ==> id in raws && PollVisible(ReapSql(world, db.jobs, r.reapAt), db.listings, id))
    && (r.batch == [] ==> forall id :: id in raws ==> !PollVisible(ReapSql(world, db.jobs, r.reapAt), db.listings, id))
  }

  lemma ReapLowers(world: World, db: Db, now: nat, id: RawId)
    requires forall i :: i in db.jobs ==> db.jobs[i].Stamp() + world.staleMs < now
    ensures Rank(world, Reaped(world, db, now), id) <= Rank(world, db, id)
    ensures !Settled(db, id) && id in db.jobs && db.jobs[id].status == Processing ==>
      Rank(world, Reaped(world, db, now), id) < Rank(world, db, id)
  {
  }

  lemma AttemptLowers(world: World, raws: map<RawId, Raw>, db: Db, id: RawId, try: Try, other: RawId)
    requires id in raws && PollVisible(db.jobs, db.listings, id)
    ensures var db' := Attempt(world, raws, db, Job(id, None, None), try);
      && Rank(world, db', other) <= Rank(world, db, other)
      && (other == id ==> Rank(world, db', other) < Rank(world, db, other))
      && (other != id ==> (PollVisible(db'.jobs, db'.listings, other) <==> PollVisible(db.jobs, db.listings, other)))
  {
  }

  lemma {:induction false} BatchLowers(world: World, raws: map<RawId, Raw>, db: Db, batch: seq<RawId>, tries: seq<Try>,
                                       other: RawId)
    requires |tries| == |batch| && Distinct(batch)
    requires forall id :: id in batch ==> id in raws && PollVisible(db.jobs, db.listings, id)
    ensures var db' := Batch(world, raws, db, batch, tries);
      && Rank(world, db', other) <= Rank(world, db, other)
      && (batch != [] && other == batch[0] ==> Rank(world, db', other) < Rank(world, db, other))
    decreases |batch|
  {
    if batch != [] {
      var next := Attempt(world, raws, db, Job(batch[0], None, None), tries[0]);
      AttemptLowers(world, raws, db, batch[0], tries[0], other);
      if !tries[0].fate.Crashes() {
        forall id | id in batch[1..] ensures id in raws && PollVisible(next.jobs, next.listings, id) {
          assert id in batch && id != batch[0];
          AttemptLowers(world, raws, db, batch[0], tries[0], id);
        }
        BatchLowers(world, raws, next, batch[1..], tries[1..], other);
      }
    }
  }

  lemma RoundLowers(world: World, raws: map<RawId, Raw>, db: Db, r: Round, id: RawId)
    requires ValidRound(world, raws, db, r)
    ensures Rank(world, AfterRound(world, raws, db, r), id) <= Rank(world, db, id)
    ensures
      || (!Settled(db, id) && id in db.jobs && db.jobs[id].status == Processing)
      || (r.batch != [] && id == r.batch[0]) ==>
      Rank(world, AfterRound(world, raws, db, r), id) < Rank(world, db, id)
  {
    ReapLowers(world, db, r.reapAt, id);
    BatchLowers(world, raws, Reaped(world, db, r.reapAt), r.batch, r.tries, id);
  }

  lemma AttemptKeepsSound(world: World, raws: map<RawId, Raw>, db: Db, job: Job, try: Try)
    requires Sound(world, db)
    ensures Sound(world, Attempt(world, raws, db, job, try))
  {
  }

  lemma {:induction false} BatchKeepsSound(world: World, raws: map<RawId, Raw>, db: Db, batch: seq<RawId>,
                                           tries: seq<Try>)
    requires |tries| == |batch| && Sound(world, db)
    ensures Sound(world, Batch(world, raws, db, batch, tries))
    decreases |batch|
  {
    if batch != [] {
      AttemptKeepsSound(world, raws, db, Job(batch[0], None, None), tries[0]);
      if !tries[0].fate.Crashes() {
        BatchKeepsSound(world, raws, Attempt(world, raws, db, Job(batch[0], None, None), tries[0]), batch[1..],
          tries[1..]);
      }
    }
  }

  lemma {:induction false} TotalLowers(world: World, before: Db, after: Db, ids: seq<RawId>)
    requires forall id :: id in ids ==> Rank(world, after, id) <= Rank(world, before, id)
    ensures TotalRank(world, after, ids) <= TotalRank(world, before, ids)
    ensures (exists id :: id in ids && Rank(world, after, id) < Rank(world, before, id)) ==>
      TotalRank(world, after, ids) < TotalRank(world, before, ids)
  {
    if ids != [] {
      assert forall id :: id in ids[1..] ==> id in ids;
      TotalLowers(world, before, after, ids[1..]);
      if id :| id in ids && Rank(world, after, id) < Rank(world, before, id) {
        assert id == ids[0] || id in ids[1..];
      }
    }
  }

  /** A round with an unsettled message makes progress, whatever the adversary does in it. */
  lemma RoundProgresses(world: World, raws: map<RawId, Raw>, db: Db, r: Round, ids: seq<RawId>)
    requires ValidRound(world, raws, db, r) && Sound(world, db)
    requires forall id :: id in ids <==> id in raws
    ensures Sound(world, AfterRound(world, raws, db, r))
    ensures (exists id :: id in ids && !Settled(db, id)) ==>
      TotalRank(world, AfterRound(world, raws, db, r), ids) < TotalRank(world, db, ids)
  {
    var after := AfterRound(world, raws, db, r);
    BatchKeepsSound(world, raws, Reaped(world, db, r.reapAt), r.batch, r.tries);
    forall id | id in ids ensures Rank(world, after, id) <= Rank(world, db, id) {
      RoundLowers(world, raws, db, r, id);
    }
    TotalLowers(world, db, after, ids);
    if id :| id in ids && !Settled(db, id) {
      if id in db.jobs && db.jobs[id].status == Processing {
        RoundLowers(world, raws, db, r, id);
      } else {
        assert PollVisible(ReapSql(world, db.jobs, r.reapAt), db.listings, id);
        RoundLowers(world, raws, db, r, r.batch[0]);
        assert r.batch[0] in ids;
      }
    }
  }

  /** The tables after a number of rounds. */
  function AfterRounds(world: World, raws: map<RawId, Raw>, db: Db, rounds: seq<Round>): Db
    requires forall r :: r in rounds ==> |r.tries| == |r.batch|
    decreases |rounds|
  {
    if rounds == [] then db
    else AfterRounds(world, raws, AfterRound(world, raws, db, rounds[0]), rounds[1..])
  }

  predicate ValidRounds(world: World, raws: map<RawId, Raw>, db: Db, rounds: seq<Round>)
    requires forall r :: r in rounds ==> |r.tries| == |r.batch|
    decreases |rounds|
  {
    rounds == [] ||
    (&& ValidRound(world, raws, db, rounds[0])
     && ValidRounds(world, raws, AfterRound(world, raws, db, rounds[0]), rounds[1..]))
  }

  /**
   The drain theorem: after as many rounds as the total rank, every message has a listing or is
   dead, against every adversary that fails or crashes processing attempts.
   */
  lemma {:induction false} Drained(world: World, raws: map<RawId, Raw>, db: Db, rounds: seq<Round>, ids: seq<RawId>)
    requires forall r :: r in rounds ==> |r.tries| == |r.batch|
    requires ValidRounds(world, raws, db, rounds) && Sound(world, db)
    requires forall id :: id in ids <==> id in raws
    requires |rounds| >= TotalRank(world, db, ids)
    ensures forall id :: id in raws ==> Settled(AfterRounds(world, raws, db, rounds), id)
    ensures Sound(world, AfterRounds(world, raws, db, rounds))
    decreases |rounds|
  {
    if rounds == [] {
      AllSettled(world, db, ids);
    } else {
      RoundProgresses(world, raws, db, rounds[0], ids);
      var next := AfterRound(world, raws, db, rounds[0]);
      if forall id :: id in ids ==> Settled(db, id) {
        forall id | id in ids ensures Rank(world, next, id) == 0 {
          RoundLowers(world, raws, db, rounds[0], id);
        }
        RankZero(world, next, ids);
      }
      Drained(world, raws, next, rounds[1..], ids);
    }
  }

  lemma {:induction false} RankZero(world: World, db: Db, ids: seq<RawId>)
    requires forall id :: id in ids ==> Rank(world, db, id) == 0
    ensures TotalRank(world, db, ids) == 0
  {
    if ids != [] { RankZero(world, db, ids[1..]); }
  }

  lemma {:induction false} AllSettled(world: World, db: Db, ids: seq<RawId>)
    requires TotalRank(world, db, ids) == 0 && Sound(world, db)
    ensures forall id :: id in ids ==> Settled(db, id)
  {
    if ids != [] { AllSettled(world, db, ids[1..]); }
  }

  /** The bound for a table of messages that were never tried. */
  lemma {:induction false} FreshBound(world: World, raws: map<RawId, Raw>, ids: seq<RawId>)
    ensures TotalRank(world, Db(map[], map[]), ids) == |ids| * (2 * world.maxAttempts + 2)
  {
    if ids != [] { FreshBound(world, raws, ids[1..]); }
  }
}
