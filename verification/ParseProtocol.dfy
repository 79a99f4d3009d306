/**
 The parse pipeline as a protocol: raw_messages -> queue -> any number of workers -> listings,
 with parse_jobs as the ledger (src/db/dualWrite.js, src/queue/upstashClient.js,
 src/worker/parseWorker.js, src/ops/reprocess.js).
 Every SQL statement and every queue call is one atomic event; events of different
 processes interleave freely, and processes crash between any two of them.
 */
module ParseProtocol {
  import opened Values
  import opened Reprocess

  // ---------------------------------------------------------------- rows

  type RawId = nat

  /** A row of raw_messages. */
  datatype Raw = Raw(user: nat, message: nat, waGroup: nat, text: string, sender: Option<string>, received: nat)

  /** A queue payload; `group` is the name the enqueuer put in, absent in a direct poll. */
  datatype Job = Job(id: RawId, text: Option<string>, group: Option<string>)

  datatype Listing = Listing(id: RawId, user: nat, waGroup: nat, listed: nat, group: Option<string>, columns: Columns)

  datatype Status = Pending | Processing | Done | Failed | Dead

  /** A row of parse_jobs; a freshly inserted row has no updated_at. */
  datatype Ledger = Ledger(status: Status, attempts: nat, created: nat, updated: Option<nat>) {
    function Stamp(): nat { updated.GetOr(created) }
  }

  type Jobs = map<RawId, Ledger>
  type Listings = map<RawId, Listing>

  /**
   What stays fixed during a run: the parser, the batch pass, what the columns of `listings` can hold, the group
   names and the settings.
   */
  datatype World = World(
    derive: (string, Option<string>) -> Columns,
    sweep: (Columns, string) -> Columns,
    fits: Columns -> bool,
    groupName: (nat, nat) -> Option<string>,
    rawGroupId: string -> bool,
    maxAttempts: nat,
    retryMs: nat,
    staleMs: nat)

  // ---------------------------------------------------------------- the SQL statements

  /** The claim: INSERT ... ON CONFLICT DO UPDATE. */
  function ClaimSql(jobs: Jobs, id: RawId, now: nat): Jobs {
    if id in jobs
    then jobs[id := jobs[id].(status := Processing, attempts := jobs[id].attempts + 1, updated := Some(now))]
    else jobs[id := Ledger(Processing, 1, now, None)]
  }

  /** The failure record. */
  function FailSql(jobs: Jobs, id: RawId, now: nat): Jobs {
    if id in jobs
    then jobs[id := jobs[id].(status := Failed, attempts := jobs[id].attempts + 1, updated := Some(now))]
    else jobs[id := Ledger(Failed, 1, now, None)]
  }

  function DeadSql(jobs: Jobs, id: RawId, now: nat): Jobs {
    if id in jobs then jobs[id := jobs[id].(status := Dead, updated := Some(now))] else jobs
  }

  function DoneSql(jobs: Jobs, id: RawId): Jobs {
    if id in jobs then jobs[id := jobs[id].(status := Done)] else jobs
  }

  predicate Stale(world: World, row: Ledger, now: nat) {
    row.status == Processing && row.Stamp() + world.staleMs < now
  }

  function ReapedRow(world: World, row: Ledger, now: nat): Ledger {
    if !Stale(world, row, now) then row
    else row.(status := if row.attempts >= world.maxAttempts then Dead else Pending, updated := Some(now))
  }

  function ReapSql(world: World, jobs: Jobs, now: nat): Jobs {
    map id | id in jobs :: ReapedRow(world, jobs[id], now)
  }

  /** The listing upsert: the identity columns are written once. */
  function UpsertSql(listings: Listings, l: Listing): Listings {
    if l.id in listings
    then listings[l.id := listings[l.id].(waGroup := l.waGroup, group := l.group, columns := l.columns)]
    else listings[l.id := l]
  }

  /** The direct poll's WHERE: no listing, and no job that is processing, done or dead. */
  predicate PollVisible(jobs: Jobs, listings: Listings, id: RawId) {
    id !in listings && (id !in jobs || jobs[id].status == Pending || jobs[id].status == Failed)
  }

  function GroupOf(world: World, raw: Raw): Option<string> {
    world.groupName(raw.user, raw.waGroup)
  }

  /** The listing `processOne` computes from a raw row and its payload. */
  function DerivedListing(world: World, raw: Raw, job: Job): Listing {
    var text := if raw.text != "" then raw.text else job.text.GetOr("");
    Listing(job.id, raw.user, raw.waGroup, raw.received, Or(GroupOf(world, raw), job.group),
      world.derive(text, raw.sender))
  }

  /** The payload the reaper, the startup recovery and the full reprocess rebuild from the tables. */
  function Mirrored(world: World, raw: Raw, id: RawId): Job {
    Job(id, Some(raw.text), GroupOf(world, raw))
  }

  /** The delay before a failed job is queued again. */
  function Power2(n: nat): nat {
    if n == 0 then 1 else 2 * Power2(n - 1)
  }

  const BACKOFF_CAP: nat := 900_000

  function Backoff(world: World, attempts: nat): nat
    requires attempts >= 1
  {
    var wait := world.retryMs * Power2(attempts - 1);
    if wait < BACKOFF_CAP then wait else BACKOFF_CAP
  }

  // ---------------------------------------------------------------- what a write leaves

  /** The columns, the group and its name are those of this write; every other listing is as it was. */
  predicate Overwritten(before: Listings, after: Listings, id: RawId, waGroup: nat, group: Option<string>,
                        columns: Columns)
  {
    && after.Keys == before.Keys + {id}
    && after[id].waGroup == waGroup && after[id].group == group && after[id].columns == columns
    && forall other :: other in before && other != id ==> after[other] == before[other]
  }

  /** The monitored name if there is one, else the payload's. */
  function NameFor(world: World, raw: Raw, job: Job): Option<string> {
    var monitored := world.groupName(raw.user, raw.waGroup);
    if monitored.Some? && monitored.value != "" then monitored else job.group
  }

  // ---------------------------------------------------------------- processes

  datatype Phase = Fetched | Claimed | Derived(listing: Listing) | Stored | Finished | Thrown | Exhausted

  /** What a worker is doing. `since` is the time of its claim, once it has one. */
  datatype Pc =
    | Idle
    | Busy(job: Job, direct: bool, phase: Phase, since: Option<nat>)
    | Requeueing(todo: seq<RawId>)

  /** `rest` is what remains of the batch of a direct poll. */
  datatype Worker = Worker(pc: Pc, rest: seq<RawId>)

  datatype Timer = Timer(owner: nat, job: Job, due: nat)

  datatype Sweep = Sweep(id: RawId, group: Option<string>, columns: Columns)

  /** The tables, the chat name each row arrived with, and the clock behind NOW(). */
  datatype Tables = Tables(clock: nat, raws: map<RawId, Raw>, chats: map<RawId, Option<string>>, jobs: Jobs,
                           listings: Listings)

  /** History variables: nothing the program does depends on them. */
  datatype History = History(
    offers: seq<RawId>,
    claims: map<RawId, nat>,
    delays: map<RawId, seq<nat>>,
    reaped: set<(RawId, nat)>)

  datatype State = State(
    tables: Tables,
    queue: seq<Job>,
    workers: map<nat, Worker>,
    timers: map<nat, Timer>,
    nextTimer: nat,
    producers: map<nat, Job>,
    sweeps: map<nat, Sweep>,
    history: History)
  {
    function WorkerAt(w: nat): Worker {
      if w in workers then workers[w] else Worker(Idle, [])
    }

    function PcAt(w: nat): Pc { WorkerAt(w).pc }

    function WithWorker(w: nat, worker: Worker): State {
      this.(workers := workers[w := worker])
    }

    function WithPc(w: nat, pc: Pc): State {
      WithWorker(w, Worker(pc, WorkerAt(w).rest))
    }

    function WithJobs(jobs: Jobs): State {
      this.(tables := tables.(jobs := jobs))
    }

    function WithListings(listings: Listings): State {
      this.(tables := tables.(listings := listings))
    }

    /** LPUSH; BRPOP takes from the other end. */
    function Pushed(job: Job): State {
      this.(queue := [job] + queue)
    }
  }

  const Start: State := State(Tables(0, map[], map[], map[], map[]), [], map[], map[], 0, map[], map[],
    History([], map[], map[], {}))

  // ---------------------------------------------------------------- events

  datatype Event =
    | Tick(ms: nat)
    // the producer: writeRawMessage
    | Insert(p: nat, id: RawId, user: nat, message: nat, waGroup: nat, text: Option<string>, sender: Option<string>,
             received: nat, chat: Option<string>)
    | Offer(p: nat)
    | OfferLost(p: nat)
    // one delivery: processOne and the loop around it
    | Dequeue(w: nat)
    | Claim(w: nat)
    | Read(w: nat)
    | Store(w: nat)
    | Finish(w: nat)
    | Return(w: nat)
    | Throw(w: nat)
    | RecordFailure(w: nat)
    | MarkDead(w: nat)
    | GiveUp(w: nat)
    | Fire(t: nat)
    | FireLost(t: nat)
    // the sweeps of the worker loop
    | Reap(w: nat, order: seq<RawId>)
    | Poll(w: nat, batch: seq<RawId>)
    | PollNext(w: nat)
    | Recover(w: nat, batch: seq<RawId>)
    | Requeue(w: nat)
    // operators and faults
    | FullReprocess(id: RawId)
    | SweepRead(k: nat, id: RawId)
    | SweepWrite(k: nat)
    | Crash(w: nat)
    | QueueLoss(at: nat)

  predicate KeyTaken(raws: map<RawId, Raw>, user: nat, message: nat) {
    exists id :: id in raws && raws[id].user == user && raws[id].message == message
  }

  /** ON CONFLICT (user_id, wa_message_id) DO NOTHING, and the row id only when something was inserted. */
  function DoInsert(s: State, e: Event): State
    requires e.Insert?
  {
    var t := s.tables;
    if e.p in s.producers || e.id in t.raws || KeyTaken(t.raws, e.user, e.message) then s
    else
      s.(tables := t.(raws := t.raws[e.id := Raw(e.user, e.message, e.waGroup, e.text.GetOr(""), e.sender, e.received)],
                      chats := t.chats[e.id := e.chat]),
         producers := s.producers[e.p := Job(e.id, e.text, e.chat)])
  }

  function DoOffer(s: State, p: nat): State {
    if p !in s.producers then s
    else
      s.Pushed(s.producers[p]).(producers := s.producers - {p},
                                history := s.history.(offers := s.history.offers + [s.producers[p].id]))
  }

  function DoDequeue(s: State, w: nat): State {
    if !s.PcAt(w).Idle? || s.WorkerAt(w).rest != [] || s.queue == [] then s
    else s.(queue := s.queue[..|s.queue| - 1]).WithPc(w, Busy(s.queue[|s.queue| - 1], false, Fetched, None))
  }

  predicate InPhase(s: State, w: nat, phase: Phase) {
    s.PcAt(w).Busy? && s.PcAt(w).phase == phase
  }

  function Claims(s: State, id: RawId): nat {
    if id in s.history.claims then s.history.claims[id] else 0
  }

  function DoClaim(s: State, w: nat): State {
    if !InPhase(s, w, Fetched) then s
    else
      var id, now := s.PcAt(w).job.id, s.tables.clock;
      s.WithJobs(ClaimSql(s.tables.jobs, id, now))
       .(history := s.history.(claims := s.history.claims[id := Claims(s, id) + 1]))
       .WithPc(w, s.PcAt(w).(phase := Claimed, since := Some(now)))
  }

  function DoRead(world: World, s: State, w: nat): State {
    if !InPhase(s, w, Claimed) then s
    else
      var job := s.PcAt(w).job;
      if job.id !in s.tables.raws then s.WithPc(w, Idle)
      else s.WithPc(w, s.PcAt(w).(phase := Derived(DerivedListing(world, s.tables.raws[job.id], job))))
  }

  /** The columns of `listings` refuse what this worker derived: its UPSERT throws. */
  predicate Refused(world: World, s: State, w: nat) {
    s.PcAt(w).Busy? && s.PcAt(w).phase.Derived? && !world.fits(s.PcAt(w).phase.listing.columns)
  }

  function DoStore(world: World, s: State, w: nat): State {
    if !(s.PcAt(w).Busy? && s.PcAt(w).phase.Derived?) || Refused(world, s, w) then s
    else s.WithListings(UpsertSql(s.tables.listings, s.PcAt(w).phase.listing)).WithPc(w, s.PcAt(w).(phase := Stored))
  }

  function DoFinish(s: State, w: nat): State {
    if !InPhase(s, w, Stored) then s
    else s.WithJobs(DoneSql(s.tables.jobs, s.PcAt(w).job.id)).WithPc(w, s.PcAt(w).(phase := Finished))
  }

  /** Between the last statement and the return, every 25th job asks the queue for its length, which can throw too. */
  function DoReturn(s: State, w: nat): State {
    if !InPhase(s, w, Finished) then s else s.WithPc(w, Idle)
  }

  /** Any statement or the parser throws; a direct poll only logs it. */
  function DoThrow(s: State, w: nat): State {
    if !s.PcAt(w).Busy? || s.PcAt(w).phase == Thrown || s.PcAt(w).phase == Exhausted then s
    else s.WithPc(w, if s.PcAt(w).direct then Idle else s.PcAt(w).(phase := Thrown))
  }

  function Delays(s: State, id: RawId): seq<nat> {
    if id in s.history.delays then s.history.delays[id] else []
  }

  /** setTimeout. */
  function WithTimer(s: State, w: nat, job: Job, delay: nat): State {
    s.(timers := s.timers[s.nextTimer := Timer(w, job, s.tables.clock + delay)], nextTimer := s.nextTimer + 1)
     .(history := s.history.(delays := s.history.delays[job.id := Delays(s, job.id) + [delay]]))
  }

  /** The worker goes on with its loop. */
  function ScheduleRetry(s: State, w: nat, job: Job, delay: nat): State {
    WithTimer(s, w, job, delay).WithPc(w, Idle)
  }

  function DoRecordFailure(world: World, s: State, w: nat): State {
    if !InPhase(s, w, Thrown) then s
    else
      var pc := s.PcAt(w);
      var recorded := s.WithJobs(FailSql(s.tables.jobs, pc.job.id, s.tables.clock));
      var attempts := recorded.tables.jobs[pc.job.id].attempts;
      if attempts >= world.maxAttempts then recorded.WithPc(w, pc.(phase := Exhausted))
      else ScheduleRetry(recorded, w, pc.job, Backoff(world, attempts))
  }

  function DoMarkDead(s: State, w: nat): State {
    if !InPhase(s, w, Exhausted) then s
    else s.WithJobs(DeadSql(s.tables.jobs, s.PcAt(w).job.id, s.tables.clock)).WithPc(w, Idle)
  }

  /** A process stops where it is: the failure bookkeeping throws, or a loop of enqueues does. */
  function DoGiveUp(s: State, w: nat): State {
    if InPhase(s, w, Thrown) || InPhase(s, w, Exhausted) || s.PcAt(w).Requeueing? then s.WithPc(w, Idle) else s
  }

  function DoFire(s: State, t: nat): State {
    if t !in s.timers || s.tables.clock < s.timers[t].due then s
    else s.Pushed(s.timers[t].job).(timers := s.timers - {t})
  }

  predicate ReapHits(world: World, t: Tables, id: RawId) {
    id in t.jobs && Stale(world, t.jobs[id], t.clock)
  }

  /** The rows the reaper's UPDATE returns, with the attempts each had. */
  function ReapedPairs(world: World, t: Tables): set<(RawId, nat)> {
    set id | id in t.jobs && ReapHits(world, t, id) :: (id, t.jobs[id].attempts)
  }

  predicate Distinct(ids: seq<RawId>) {
    forall i, j :: 0 <= i < j < |ids| ==> ids[i] != ids[j]
  }

  /** The order in which the reaper walks the rows it re-armed. */
  predicate ReapOrder(world: World, t: Tables, order: seq<RawId>) {
    && Distinct(order)
    && (forall id :: id in order ==> ReapHits(world, t, id) && t.jobs[id].attempts < world.maxAttempts)
    && (forall id :: id in t.jobs && ReapHits(world, t, id) && t.jobs[id].attempts < world.maxAttempts ==> id in order)
  }

  function DoReap(world: World, s: State, w: nat, order: seq<RawId>): State {
    if !s.PcAt(w).Idle? || !ReapOrder(world, s.tables, order) then s
    else
      s.WithJobs(ReapSql(world, s.tables.jobs, s.tables.clock))
       .(history := s.history.(reaped := s.history.reaped + ReapedPairs(world, s.tables)))
       .WithPc(w, Requeueing(order))
  }

  /** Any batch the SELECT can return; its LIMIT and its order do not matter for safety. */
  function DoPoll(s: State, w: nat, batch: seq<RawId>): State {
    if !s.PcAt(w).Idle? || s.WorkerAt(w).rest != []
       || !(Distinct(batch) && forall id :: id in batch ==>
         id in s.tables.raws && PollVisible(s.tables.jobs, s.tables.listings, id)) then s
    else s.WithWorker(w, Worker(Idle, batch))
  }

  function DoPollNext(s: State, w: nat): State {
    if !s.PcAt(w).Idle? || s.WorkerAt(w).rest == [] then s
    else
      var rest := s.WorkerAt(w).rest;
      s.WithWorker(w, Worker(Busy(Job(rest[0], None, None), true, Fetched, None), rest[1..]))
  }

  function DoRecover(s: State, w: nat, batch: seq<RawId>): State {
    if !s.PcAt(w).Idle? || !(forall id :: id in batch ==> id in s.tables.raws && id !in s.tables.listings) then s
    else s.WithPc(w, Requeueing(batch))
  }

  function DoRequeue(world: World, s: State, w: nat): State {
    if !s.PcAt(w).Requeueing? then s
    else
      var todo := s.PcAt(w).todo;
      if todo == [] then s.WithPc(w, Idle)
      else
        var next := s.WithPc(w, Requeueing(todo[1..]));
        if todo[0] in s.tables.raws then next.Pushed(Mirrored(world, s.tables.raws[todo[0]], todo[0])) else next
  }

  function DoFullReprocess(world: World, s: State, id: RawId): State {
    if id !in s.tables.raws then s else s.Pushed(Mirrored(world, s.tables.raws[id], id))
  }

  /** The group name the batch pass writes. */
  function SweptGroup(world: World, raw: Raw, group: Option<string>): Option<string> {
    OrNull(Refreshed(world.rawGroupId, group, GroupOf(world, raw)))
  }

  /**
   The batch pass reads a row long before it writes the result back; when it finds nothing to change, it does
   not write, which here is a write that never comes.
   */
  function DoSweepRead(world: World, s: State, k: nat, id: RawId): State {
    if k in s.sweeps || id !in s.tables.listings || id !in s.tables.raws then s
    else
      var l := s.tables.listings[id];
      s.(sweeps := s.sweeps[k := Sweep(id, SweptGroup(world, s.tables.raws[id], l.group),
        world.sweep(l.columns, s.tables.raws[id].text))])
  }

  function DoSweepWrite(s: State, k: nat): State {
    if k !in s.sweeps then s
    else
      var swept, listings := s.sweeps[k], s.tables.listings;
      var next := s.(sweeps := s.sweeps - {k});
      if swept.id !in listings then next
      else next.WithListings(listings[swept.id := listings[swept.id].(group := swept.group, columns := swept.columns)])
  }

  /** A crash loses the worker's place, its batch and its pending retries. */
  function DoCrash(s: State, w: nat): State {
    s.(workers := s.workers - {w}, timers := map t | t in s.timers && s.timers[t].owner != w :: s.timers[t])
  }

  function DoTick(s: State, ms: nat): State {
    s.(tables := s.tables.(clock := s.tables.clock + ms))
  }

  function DoOfferLost(s: State, p: nat): State {
    s.(producers := s.producers - {p})
  }

  function DoFireLost(s: State, t: nat): State {
    s.(timers := s.timers - {t})
  }

  function DoQueueLoss(s: State, at: nat): State {
    if at < |s.queue| then s.(queue := s.queue[..at] + s.queue[at + 1..]) else s
  }

  function Step(world: World, s: State, e: Event): State {
    match e
    case Tick(ms) => DoTick(s, ms)
    case Insert(_, _, _, _, _, _, _, _, _) => DoInsert(s, e)
    case Offer(p) => DoOffer(s, p)
    case OfferLost(p) => DoOfferLost(s, p)
    case Dequeue(w) => DoDequeue(s, w)
    case Claim(w) => DoClaim(s, w)
    case Read(w) => DoRead(world, s, w)
    case Store(w) => DoStore(world, s, w)
    case Finish(w) => DoFinish(s, w)
    case Return(w) => DoReturn(s, w)
    case Throw(w) => DoThrow(s, w)
    case RecordFailure(w) => DoRecordFailure(world, s, w)
    case MarkDead(w) => DoMarkDead(s, w)
    case GiveUp(w) => DoGiveUp(s, w)
    case Fire(t) => DoFire(s, t)
    case FireLost(t) => DoFireLost(s, t)
    case Reap(w, order) => DoReap(world, s, w, order)
    case Poll(w, batch) => DoPoll(s, w, batch)
    case PollNext(w) => DoPollNext(s, w)
    case Recover(w, batch) => DoRecover(s, w, batch)
    case Requeue(w) => DoRequeue(world, s, w)
    case FullReprocess(id) => DoFullReprocess(world, s, id)
    case SweepRead(k, id) => DoSweepRead(world, s, k, id)
    case SweepWrite(k) => DoSweepWrite(s, k)
    case Crash(w) => DoCrash(s, w)
    case QueueLoss(at) => DoQueueLoss(s, at)
  }

  /** The state a run from `s` ends in. */
  function RunFrom(world: World, s: State, run: seq<Event>): State {
    if run == [] then s else Step(world, RunFrom(world, s, run[..|run| - 1]), run[|run| - 1])
  }

  function Run(world: World, run: seq<Event>): State {
    RunFrom(world, Start, run)
  }
}
