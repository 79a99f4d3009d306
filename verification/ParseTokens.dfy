/**
 Calm runs of the parse pipeline: no crash, no operator, no direct poll or recovery, statements
 and queue calls succeed, and workers finish before the stale threshold; only the parser may fail,
 and the columns may refuse what it derived.
 Then every stored message is in exactly one place, and the retry schedule is exact.
 */
module ParseTokens {
  import opened Values
  import opened Reprocess
  import opened ParseProtocol
  import opened ParseSafety
  import opened ParseTheorems

  predicate CalmEvent(world: World, s: State, e: Event) {
    || e.Tick? || e.Insert? || e.Offer? || e.Dequeue? || e.Claim? || e.Read? || e.Store? || e.Finish? || e.Return?
    || e.RecordFailure? || e.MarkDead? || e.Fire? || e.Reap? || e.Requeue?
    || (e.Throw? && MayThrow(world, s, e.w))
  }

  /** The parser, or the write of what it derived. */
  predicate MayThrow(world: World, s: State, w: nat) {
    InPhase(s, w, Claimed) || Refused(world, s, w)
  }

  /** Every step of the run is calm. */
  predicate Calm(world: World, run: seq<Event>) {
    run == [] ||
    (var front := run[..|run| - 1];
     && Calm(world, front)
     && Timely(world, Run(world, front))
     && CalmEvent(world, Run(world, front), run[|run| - 1]))
  }

  // ---------------------------------------------------------------- the account of a message

  /** The delays of the first `n` retries. */
  function Schedule(world: World, n: nat): (delays: seq<nat>)
    ensures |delays| == n
    ensures forall i :: 0 <= i < n ==> delays[i] == Backoff(world, 2 * (i + 1))
  {
    if n == 0 then [] else Schedule(world, n - 1) + [Backoff(world, 2 * n)]
  }

  /** The part of the history that is about deliveries. */
  datatype Log = Log(claims: map<RawId, nat>, delays: map<RawId, seq<nat>>)

  function LogOf(s: State): Log {
    Log(s.history.claims, s.history.delays)
  }

  /** What the ledger and the history say about one message. */
  datatype Meter = Meter(deliveries: nat, delays: seq<nat>, row: Option<Ledger>)

  function MeterOf(jobs: Jobs, log: Log, id: RawId): Meter {
    Meter(if id in log.claims then log.claims[id] else 0,
          if id in log.delays then log.delays[id] else [],
          if id in jobs then Some(jobs[id]) else None)
  }

  /** Where a worker stands: before its claim, on its delivery, or about to bury the job. */
  datatype Stage = Fresh | Active | Spent

  datatype Place = AtProducer(p: nat) | InQueue | AtWorker(w: nat, stage: Stage) | InTimer(k: nat) | IsDone | IsDead

  /** Each earlier delivery cost two attempts, one at the claim and one at the failure record. */
  predicate Waiting(world: World, m: Meter) {
    && 2 * m.deliveries < world.maxAttempts
    && m.delays == Schedule(world, m.deliveries)
    && (m.row.Some? <==> m.deliveries > 0)
    && (m.row.Some? ==> m.row.value.status == Failed && m.row.value.attempts == 2 * m.deliveries)
  }

  predicate Delivered(world: World, m: Meter, status: Status, failures: nat) {
    && m.deliveries >= 1 && 2 * (m.deliveries - 1) < world.maxAttempts
    && m.delays == Schedule(world, m.deliveries - 1)
    && m.row.Some? && m.row.value.status == status
    && m.row.value.attempts == m.deliveries + failures
  }

  predicate AccountOk(world: World, m: Meter, place: Place) {
    match place
    case AtWorker(_, Active) => m.deliveries >= 1 && Delivered(world, m, Processing, m.deliveries - 1)
    case AtWorker(_, Spent) => Delivered(world, m, Failed, m.deliveries) && 2 * m.deliveries >= world.maxAttempts
    case IsDone => m.deliveries >= 1 && Delivered(world, m, Done, m.deliveries - 1)
    case IsDead => Delivered(world, m, Dead, m.deliveries) && 2 * m.deliveries >= world.maxAttempts
    case _ => Waiting(world, m)
  }

  predicate AccountsOk(world: World, jobs: Jobs, log: Log, loc: map<RawId, Place>) {
    && (forall id :: id in loc ==> AccountOk(world, MeterOf(jobs, log, id), loc[id]))
    && log.claims.Keys <= loc.Keys && log.delays.Keys <= loc.Keys && jobs.Keys <= loc.Keys
  }

  // ---------------------------------------------------------------- the places

  predicate Working(pc: Pc) {
    pc.Busy? && !pc.phase.Finished?
  }

  function StageOf(phase: Phase): Stage {
    if phase.Fetched? then Fresh else if phase.Exhausted? then Spent else Active
  }

  predicate QueueAt(queue: seq<Job>, loc: map<RawId, Place>) {
    && (forall i :: 0 <= i < |queue| ==> queue[i].id in loc && loc[queue[i].id] == InQueue)
    && (forall i, j :: 0 <= i < j < |queue| ==> queue[i].id != queue[j].id)
    && (forall id :: id in loc && loc[id] == InQueue ==> exists i :: 0 <= i < |queue| && queue[i].id == id)
  }

  /** In a calm run no worker is in a direct poll, and no sweep has anything to enqueue. */
  predicate WorkerCalm(worker: Worker) {
    && worker.rest == []
    && (worker.pc.Requeueing? ==> worker.pc.todo == [])
    && (worker.pc.Busy? ==> !worker.pc.direct && (!worker.pc.phase.Fetched? ==> worker.pc.since.Some?))
  }

  predicate WorkersAt(workers: map<nat, Worker>, loc: map<RawId, Place>) {
    && (forall w :: w in workers ==> WorkerCalm(workers[w]))
    && (forall w :: w in workers && Working(workers[w].pc) ==>
          workers[w].pc.job.id in loc && loc[workers[w].pc.job.id] == AtWorker(w, StageOf(workers[w].pc.phase)))
    && (forall id :: id in loc && loc[id].AtWorker? ==>
          loc[id].w in workers && Working(workers[loc[id].w].pc) && workers[loc[id].w].pc.job.id == id)
  }

  predicate TimersAt(timers: map<nat, Timer>, next: nat, loc: map<RawId, Place>) {
    && (forall k :: k in timers ==> k < next && timers[k].job.id in loc && loc[timers[k].job.id] == InTimer(k))
    && (forall id :: id in loc && loc[id].InTimer? ==> loc[id].k in timers && timers[loc[id].k].job.id == id)
  }

  predicate ProducersAt(producers: map<nat, Job>, loc: map<RawId, Place>) {
    && (forall p :: p in producers ==> producers[p].id in loc && loc[producers[p].id] == AtProducer(p))
    && (forall id :: id in loc && loc[id].AtProducer? ==> loc[id].p in producers && producers[loc[id].p].id == id)
  }

  /** `loc` gives the one place of every stored message. */
  ghost predicate Located(world: World, s: State, loc: map<RawId, Place>) {
    && loc.Keys == s.tables.raws.Keys
    && AccountsOk(world, s.tables.jobs, LogOf(s), loc)
    && QueueAt(s.queue, loc)
    && WorkersAt(s.workers, loc)
    && TimersAt(s.timers, s.nextTimer, loc)
    && ProducersAt(s.producers, loc)
  }

  // ---------------------------------------------------------------- moving one message

  lemma QueueGains(queue: seq<Job>, loc: map<RawId, Place>, job: Job)
    requires QueueAt(queue, loc) && job.id in loc && loc[job.id] != InQueue
    ensures QueueAt([job] + queue, loc[job.id := InQueue])
  {
    var q, l := [job] + queue, loc[job.id := InQueue];
    forall id | id in l && l[id] == InQueue
      ensures exists i :: 0 <= i < |q| && q[i].id == id
    {
      if id == job.id { assert q[0].id == id; }
      else { var i :| 0 <= i < |queue| && queue[i].id == id; assert q[i + 1].id == id; }
    }
  }

  lemma QueueLoses(queue: seq<Job>, loc: map<RawId, Place>, place: Place)
    requires QueueAt(queue, loc) && queue != [] && place != InQueue
    ensures QueueAt(queue[..|queue| - 1], loc[queue[|queue| - 1].id := place])
  {
    var n := |queue| - 1;
    var l := loc[queue[n].id := place];
    forall id | id in l && l[id] == InQueue
      ensures exists i :: 0 <= i < n && queue[..n][i].id == id
    {
      var i :| 0 <= i < |queue| && queue[i].id == id;
      assert queue[..n][i].id == id;
    }
  }

  /** A move between two other places is invisible to a container. */
  lemma QueueSkips(queue: seq<Job>, loc: map<RawId, Place>, id: RawId, place: Place)
    requires QueueAt(queue, loc) && (id in loc ==> loc[id] != InQueue) && place != InQueue
    ensures QueueAt(queue, loc[id := place])
  {
  }

  lemma WorkersSkip(workers: map<nat, Worker>, loc: map<RawId, Place>, id: RawId, place: Place)
    requires WorkersAt(workers, loc) && (id in loc ==> !loc[id].AtWorker?) && !place.AtWorker?
    ensures WorkersAt(workers, loc[id := place])
  {
  }

  lemma TimersSkip(timers: map<nat, Timer>, next: nat, loc: map<RawId, Place>, id: RawId, place: Place)
    requires TimersAt(timers, next, loc) && (id in loc ==> !loc[id].InTimer?) && !place.InTimer?
    ensures TimersAt(timers, next, loc[id := place])
  {
  }

  lemma ProducersSkip(producers: map<nat, Job>, loc: map<RawId, Place>, id: RawId, place: Place)
    requires ProducersAt(producers, loc) && (id in loc ==> !loc[id].AtProducer?) && !place.AtProducer?
    ensures ProducersAt(producers, loc[id := place])
  {
  }

  /** One worker changes; `id` is the message it held before, holds after, or both. */
  lemma WorkerChanges(workers: map<nat, Worker>, loc: map<RawId, Place>, w: nat, worker: Worker, id: RawId,
                      place: Place)
    requires WorkersAt(workers, loc) && WorkerCalm(worker)
    requires w in workers && Working(workers[w].pc) ==> workers[w].pc.job.id == id
    requires id in loc && (loc[id].AtWorker? ==> loc[id].w == w)
    requires
      if Working(worker.pc) then worker.pc.job.id == id && place == AtWorker(w, StageOf(worker.pc.phase))
      else !place.AtWorker?
    ensures WorkersAt(workers[w := worker], loc[id := place])
  {
  }

  /** A worker that holds no message changes into another such. */
  lemma WorkerRests(workers: map<nat, Worker>, loc: map<RawId, Place>, w: nat, worker: Worker)
    requires WorkersAt(workers, loc) && WorkerCalm(worker) && !Working(worker.pc)
    requires w in workers ==> !Working(workers[w].pc)
    ensures WorkersAt(workers[w := worker], loc)
  {
  }

  lemma AccountMoves(world: World, jobs: Jobs, log: Log, loc: map<RawId, Place>,
                     jobs': Jobs, log': Log, id: RawId, place: Place)
    requires AccountsOk(world, jobs, log, loc)
    requires forall other :: other != id ==> MeterOf(jobs', log', other) == MeterOf(jobs, log, other)
    requires log'.claims.Keys <= loc.Keys + {id} && log'.delays.Keys <= loc.Keys + {id} && jobs'.Keys <= loc.Keys + {id}
    requires AccountOk(world, MeterOf(jobs', log', id), place)
    ensures AccountsOk(world, jobs', log', loc[id := place])
  {
  }

  predicate IsWaitingPlace(place: Place) {
    place.AtProducer? || place.InQueue? || place.InTimer? || (place.AtWorker? && place.stage.Fresh?)
  }

  lemma WaitingMoves(world: World, jobs: Jobs, log: Log, loc: map<RawId, Place>, id: RawId, place: Place)
    requires AccountsOk(world, jobs, log, loc) && IsWaitingPlace(place)
    requires if id in loc then IsWaitingPlace(loc[id]) else world.maxAttempts >= 1
    ensures AccountsOk(world, jobs, log, loc[id := place])
  {
    AccountMoves(world, jobs, log, loc, jobs, log, id, place);
  }

  // ---------------------------------------------------------------- calm events move one message at most

  lemma InsertCalm(world: World, s: State, e: Event, loc: map<RawId, Place>) returns (l: map<RawId, Place>)
    requires Located(world, s, loc) && e.Insert? && world.maxAttempts >= 1
    ensures Located(world, Step(world, s, e), l)
  {
    if DoInsert(s, e) == s { return loc; }
    var place := AtProducer(e.p);
    l := loc[e.id := place];
    QueueSkips(s.queue, loc, e.id, place);
    WorkersSkip(s.workers, loc, e.id, place);
    TimersSkip(s.timers, s.nextTimer, loc, e.id, place);
    WaitingMoves(world, s.tables.jobs, LogOf(s), loc, e.id, place);
    ProducerGains(s.producers, loc, e.p, Job(e.id, e.text, e.chat));
  }

  lemma ProducerGains(producers: map<nat, Job>, loc: map<RawId, Place>, p: nat, job: Job)
    requires ProducersAt(producers, loc) && p !in producers && job.id !in loc
    ensures ProducersAt(producers[p := job], loc[job.id := AtProducer(p)])
  {
  }

  lemma ProducerLoses(producers: map<nat, Job>, loc: map<RawId, Place>, p: nat)
    requires ProducersAt(producers, loc) && p in producers
    ensures ProducersAt(producers - {p}, loc[producers[p].id := InQueue])
  {
  }

  lemma TimerLoses(timers: map<nat, Timer>, next: nat, loc: map<RawId, Place>, k: nat)
    requires TimersAt(timers, next, loc) && k in timers
    ensures TimersAt(timers - {k}, next, loc[timers[k].job.id := InQueue])
  {
  }

  /** Into the queue, from the producer or from a timer. */
  lemma PushCalm(world: World, s: State, job: Job, loc: map<RawId, Place>)
    requires Located(world, s, loc) && job.id in loc
    requires loc[job.id].AtProducer? || loc[job.id].InTimer?
    ensures var l := loc[job.id := InQueue];
      && l.Keys == loc.Keys
      && AccountsOk(world, s.tables.jobs, LogOf(s), l) && QueueAt([job] + s.queue, l) && WorkersAt(s.workers, l)
  {
    QueueGains(s.queue, loc, job);
    WorkersSkip(s.workers, loc, job.id, InQueue);
    WaitingMoves(world, s.tables.jobs, LogOf(s), loc, job.id, InQueue);
  }

  lemma OfferCalm(world: World, s: State, p: nat, loc: map<RawId, Place>) returns (l: map<RawId, Place>)
    requires Located(world, s, loc)
    ensures Located(world, Step(world, s, Offer(p)), l)
  {
    if p !in s.producers { return loc; }
    var job := s.producers[p];
    l := loc[job.id := InQueue];
    PushCalm(world, s, job, loc);
    TimersSkip(s.timers, s.nextTimer, loc, job.id, InQueue);
    ProducerLoses(s.producers, loc, p);
  }

  lemma FireCalm(world: World, s: State, k: nat, loc: map<RawId, Place>) returns (l: map<RawId, Place>)
    requires Located(world, s, loc)
    ensures Located(world, Step(world, s, Fire(k)), l)
  {
    if k !in s.timers || s.tables.clock < s.timers[k].due { return loc; }
    var job := s.timers[k].job;
    l := loc[job.id := InQueue];
    PushCalm(world, s, job, loc);
    ProducersSkip(s.producers, loc, job.id, InQueue);
    TimerLoses(s.timers, s.nextTimer, loc, k);
  }

  lemma DequeueFrame(world: World, s: State, w: nat)
    requires s.PcAt(w).Idle? && s.WorkerAt(w).rest == [] && s.queue != []
    ensures var n, s' := |s.queue| - 1, Step(world, s, Dequeue(w));
      && s'.queue == s.queue[..n] && s'.workers == s.workers[w := Worker(Busy(s.queue[n], false, Fetched, None), [])]
      && s'.tables == s.tables && s'.timers == s.timers && s'.nextTimer == s.nextTimer && s'.producers == s.producers
      && s'.history == s.history
  {
  }

  lemma DequeuePlaces(s: State, w: nat, loc: map<RawId, Place>)
    requires QueueAt(s.queue, loc) && WorkersAt(s.workers, loc) && TimersAt(s.timers, s.nextTimer, loc)
    requires ProducersAt(s.producers, loc)
    requires s.PcAt(w).Idle? && s.queue != []
    ensures var n := |s.queue| - 1; var l := loc[s.queue[n].id := AtWorker(w, Fresh)];
      && QueueAt(s.queue[..n], l) && WorkersAt(s.workers[w := Worker(Busy(s.queue[n], false, Fetched, None), [])], l)
      && TimersAt(s.timers, s.nextTimer, l) && ProducersAt(s.producers, l)
  {
    var n := |s.queue| - 1;
    var id, place := s.queue[n].id, AtWorker(w, Fresh);
    QueueLoses(s.queue, loc, place);
    WorkerChanges(s.workers, loc, w, Worker(Busy(s.queue[n], false, Fetched, None), []), id, place);
    TimersSkip(s.timers, s.nextTimer, loc, id, place);
    ProducersSkip(s.producers, loc, id, place);
  }

  lemma DequeueCalm(world: World, s: State, w: nat, loc: map<RawId, Place>) returns (l: map<RawId, Place>)
    requires Located(world, s, loc)
    ensures Located(world, Step(world, s, Dequeue(w)), l)
  {
    if !s.PcAt(w).Idle? || s.WorkerAt(w).rest != [] || s.queue == [] { return loc; }
    var id := s.queue[|s.queue| - 1].id;
    l := loc[id := AtWorker(w, Fresh)];
    DequeueFrame(world, s, w);
    DequeuePlaces(s, w, loc);
    WaitingMoves(world, s.tables.jobs, LogOf(s), loc, id, AtWorker(w, Fresh));
  }

  /** Only this worker and the tables' jobs change, and it stays calm. */
  predicate WorkerOnly(s: State, s': State, w: nat) {
    && s'.tables.raws == s.tables.raws && s'.queue == s.queue && s'.timers == s.timers && s'.nextTimer == s.nextTimer
    && s'.producers == s.producers && s'.workers == s.workers[w := s'.WorkerAt(w)] && WorkerCalm(s'.WorkerAt(w))
  }

  /** The worker goes on with the same job, with the same books. */
  predicate SameJob(s: State, s': State, w: nat, phase: Phase) {
    && s.PcAt(w).Busy? && s'.PcAt(w).Busy? && s'.PcAt(w).job == s.PcAt(w).job && s'.PcAt(w).phase == phase
      && LogOf(s') == LogOf(s)
  }

  predicate Rests(s: State, s': State, w: nat) {
    s'.PcAt(w).Idle? && LogOf(s') == LogOf(s)
  }

  lemma ReadFrame(world: World, s: State, w: nat)
    requires InPhase(s, w, Claimed) && s.PcAt(w).job.id in s.tables.raws && WorkerCalm(s.WorkerAt(w))
    ensures var s' := Step(world, s, Read(w));
      WorkerOnly(s, s', w) && s'.tables == s.tables && s'.PcAt(w).Busy? && s'.PcAt(w).phase.Derived?
        && SameJob(s, s', w, s'.PcAt(w).phase)
  {
  }

  lemma StoreFrame(world: World, s: State, w: nat)
    requires s.PcAt(w).Busy? && s.PcAt(w).phase.Derived? && !Refused(world, s, w) && WorkerCalm(s.WorkerAt(w))
    ensures var s' := Step(world, s, Store(w));
      WorkerOnly(s, s', w) && s'.tables.jobs == s.tables.jobs && SameJob(s, s', w, Phase.Stored)
  {
  }

  lemma FinishFrame(world: World, s: State, w: nat)
    requires InPhase(s, w, Stored) && WorkerCalm(s.WorkerAt(w))
    ensures var s' := Step(world, s, Finish(w));
      WorkerOnly(s, s', w) && s'.tables.jobs == DoneSql(s.tables.jobs, s.PcAt(w).job.id) && SameJob(s, s', w, Finished)
  {
  }

  lemma ThrowFrame(world: World, s: State, w: nat)
    requires MayThrow(world, s, w) && WorkerCalm(s.WorkerAt(w))
    ensures var s' := Step(world, s, Throw(w));
      WorkerOnly(s, s', w) && s'.tables == s.tables && SameJob(s, s', w, Thrown)
  {
  }

  lemma MarkDeadFrame(world: World, s: State, w: nat)
    requires InPhase(s, w, Exhausted) && WorkerCalm(s.WorkerAt(w))
    ensures var s' := Step(world, s, MarkDead(w));
      WorkerOnly(s, s', w) && s'.tables.jobs == DeadSql(s.tables.jobs, s.PcAt(w).job.id, s.tables.clock)
        && Rests(s, s', w)
  {
  }

  lemma SpentFrame(world: World, s: State, w: nat)
    requires InPhase(s, w, Thrown) && !MayRetry(world, s, w) && WorkerCalm(s.WorkerAt(w))
    ensures var s' := Step(world, s, RecordFailure(w));
      WorkerOnly(s, s', w) && s'.tables.jobs == FailSql(s.tables.jobs, s.PcAt(w).job.id, s.tables.clock)
        && SameJob(s, s', w, Exhausted)
  {
  }

  /** A worker moves its own message on: the tables and the worker change, the other containers do not. */
  lemma WorkerCalmStep(world: World, s: State, w: nat, loc: map<RawId, Place>, s': State, place: Place)
    requires Located(world, s, loc) && Working(s.PcAt(w)) && (place.AtWorker? || place.IsDone? || place.IsDead?)
    requires WorkerOnly(s, s', w)
    requires var id := s.PcAt(w).job.id;
      && AccountsOk(world, s'.tables.jobs, LogOf(s'), loc[id := place])
      && (if Working(s'.PcAt(w)) then s'.PcAt(w).job.id == id && place == AtWorker(w, StageOf(s'.PcAt(w).phase))
          else !place.AtWorker?)
    ensures Located(world, s', loc[s.PcAt(w).job.id := place])
  {
    var id := s.PcAt(w).job.id;
    assert loc[id] == AtWorker(w, StageOf(s.PcAt(w).phase));
    QueueSkips(s.queue, loc, id, place);
    WorkerChanges(s.workers, loc, w, s'.WorkerAt(w), id, place);
    TimersSkip(s.timers, s.nextTimer, loc, id, place);
    ProducersSkip(s.producers, loc, id, place);
  }

  lemma ClaimAccount(world: World, jobs: Jobs, log: Log, loc: map<RawId, Place>, id: RawId, w: nat, now: nat)
    requires AccountsOk(world, jobs, log, loc) && id in loc && loc[id] == AtWorker(w, Fresh)
    ensures AccountsOk(world, ClaimSql(jobs, id, now),
      log.(claims := log.claims[id := MeterOf(jobs, log, id).deliveries + 1]), loc[id := AtWorker(w, Active)])
  {
    AccountMoves(world, jobs, log, loc, ClaimSql(jobs, id, now),
      log.(claims := log.claims[id := MeterOf(jobs, log, id).deliveries + 1]), id, AtWorker(w, Active));
  }

  lemma DoneAccount(world: World, jobs: Jobs, log: Log, loc: map<RawId, Place>, id: RawId, w: nat)
    requires AccountsOk(world, jobs, log, loc) && id in loc && loc[id] == AtWorker(w, Active)
    ensures AccountsOk(world, DoneSql(jobs, id), log, loc[id := IsDone])
  {
    AccountMoves(world, jobs, log, loc, DoneSql(jobs, id), log, id, IsDone);
  }

  lemma DeadAccount(world: World, jobs: Jobs, log: Log, loc: map<RawId, Place>, id: RawId, w: nat, now: nat)
    requires AccountsOk(world, jobs, log, loc) && id in loc && loc[id] == AtWorker(w, Spent)
    ensures AccountsOk(world, DeadSql(jobs, id, now), log, loc[id := IsDead])
  {
    AccountMoves(world, jobs, log, loc, DeadSql(jobs, id, now), log, id, IsDead);
  }

  lemma SpentAccount(world: World, jobs: Jobs, log: Log, loc: map<RawId, Place>, id: RawId, w: nat, now: nat)
    requires AccountsOk(world, jobs, log, loc) && id in loc && loc[id] == AtWorker(w, Active)
    requires FailSql(jobs, id, now)[id].attempts >= world.maxAttempts
    ensures AccountsOk(world, FailSql(jobs, id, now), log, loc[id := AtWorker(w, Spent)])
  {
    AccountMoves(world, jobs, log, loc, FailSql(jobs, id, now), log, id, AtWorker(w, Spent));
  }

  /** A failed delivery that may be retried: the attempts are even again and the schedule has one more delay. */
  lemma RetryAccount(world: World, jobs: Jobs, log: Log, loc: map<RawId, Place>, id: RawId, w: nat, now: nat, k: nat)
    requires AccountsOk(world, jobs, log, loc) && id in loc && loc[id] == AtWorker(w, Active)
    requires FailSql(jobs, id, now)[id].attempts < world.maxAttempts
    ensures var attempts := FailSql(jobs, id, now)[id].attempts;
      attempts >= 1 &&
      AccountsOk(world, FailSql(jobs, id, now),
        log.(delays := log.delays[id := MeterOf(jobs, log, id).delays + [Backoff(world, attempts)]]),
          loc[id := InTimer(k)])
  {
    var m := MeterOf(jobs, log, id);
    var attempts := FailSql(jobs, id, now)[id].attempts;
    assert attempts == 2 * m.deliveries;
    AccountMoves(world, jobs, log, loc, FailSql(jobs, id, now),
      log.(delays := log.delays[id := m.delays + [Backoff(world, attempts)]]), id, InTimer(k));
  }

  lemma ClaimFrame(world: World, s: State, w: nat, id: RawId)
    requires InPhase(s, w, Fetched) && id == s.PcAt(w).job.id && WorkerCalm(s.WorkerAt(w))
    ensures var s' := Step(world, s, Claim(w));
      && WorkerOnly(s, s', w) && s'.tables.jobs == ClaimSql(s.tables.jobs, id, s.tables.clock)
      && s'.PcAt(w).Busy? && s'.PcAt(w).job.id == id && s'.PcAt(w).phase.Claimed?
      && LogOf(s') == Log(s.history.claims[id := Claims(s, id) + 1], s.history.delays)
  {
  }

  lemma ClaimBooks(world: World, s: State, id: RawId, w: nat, loc: map<RawId, Place>)
    requires AccountsOk(world, s.tables.jobs, LogOf(s), loc) && id in loc && loc[id] == AtWorker(w, Fresh)
    ensures AccountsOk(world, ClaimSql(s.tables.jobs, id, s.tables.clock),
      Log(s.history.claims[id := Claims(s, id) + 1], s.history.delays), loc[id := AtWorker(w, Active)])
  {
    ClaimAccount(world, s.tables.jobs, LogOf(s), loc, id, w, s.tables.clock);
    assert LogOf(s).(claims := s.history.claims[id := Claims(s, id) + 1])
        == Log(s.history.claims[id := Claims(s, id) + 1], s.history.delays);
  }

  lemma ClaimCalm(world: World, s: State, w: nat, loc: map<RawId, Place>) returns (l: map<RawId, Place>)
    requires Located(world, s, loc)
    ensures Located(world, Step(world, s, Claim(w)), l)
  {
    if !InPhase(s, w, Fetched) { return loc; }
    var id := s.PcAt(w).job.id;
    WorkersJob(world, s, w, loc);
    ClaimBooks(world, s, id, w, loc);
    l := loc[id := AtWorker(w, Active)];
    ClaimLocated(world, s, w, id, loc);
  }

  lemma ClaimLocated(world: World, s: State, w: nat, id: RawId, loc: map<RawId, Place>)
    requires Located(world, s, loc) && InPhase(s, w, Fetched) && id == s.PcAt(w).job.id
    requires AccountsOk(world, ClaimSql(s.tables.jobs, id, s.tables.clock),
      Log(s.history.claims[id := Claims(s, id) + 1], s.history.delays), loc[id := AtWorker(w, Active)])
    ensures Located(world, Step(world, s, Claim(w)), loc[id := AtWorker(w, Active)])
  {
    WorkersJob(world, s, w, loc);
    ClaimFrame(world, s, w, id);
    WorkerCalmStep(world, s, w, loc, Step(world, s, Claim(w)), AtWorker(w, Active));
  }

  lemma ReadCalm(world: World, s: State, w: nat, loc: map<RawId, Place>) returns (l: map<RawId, Place>)
    requires Located(world, s, loc)
    ensures Located(world, Step(world, s, Read(w)), l)
  {
    if !InPhase(s, w, Claimed) { return loc; }
    var id, place := s.PcAt(w).job.id, AtWorker(w, Active);
    l := loc[id := place];
    WorkersJob(world, s, w, loc);
    assert l == loc;
    ReadFrame(world, s, w);
    WorkerCalmStep(world, s, w, loc, Step(world, s, Read(w)), place);
  }

  lemma StoreCalm(world: World, s: State, w: nat, loc: map<RawId, Place>) returns (l: map<RawId, Place>)
    requires Located(world, s, loc)
    ensures Located(world, Step(world, s, Store(w)), l)
  {
    if !(s.PcAt(w).Busy? && s.PcAt(w).phase.Derived?) || Refused(world, s, w) { return loc; }
    var id, place := s.PcAt(w).job.id, AtWorker(w, Active);
    l := loc[id := place];
    WorkersJob(world, s, w, loc);
    assert l == loc;
    StoreFrame(world, s, w);
    WorkerCalmStep(world, s, w, loc, Step(world, s, Store(w)), place);
  }

  lemma FinishCalm(world: World, s: State, w: nat, loc: map<RawId, Place>) returns (l: map<RawId, Place>)
    requires Located(world, s, loc)
    ensures Located(world, Step(world, s, Finish(w)), l)
  {
    if !InPhase(s, w, Stored) { return loc; }
    var id := s.PcAt(w).job.id;
    l := loc[id := IsDone];
    WorkersJob(world, s, w, loc);
    DoneAccount(world, s.tables.jobs, LogOf(s), loc, id, w);
    FinishFrame(world, s, w);
    WorkerCalmStep(world, s, w, loc, Step(world, s, Finish(w)), IsDone);
  }

  lemma ThrowCalm(world: World, s: State, w: nat, loc: map<RawId, Place>) returns (l: map<RawId, Place>)
    requires Located(world, s, loc) && MayThrow(world, s, w)
    ensures Located(world, Step(world, s, Throw(w)), l)
  {
    var id, place := s.PcAt(w).job.id, AtWorker(w, Active);
    l := loc[id := place];
    WorkersJob(world, s, w, loc);
    assert l == loc;
    ThrowFrame(world, s, w);
    WorkerCalmStep(world, s, w, loc, Step(world, s, Throw(w)), place);
  }

  lemma MarkDeadCalm(world: World, s: State, w: nat, loc: map<RawId, Place>) returns (l: map<RawId, Place>)
    requires Located(world, s, loc)
    ensures Located(world, Step(world, s, MarkDead(w)), l)
  {
    if !InPhase(s, w, Exhausted) { return loc; }
    var id := s.PcAt(w).job.id;
    l := loc[id := IsDead];
    WorkersJob(world, s, w, loc);
    DeadAccount(world, s.tables.jobs, LogOf(s), loc, id, w, s.tables.clock);
    MarkDeadFrame(world, s, w);
    WorkerCalmStep(world, s, w, loc, Step(world, s, MarkDead(w)), IsDead);
  }

  lemma ReturnCalm(world: World, s: State, w: nat, loc: map<RawId, Place>)
    requires Located(world, s, loc)
    ensures Located(world, Step(world, s, Return(w)), loc)
  {
    if InPhase(s, w, Finished) {
      WorkerRestsIf(s, w, loc);
      assert Step(world, s, Return(w)) == s.WithPc(w, Idle);
    }
  }

  lemma RequeueCalm(world: World, s: State, w: nat, loc: map<RawId, Place>)
    requires Located(world, s, loc)
    ensures Located(world, Step(world, s, Requeue(w)), loc)
  {
    if s.PcAt(w).Requeueing? {
      WorkerRestsIf(s, w, loc);
      assert Step(world, s, Requeue(w)) == s.WithPc(w, Idle);
    }
  }

  lemma WorkerRestsIf(s: State, w: nat, loc: map<RawId, Place>)
    requires WorkersAt(s.workers, loc)
    ensures !Working(s.PcAt(w)) ==> WorkersAt(s.workers[w := Worker(Idle, s.WorkerAt(w).rest)], loc)
    ensures !Working(s.PcAt(w)) ==> WorkersAt(s.workers[w := Worker(Requeueing([]), s.WorkerAt(w).rest)], loc)
  {
    if !Working(s.PcAt(w)) {
      WorkerRests(s.workers, loc, w, Worker(Idle, s.WorkerAt(w).rest));
      WorkerRests(s.workers, loc, w, Worker(Requeueing([]), s.WorkerAt(w).rest));
    }
  }

  lemma RecordFailureCalm(world: World, s: State, w: nat, loc: map<RawId, Place>) returns (l: map<RawId, Place>)
    requires Located(world, s, loc)
    ensures Located(world, Step(world, s, RecordFailure(w)), l)
  {
    if !InPhase(s, w, Thrown) {
      l := loc;
    } else if MayRetry(world, s, w) {
      l := RetryCalm(world, s, w, loc);
    } else {
      l := SpentCalm(world, s, w, loc);
    }
  }

  lemma SpentCalm(world: World, s: State, w: nat, loc: map<RawId, Place>) returns (l: map<RawId, Place>)
    requires Located(world, s, loc) && InPhase(s, w, Thrown) && !MayRetry(world, s, w)
    ensures Located(world, Step(world, s, RecordFailure(w)), l)
  {
    var id := s.PcAt(w).job.id;
    l := loc[id := AtWorker(w, Spent)];
    WorkersJob(world, s, w, loc);
    SpentAccount(world, s.tables.jobs, LogOf(s), loc, id, w, s.tables.clock);
    SpentFrame(world, s, w);
    WorkerCalmStep(world, s, w, loc, Step(world, s, RecordFailure(w)), AtWorker(w, Spent));
  }

  predicate MayRetry(world: World, s: State, w: nat) {
    InPhase(s, w, Thrown)
    && FailSql(s.tables.jobs, s.PcAt(w).job.id, s.tables.clock)[s.PcAt(w).job.id].attempts < world.maxAttempts
  }

  function RetryDelay(world: World, s: State, w: nat): nat
    requires MayRetry(world, s, w)
  {
    Backoff(world, FailSql(s.tables.jobs, s.PcAt(w).job.id, s.tables.clock)[s.PcAt(w).job.id].attempts)
  }

  lemma WorkersJob(world: World, s: State, w: nat, loc: map<RawId, Place>)
    requires Located(world, s, loc) && Working(s.PcAt(w))
    ensures s.PcAt(w).job.id in loc && loc[s.PcAt(w).job.id] == AtWorker(w, StageOf(s.PcAt(w).phase))
    ensures WorkerCalm(s.WorkerAt(w))
    ensures loc.Keys == s.tables.raws.Keys
    ensures AccountsOk(world, s.tables.jobs, LogOf(s), loc)
    ensures QueueAt(s.queue, loc) && WorkersAt(s.workers, loc) && TimersAt(s.timers, s.nextTimer, loc)
    ensures ProducersAt(s.producers, loc)
  {
  }

  /** What a failed delivery that may be retried knows about its message. */
  lemma RetryFacts(world: World, s: State, w: nat, loc: map<RawId, Place>)
    requires Located(world, s, loc) && MayRetry(world, s, w)
    ensures var job := s.PcAt(w).job;
      && Working(s.PcAt(w)) && job.id in loc && loc[job.id] == AtWorker(w, Active) && loc.Keys == s.tables.raws.Keys
      && FailSql(s.tables.jobs, job.id, s.tables.clock)[job.id].attempts >= 1
  {
    WorkersJob(world, s, w, loc);
  }

  lemma RetryCalm(world: World, s: State, w: nat, loc: map<RawId, Place>) returns (l: map<RawId, Place>)
    requires Located(world, s, loc) && MayRetry(world, s, w)
    ensures Located(world, Step(world, s, RecordFailure(w)), l)
  {
    var job, delay := s.PcAt(w).job, RetryDelay(world, s, w);
    RetryFacts(world, s, w, loc);
    RetryBooks(world, s, w, job, delay, loc);
    RetryPlaces(s, w, job, delay, loc);
    l := loc[job.id := InTimer(s.nextTimer)];
    RetryFrame(world, s, w, job, delay);
  }

  lemma RetryFrame(world: World, s: State, w: nat, job: Job, delay: nat)
    requires MayRetry(world, s, w) && job == s.PcAt(w).job && delay == RetryDelay(world, s, w)
    ensures var s' := Step(world, s, RecordFailure(w));
      && s'.queue == s.queue && s'.producers == s.producers && s'.nextTimer == s.nextTimer + 1
      && s'.tables == s.tables.(jobs := FailSql(s.tables.jobs, job.id, s.tables.clock))
      && s'.workers == s.workers[w := Worker(Idle, s.WorkerAt(w).rest)]
      && s'.timers == s.timers[s.nextTimer := Timer(w, job, s.tables.clock + delay)]
      && LogOf(s') == Log(s.history.claims, s.history.delays[job.id := Delays(s, job.id) + [delay]])
  {
  }

  lemma RetryBooks(world: World, s: State, w: nat, job: Job, delay: nat, loc: map<RawId, Place>)
    requires AccountsOk(world, s.tables.jobs, LogOf(s), loc) && job.id in loc && loc[job.id] == AtWorker(w, Active)
    requires var attempts := FailSql(s.tables.jobs, job.id, s.tables.clock)[job.id].attempts;
      1 <= attempts < world.maxAttempts && delay == Backoff(world, attempts)
    ensures AccountsOk(world, FailSql(s.tables.jobs, job.id, s.tables.clock),
      Log(s.history.claims, s.history.delays[job.id := Delays(s, job.id) + [delay]]),
        loc[job.id := InTimer(s.nextTimer)])
  {
    RetryAccount(world, s.tables.jobs, LogOf(s), loc, job.id, w, s.tables.clock, s.nextTimer);
    assert LogOf(s).(delays := s.history.delays[job.id := Delays(s, job.id) + [delay]])
        == Log(s.history.claims, s.history.delays[job.id := Delays(s, job.id) + [delay]]);
  }

  ghost predicate RetryPlaced(s: State, w: nat, job: Job, delay: nat, l: map<RawId, Place>) {
    && QueueAt(s.queue, l) && WorkersAt(s.workers[w := Worker(Idle, s.WorkerAt(w).rest)], l)
    && TimersAt(s.timers[s.nextTimer := Timer(w, job, s.tables.clock + delay)], s.nextTimer + 1, l)
      && ProducersAt(s.producers, l)
  }

  lemma RetryPlaces(s: State, w: nat, job: Job, delay: nat, loc: map<RawId, Place>)
    requires QueueAt(s.queue, loc) && WorkersAt(s.workers, loc) && TimersAt(s.timers, s.nextTimer, loc)
    requires ProducersAt(s.producers, loc)
    requires Working(s.PcAt(w)) && s.PcAt(w).job == job
    ensures RetryPlaced(s, w, job, delay, loc[job.id := InTimer(s.nextTimer)])
  {
    var place := InTimer(s.nextTimer);
    QueueSkips(s.queue, loc, job.id, place);
    ProducersSkip(s.producers, loc, job.id, place);
    WorkerChanges(s.workers, loc, w, Worker(Idle, s.WorkerAt(w).rest), job.id, place);
    TimerGains(s.timers, s.nextTimer, loc, Timer(w, job, s.tables.clock + delay));
  }

  lemma TimerGains(timers: map<nat, Timer>, next: nat, loc: map<RawId, Place>, timer: Timer)
    requires TimersAt(timers, next, loc) && timer.job.id in loc && !loc[timer.job.id].InTimer?
    ensures TimersAt(timers[next := timer], next + 1, loc[timer.job.id := InTimer(next)])
  {
  }

  lemma ProcessingIsAtWorker(world: World, jobs: Jobs, log: Log, workers: map<nat, Worker>, loc: map<RawId, Place>,
                             id: RawId)
    returns (w: nat)
    requires AccountsOk(world, jobs, log, loc) && WorkersAt(workers, loc)
    requires id in jobs && jobs[id].status == Processing
    ensures w in workers && workers[w].pc.Busy? && workers[w].pc.job.id == id && workers[w].pc.since.Some?
  {
    assert AccountOk(world, MeterOf(jobs, log, id), loc[id]);
    w := loc[id].w;
  }

  /** The reaper finds nothing in a calm run: every job in `processing` has a timely worker on it. */
  lemma ReapFindsNothing(world: World, s: State, loc: map<RawId, Place>, id: RawId)
    requires Located(world, s, loc) && Inv(world, s) && Timely(world, s)
    ensures !ReapHits(world, s.tables, id)
  {
    if id in s.tables.jobs && s.tables.jobs[id].status == Processing {
      var w := ProcessingIsAtWorker(world, s.tables.jobs, LogOf(s), s.workers, loc, id);
      assert WorkerOk(world, s.tables, s.workers[w]);
    }
  }

  /** Without a stale job the reaper changes nothing and re-arms nothing. */
  lemma IdleReap(world: World, t: Tables, order: seq<RawId>)
    requires ReapOrder(world, t, order)
    ensures (forall id :: id in t.jobs ==> !ReapHits(world, t, id)) ==>
      order == [] && ReapSql(world, t.jobs, t.clock) == t.jobs
  {
    if order != [] {
      assert order[0] in order && ReapHits(world, t, order[0]);
    } else if forall id :: id in t.jobs ==> !ReapHits(world, t, id) {
      forall id | id in t.jobs ensures ReapedRow(world, t.jobs[id], t.clock) == t.jobs[id] {
        assert !ReapHits(world, t, id);
      }
    }
  }

  lemma ReapCalm(world: World, s: State, w: nat, order: seq<RawId>, loc: map<RawId, Place>)
    requires Located(world, s, loc) && Inv(world, s) && Timely(world, s)
    ensures Located(world, Step(world, s, Reap(w, order)), loc)
  {
    if DoReap(world, s, w, order) != s {
      forall id | id in s.tables.jobs ensures !ReapHits(world, s.tables, id) {
        ReapFindsNothing(world, s, loc, id);
      }
      IdleReap(world, s.tables, order);
      WorkerRestsIf(s, w, loc);
    }
  }

  lemma TickCalm(world: World, s: State, ms: nat, loc: map<RawId, Place>)
    requires Located(world, s, loc)
    ensures Located(world, Step(world, s, Tick(ms)), loc)
  {
  }

  lemma CalmStep(world: World, s: State, e: Event, loc: map<RawId, Place>) returns (l: map<RawId, Place>)
    requires Located(world, s, loc) && Inv(world, s) && Timely(world, s) && CalmEvent(world, s, e)
    requires world.maxAttempts >= 1
    ensures Located(world, Step(world, s, e), l)
  {
    l := loc;
    match e
    case Insert(_, _, _, _, _, _, _, _, _) => l := InsertCalm(world, s, e, loc);
    case Offer(p) => l := OfferCalm(world, s, p, loc);
    case Dequeue(w) => l := DequeueCalm(world, s, w, loc);
    case Fire(k) => l := FireCalm(world, s, k, loc);
    case Reap(w, order) => ReapCalm(world, s, w, order, loc);
    case Requeue(w) => RequeueCalm(world, s, w, loc);
    case Claim(w) => l := ClaimCalm(world, s, w, loc);
    case Read(w) => l := ReadCalm(world, s, w, loc);
    case Store(w) => l := StoreCalm(world, s, w, loc);
    case Finish(w) => l := FinishCalm(world, s, w, loc);
    case Return(w) => ReturnCalm(world, s, w, loc);
    case Throw(w) => l := ThrowCalm(world, s, w, loc);
    case RecordFailure(w) => l := RecordFailureCalm(world, s, w, loc);
    case MarkDead(w) => l := MarkDeadCalm(world, s, w, loc);
    case Tick(ms) => TickCalm(world, s, ms, loc);
  }

  lemma {:induction false} CalmRun(world: World, run: seq<Event>) returns (loc: map<RawId, Place>)
    requires Calm(world, run) && world.maxAttempts >= 1
    ensures Located(world, Run(world, run), loc)
  {
    if run == [] { return map[]; }
    var front := run[..|run| - 1];
    var before := CalmRun(world, front);
    RunKeeps(world, front);
    loc := CalmStep(world, Run(world, front), run[|run| - 1], before);
  }

  // ---------------------------------------------------------------- theorems

  function InQueueCount(s: State, id: RawId): nat {
    |set i | 0 <= i < |s.queue| && s.queue[i].id == id|
  }

  function AtWorkerCount(s: State, id: RawId): nat {
    |set w | w in s.workers && Working(s.workers[w].pc) && s.workers[w].pc.job.id == id|
  }

  function InTimerCount(s: State, id: RawId): nat {
    |set k | k in s.timers && s.timers[k].job.id == id|
  }

  function AtProducerCount(s: State, id: RawId): nat {
    |set p | p in s.producers && s.producers[p].id == id|
  }

  /** Copies of a message in the whole system; `done` and `dead` count as places. */
  function Copies(s: State, id: RawId): nat {
    InQueueCount(s, id) + AtWorkerCount(s, id) + InTimerCount(s, id) + AtProducerCount(s, id)
    + (if HasStatus(s, id, Done) then 1 else 0) + (if HasStatus(s, id, Dead) then 1 else 0)
  }

  lemma QueueCounts(s: State, loc: map<RawId, Place>, id: RawId)
    requires QueueAt(s.queue, loc) && id in loc
    ensures InQueueCount(s, id) == if loc[id] == InQueue then 1 else 0
  {
    var found := set i | 0 <= i < |s.queue| && s.queue[i].id == id;
    if loc[id] == InQueue {
      var i :| 0 <= i < |s.queue| && s.queue[i].id == id;
      assert found == {i};
    } else {
      assert found == {};
    }
  }

  lemma WorkerCounts(s: State, loc: map<RawId, Place>, id: RawId)
    requires WorkersAt(s.workers, loc) && id in loc
    ensures AtWorkerCount(s, id) == if loc[id].AtWorker? then 1 else 0
  {
    var found := set w | w in s.workers && Working(s.workers[w].pc) && s.workers[w].pc.job.id == id;
    assert found == if loc[id].AtWorker? then {loc[id].w} else {};
  }

  lemma TimerCounts(s: State, loc: map<RawId, Place>, id: RawId)
    requires TimersAt(s.timers, s.nextTimer, loc) && id in loc
    ensures InTimerCount(s, id) == if loc[id].InTimer? then 1 else 0
  {
    var found := set k | k in s.timers && s.timers[k].job.id == id;
    assert found == if loc[id].InTimer? then {loc[id].k} else {};
  }

  lemma ProducerCounts(s: State, loc: map<RawId, Place>, id: RawId)
    requires ProducersAt(s.producers, loc) && id in loc
    ensures AtProducerCount(s, id) == if loc[id].AtProducer? then 1 else 0
  {
    var found := set p | p in s.producers && s.producers[p].id == id;
    assert found == if loc[id].AtProducer? then {loc[id].p} else {};
  }

  /** The place of a message in a calm run, as its copies and its account show it. */
  lemma PlaceOf(world: World, run: seq<Event>, id: RawId) returns (place: Place)
    requires Calm(world, run) && world.maxAttempts >= 1
    requires id in Run(world, run).tables.raws
    ensures var s := Run(world, run);
      && AccountOk(world, MeterOf(s.tables.jobs, LogOf(s), id), place)
      && InQueueCount(s, id) == (if place == InQueue then 1 else 0)
      && AtWorkerCount(s, id) == (if place.AtWorker? then 1 else 0)
      && InTimerCount(s, id) == (if place.InTimer? then 1 else 0)
      && AtProducerCount(s, id) == (if place.AtProducer? then 1 else 0)
  {
    var s := Run(world, run);
    var loc := CalmRun(world, run);
    QueueCounts(s, loc, id);
    WorkerCounts(s, loc, id);
    TimerCounts(s, loc, id);
    ProducerCounts(s, loc, id);
    place := loc[id];
  }

  /**
   Conservation: in a calm run every stored message is in exactly one of the producer's hands,
   the queue, one worker, one retry timer, done and dead; nothing is lost and nothing duplicated.
   */
  lemma ExactlyOneCopy(world: World, run: seq<Event>, id: RawId)
    requires Calm(world, run) && world.maxAttempts >= 1
    requires id in Run(world, run).tables.raws
    ensures Copies(Run(world, run), id) == 1
  {
    var place := PlaceOf(world, run, id);
  }

  /** At the end of every calm run whose workers are in time, the reaper has nothing to do. */
  lemma ReaperIsIdle(world: World, run: seq<Event>, id: RawId)
    requires Calm(world, run) && Timely(world, Run(world, run)) && world.maxAttempts >= 1
    ensures !ReapHits(world, Run(world, run).tables, id)
  {
    var loc := CalmRun(world, run);
    RunKeeps(world, run);
    ReapFindsNothing(world, Run(world, run), loc, id);
  }

  /** ceil(MAX_ATTEMPTS / 2). */
  function LastDelivery(world: World): nat {
    (world.maxAttempts + 1) / 2
  }

  /**
   The retry count: every delivery costs two attempts, so a message is dead exactly at its
   ceil(MAX_ATTEMPTS/2)-th delivery, was retried on the fixed schedule before, and no message
   is delivered more often; one that is due again, in a timer or in the queue, has a delivery left.
   */
  lemma RetriesAreExact(world: World, run: seq<Event>, id: RawId)
    requires Calm(world, run) && world.maxAttempts >= 1
    requires id in Run(world, run).tables.raws
    ensures var s := Run(world, run);
      && Claims(s, id) <= LastDelivery(world)
      && (forall i :: 0 <= i < |Delays(s, id)| ==> Delays(s, id)[i] == Backoff(world, 2 * (i + 1)))
      && (HasStatus(s, id, Dead) ==>
            Claims(s, id) == LastDelivery(world) && |Delays(s, id)| == LastDelivery(world) - 1)
      && (InTimerCount(s, id) == 1 || InQueueCount(s, id) == 1 ==>
            Claims(s, id) < LastDelivery(world) && |Delays(s, id)| == Claims(s, id))
      && (HasStatus(s, id, Done) ==> Claims(s, id) >= 1)
  {
    var place := PlaceOf(world, run, id);
    AccountCounts(world, MeterOf(Run(world, run).tables.jobs, LogOf(Run(world, run)), id), place);
  }

  lemma AccountCounts(world: World, m: Meter, place: Place)
    requires AccountOk(world, m, place)
    ensures m.deliveries <= LastDelivery(world)
    ensures m.row.Some? && m.row.value.status == Dead ==>
      m.deliveries == LastDelivery(world) && m.delays == Schedule(world, LastDelivery(world) - 1)
    ensures place.InTimer? || place.InQueue? ==>
      m.deliveries < LastDelivery(world) && m.delays == Schedule(world, m.deliveries)
    ensures m.row.Some? && m.row.value.status == Done ==> m.deliveries >= 1
  {
  }

  lemma {:induction false} PowerGrows(i: nat, j: nat)
    requires i <= j
    ensures 1 <= Power2(i) <= Power2(j)
  {
    if j > i { PowerGrows(i, j - 1); }
    else if i > 0 { PowerGrows(i - 1, i - 1); }
  }

  /** The delays: the configured one at first, then twice the one before, up to fifteen minutes. */
  lemma BackoffDoubles(world: World, n: nat)
    requires n >= 1
    ensures Backoff(world, 1) == if world.retryMs < 900_000 then world.retryMs else 900_000
    ensures Backoff(world, n + 1) == if 2 * Backoff(world, n) < 900_000 then 2 * Backoff(world, n) else 900_000
  {
    assert Power2(n) == 2 * Power2(n - 1) && Power2(0) == 1;
    assert world.retryMs * Power2(n) == 2 * (world.retryMs * Power2(n - 1));
  }

  /** With the settings the worker comes with, a first failing delivery waits two minutes, a second one eight. */
  lemma DefaultDelays(world: World)
    requires world.retryMs == 60_000
    ensures Backoff(world, 2) == 120_000 && Backoff(world, 4) == 480_000
  {
    BackoffDoubles(world, 1);
    BackoffDoubles(world, 2);
    BackoffDoubles(world, 3);
  }

  /** Successive delays never shrink and never exceed fifteen minutes. */
  lemma BackoffGrows(world: World, i: nat, j: nat)
    requires 1 <= i <= j
    ensures Backoff(world, i) <= Backoff(world, j) <= BACKOFF_CAP
  {
    PowerGrows(i - 1, j - 1);
    MultiplyMonotone(world.retryMs, Power2(i - 1), Power2(j - 1));
  }

  lemma MultiplyMonotone(k: nat, a: nat, b: nat)
    requires a <= b
    ensures k * a <= k * b
  {
  }

  lemma ScheduleGrows(world: World, n: nat)
    ensures forall i, j :: 0 <= i <= j < n ==> Schedule(world, n)[i] <= Schedule(world, n)[j] <= BACKOFF_CAP
  {
    forall i, j | 0 <= i <= j < n
      ensures Schedule(world, n)[i] <= Schedule(world, n)[j] <= BACKOFF_CAP
    {
      BackoffGrows(world, 2 * (i + 1), 2 * (j + 1));
    }
  }
}
