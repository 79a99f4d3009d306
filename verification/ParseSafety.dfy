/**
 Safety of the parse pipeline over every run: any number of workers, any interleaving,
 crashes, duplicate deliveries, retries, reaps, recoveries and batch passes.
 */
module ParseSafety {
  import opened Values
  import opened Reprocess
  import opened ParseProtocol

  // ---------------------------------------------------------------- what each item must satisfy

  /** The derivation of a raw row after some number of batch passes over it. */
  function Passes(world: World, raw: Raw, n: nat): Columns {
    if n == 0 then world.derive(raw.text, raw.sender) else world.sweep(Passes(world, raw, n - 1), raw.text)
  }

  /** Content that a listing of this raw row can have. */
  ghost predicate Derivable(world: World, raw: Raw, columns: Columns) {
    exists n: nat :: columns == Passes(world, raw, n)
  }

  lemma DerivationIsDerivable(world: World, raw: Raw)
    ensures Derivable(world, raw, world.derive(raw.text, raw.sender))
  {
    assert Passes(world, raw, 0) == world.derive(raw.text, raw.sender);
  }

  lemma SweptIsDerivable(world: World, raw: Raw, columns: Columns)
    requires Derivable(world, raw, columns)
    ensures Derivable(world, raw, world.sweep(columns, raw.text))
  {
    var n: nat :| columns == Passes(world, raw, n);
    assert Passes(world, raw, n + 1) == world.sweep(columns, raw.text);
  }

  /** A payload mirrors its raw row; its group name is absent, the chat's or the monitored group's. */
  predicate PayloadOk(world: World, t: Tables, j: Job) {
    && j.id in t.raws && j.id in t.chats
    && (j.text.Some? ==> j.text.value == t.raws[j.id].text)
    && (j.group == None || j.group == t.chats[j.id] || j.group == GroupOf(world, t.raws[j.id]))
  }

  /** The group names a listing of this raw row can have: the monitored name, else whatever a payload carried. */
  predicate GroupPossible(world: World, raw: Raw, chat: Option<string>, group: Option<string>) {
    var mine := GroupOf(world, raw);
    group == Or(mine, None) || group == Or(mine, chat) || group == Or(mine, mine)
  }

  ghost predicate ContentOk(world: World, t: Tables, id: RawId, group: Option<string>, columns: Columns) {
    && id in t.raws && id in t.chats
    && Derivable(world, t.raws[id], columns)
    && GroupPossible(world, t.raws[id], t.chats[id], group)
  }

  /** A listing is the derivation of its raw row, possibly after batch passes. */
  ghost predicate ListingOk(world: World, t: Tables, id: RawId, l: Listing) {
    && ContentOk(world, t, id, l.group, l.columns)
    && l.id == id && l.user == t.raws[id].user && l.waGroup == t.raws[id].waGroup && l.listed == t.raws[id].received
  }

  /** A worker that has claimed a job finds it in the ledger, stamped no earlier than its claim. */
  predicate ClaimHeld(t: Tables, pc: Pc) {
    pc.Busy? && pc.since.Some? ==> pc.job.id in t.jobs && pc.since.value <= t.jobs[pc.job.id].Stamp()
  }

  ghost predicate WorkerOk(world: World, t: Tables, worker: Worker) {
    && (forall i :: 0 <= i < |worker.rest| ==> worker.rest[i] in t.raws)
    && (worker.pc.Busy? ==>
          && PayloadOk(world, t, worker.pc.job)
          && (worker.pc.phase.Derived? ==>
                && ListingOk(world, t, worker.pc.job.id, worker.pc.phase.listing)
                && worker.pc.phase.listing.columns == Passes(world, t.raws[worker.pc.job.id], 0))
          && (worker.pc.phase.Stored? ==> worker.pc.job.id in t.listings)
          && (worker.pc.phase.Claimed? || worker.pc.phase.Derived? || worker.pc.phase.Stored? ==> worker.pc.since.Some?)
          && ClaimHeld(t, worker.pc))
  }

  /** The tables on their own. */
  ghost predicate TablesOk(world: World, t: Tables) {
    && t.chats.Keys == t.raws.Keys
    && (forall a, b ::
          a in t.raws && b in t.raws && t.raws[a].user == t.raws[b].user && t.raws[a].message == t.raws[b].message ==>
            a == b)
    && (forall id :: id in t.jobs ==> id in t.raws && t.jobs[id].Stamp() <= t.clock)
    && (forall id :: id in t.listings ==> ListingOk(world, t, id, t.listings[id]))
    && (forall id :: id in t.jobs && t.jobs[id].status == Done ==> id in t.listings)
  }

  /** A claim that was reaped is over: the row moved on, or carries a higher attempt number. */
  predicate ReapedOk(t: Tables, reaped: set<(RawId, nat)>) {
    forall r :: r in reaped ==>
      r.0 in t.jobs && (t.jobs[r.0].attempts > r.1 || (t.jobs[r.0].attempts == r.1 && t.jobs[r.0].status != Processing))
  }

  /** The producer offers each row to the queue at most once. */
  predicate OffersOk(t: Tables, producers: map<nat, Job>, offers: seq<RawId>) {
    && Distinct(offers)
    && (forall i :: 0 <= i < |offers| ==> offers[i] in t.raws)
    && (forall p :: p in producers ==> producers[p].id !in offers)
    && (forall p, q :: p in producers && q in producers && producers[p].id == producers[q].id ==> p == q)
  }

  predicate QueueOk(world: World, t: Tables, queue: seq<Job>) {
    forall i :: 0 <= i < |queue| ==> PayloadOk(world, t, queue[i])
  }

  predicate TimersOk(world: World, t: Tables, timers: map<nat, Timer>) {
    forall k :: k in timers ==> PayloadOk(world, t, timers[k].job)
  }

  predicate ProducersOk(world: World, t: Tables, producers: map<nat, Job>) {
    forall p :: p in producers ==> PayloadOk(world, t, producers[p])
  }

  ghost predicate WorkersOk(world: World, t: Tables, workers: map<nat, Worker>) {
    forall w :: w in workers ==> WorkerOk(world, t, workers[w])
  }

  ghost predicate SweepsOk(world: World, t: Tables, sweeps: map<nat, Sweep>) {
    forall k :: k in sweeps ==> ContentOk(world, t, sweeps[k].id, sweeps[k].group, sweeps[k].columns)
  }

  ghost predicate Inv(world: World, s: State) {
    && TablesOk(world, s.tables)
    && QueueOk(world, s.tables, s.queue)
    && TimersOk(world, s.tables, s.timers)
    && ProducersOk(world, s.tables, s.producers)
    && WorkersOk(world, s.tables, s.workers)
    && SweepsOk(world, s.tables, s.sweeps)
    && ReapedOk(s.tables, s.history.reaped)
    && OffersOk(s.tables, s.producers, s.history.offers)
  }

  // ---------------------------------------------------------------- how the tables evolve

  predicate JobAdvances(before: Ledger, after: Ledger) {
    && before.Stamp() <= after.Stamp()
    && (|| before.attempts < after.attempts
        || (before.attempts == after.attempts && (before.status != Processing ==> after.status != Processing)))
  }

  predicate JobsAdvance(before: Jobs, after: Jobs) {
    forall id :: id in before ==> id in after && JobAdvances(before[id], after[id])
  }

  /** Raw rows are immutable, listings stay with their identity columns, jobs only move on. */
  predicate Grows(t: Tables, u: Tables) {
    && t.clock <= u.clock
    && (forall id :: id in t.raws ==> id in u.raws && u.raws[id] == t.raws[id])
    && (forall id :: id in t.chats ==> id in u.chats && u.chats[id] == t.chats[id])
    && (forall id :: id in t.listings ==>
          && id in u.listings
          && u.listings[id].id == t.listings[id].id && u.listings[id].user == t.listings[id].user
          && u.listings[id].listed == t.listings[id].listed)
    && JobsAdvance(t.jobs, u.jobs)
  }

  lemma WorkerGrows(world: World, t: Tables, u: Tables, worker: Worker)
    requires Grows(t, u) && WorkerOk(world, t, worker)
    ensures WorkerOk(world, u, worker)
  {
  }

  lemma ListingsSurvive(world: World, t: Tables, u: Tables)
    requires Grows(t, u) && u.listings == t.listings
    requires forall id :: id in t.listings ==> ListingOk(world, t, id, t.listings[id])
    ensures forall id :: id in u.listings ==> ListingOk(world, u, id, u.listings[id])
  {
    forall id | id in u.listings ensures ListingOk(world, u, id, u.listings[id]) {
      assert ListingOk(world, t, id, t.listings[id]);
    }
  }

  lemma NetGrows(world: World, t: Tables, u: Tables, s: State)
    requires Grows(t, u)
    ensures QueueOk(world, t, s.queue) ==> QueueOk(world, u, s.queue)
    ensures TimersOk(world, t, s.timers) ==> TimersOk(world, u, s.timers)
    ensures ProducersOk(world, t, s.producers) ==> ProducersOk(world, u, s.producers)
    ensures SweepsOk(world, t, s.sweeps) ==> SweepsOk(world, u, s.sweeps)
  {
  }

  lemma WorkersGrow(world: World, t: Tables, u: Tables, workers: map<nat, Worker>)
    requires Grows(t, u) && WorkersOk(world, t, workers)
    ensures WorkersOk(world, u, workers)
  {
    forall w | w in workers ensures WorkerOk(world, u, workers[w]) {
      WorkerGrows(world, t, u, workers[w]);
    }
  }

  lemma LogsGrow(t: Tables, u: Tables, s: State)
    requires Grows(t, u)
    ensures ReapedOk(t, s.history.reaped) ==> ReapedOk(u, s.history.reaped)
    ensures OffersOk(t, s.producers, s.history.offers) ==> OffersOk(u, s.producers, s.history.offers)
  {
  }

  /** Replacing the tables by grown ones keeps everything else in order. */
  lemma TablesMove(world: World, s: State, u: Tables)
    requires Inv(world, s) && Grows(s.tables, u) && TablesOk(world, u)
    ensures Inv(world, s.(tables := u))
  {
    NetGrows(world, s.tables, u, s);
    WorkersGrow(world, s.tables, u, s.workers);
    LogsGrow(s.tables, u, s);
  }

  lemma JobsTables(world: World, t: Tables, jobs: Jobs)
    requires TablesOk(world, t) && JobsAdvance(t.jobs, jobs)
    requires forall id :: id in jobs ==>
      id in t.raws && jobs[id].Stamp() <= t.clock && (jobs[id].status == Done ==> id in t.listings)
    ensures Grows(t, t.(jobs := jobs)) && TablesOk(world, t.(jobs := jobs))
  {
    ListingsSurvive(world, t, t.(jobs := jobs));
  }

  lemma JobsMove(world: World, s: State, jobs: Jobs)
    requires Inv(world, s) && JobsAdvance(s.tables.jobs, jobs)
    requires forall id :: id in jobs ==>
      id in s.tables.raws && jobs[id].Stamp() <= s.tables.clock && (jobs[id].status == Done ==> id in s.tables.listings)
    ensures Inv(world, s.WithJobs(jobs)) && Grows(s.tables, s.WithJobs(jobs).tables)
  {
    JobsTables(world, s.tables, jobs);
    TablesMove(world, s, s.tables.(jobs := jobs));
  }

  lemma WorkerMoves(world: World, s: State, w: nat, worker: Worker)
    requires Inv(world, s) && WorkerOk(world, s.tables, worker)
    ensures Inv(world, s.WithWorker(w, worker))
  {
  }

  lemma QueueMoves(world: World, s: State, queue: seq<Job>)
    requires Inv(world, s) && QueueOk(world, s.tables, queue)
    ensures Inv(world, s.(queue := queue))
  {
  }

  lemma ClaimsMove(world: World, s: State, claims: map<RawId, nat>, delays: map<RawId, seq<nat>>)
    requires Inv(world, s)
    ensures Inv(world, s.(history := s.history.(claims := claims, delays := delays)))
  {
  }

  lemma DelaysMove(world: World, s: State, delays: map<RawId, seq<nat>>)
    requires Inv(world, s)
    ensures Inv(world, s.(history := s.history.(delays := delays)))
  {
  }

  /** A worker at rest is always in order. */
  lemma IdleOk(world: World, s: State, w: nat)
    requires Inv(world, s)
    ensures WorkerOk(world, s.tables, s.WorkerAt(w))
    ensures WorkerOk(world, s.tables, Worker(Idle, s.WorkerAt(w).rest))
  {
  }

  lemma RestMoves(world: World, s: State, w: nat)
    requires Inv(world, s)
    ensures Inv(world, s.WithPc(w, Idle))
  {
    IdleOk(world, s, w);
    WorkerMoves(world, s, w, Worker(Idle, s.WorkerAt(w).rest));
  }

  // ---------------------------------------------------------------- every event keeps the invariant

  lemma InsertKeeps(world: World, s: State, e: Event)
    requires Inv(world, s) && e.Insert?
    ensures Inv(world, Step(world, s, e))
    ensures Grows(s.tables, Step(world, s, e).tables)
  {
    if DoInsert(s, e) != s {
      var raw := Raw(e.user, e.message, e.waGroup, e.text.GetOr(""), e.sender, e.received);
      var u := InsertedTables(s.tables, e.id, raw, e.chat);
      InsertedTablesOk(world, s.tables, e.id, raw, e.chat);
      TablesMove(world, s, u);
      ProducerMoves(world, s.(tables := u), e.p, Job(e.id, e.text, e.chat));
    }
  }

  function InsertedTables(t: Tables, id: RawId, raw: Raw, chat: Option<string>): Tables {
    t.(raws := t.raws[id := raw], chats := t.chats[id := chat])
  }

  /** A row with a fresh id and a fresh key leaves every other row as it was. */
  lemma InsertedTablesOk(world: World, t: Tables, id: RawId, raw: Raw, chat: Option<string>)
    requires TablesOk(world, t) && id !in t.raws && !KeyTaken(t.raws, raw.user, raw.message)
    ensures var u := InsertedTables(t, id, raw, chat); TablesOk(world, u) && Grows(t, u)
  {
    var u := InsertedTables(t, id, raw, chat);
    assert Grows(t, u);
    ListingsSurvive(world, t, u);
  }

  lemma ProducerMoves(world: World, s: State, p: nat, job: Job)
    requires Inv(world, s) && PayloadOk(world, s.tables, job) && p !in s.producers
    requires job.id !in s.history.offers && forall q :: q in s.producers ==> s.producers[q].id != job.id
    ensures Inv(world, s.(producers := s.producers[p := job]))
  {
  }

  lemma OfferedMoves(world: World, s: State, p: nat)
    requires Inv(world, s) && p in s.producers
    ensures Inv(world,
      s.(producers := s.producers - {p}, history := s.history.(offers := s.history.offers + [s.producers[p].id])))
  {
  }

  lemma OfferKeeps(world: World, s: State, p: nat)
    requires Inv(world, s)
    ensures Inv(world, Step(world, s, Offer(p)))
    ensures Grows(s.tables, Step(world, s, Offer(p)).tables)
  {
    if p in s.producers {
      PushMoves(world, s, s.producers[p]);
      OfferedMoves(world, s.Pushed(s.producers[p]), p);
    }
  }

  lemma DequeueKeeps(world: World, s: State, w: nat)
    requires Inv(world, s)
    ensures Inv(world, Step(world, s, Dequeue(w)))
    ensures Grows(s.tables, Step(world, s, Dequeue(w)).tables)
  {
    if DoDequeue(s, w) != s {
      var n := |s.queue| - 1;
      IdleOk(world, s, w);
      QueueMoves(world, s, s.queue[..n]);
      WorkerMoves(world, s.(queue := s.queue[..n]), w,
        Worker(Busy(s.queue[n], false, Fetched, None), s.WorkerAt(w).rest));
    }
  }

  lemma ClaimMoves(world: World, s: State, id: RawId)
    requires Inv(world, s) && id in s.tables.raws
    ensures var next := s.WithJobs(ClaimSql(s.tables.jobs, id, s.tables.clock));
      Inv(world, next) && Grows(s.tables, next.tables)
  {
    JobsMove(world, s, ClaimSql(s.tables.jobs, id, s.tables.clock));
  }

  lemma ClaimKeeps(world: World, s: State, w: nat)
    requires Inv(world, s)
    ensures Inv(world, Step(world, s, Claim(w)))
    ensures Grows(s.tables, Step(world, s, Claim(w)).tables)
  {
    if InPhase(s, w, Fetched) {
      var id, now := s.PcAt(w).job.id, s.tables.clock;
      IdleOk(world, s, w);
      ClaimMoves(world, s, id);
      var s1 := s.WithJobs(ClaimSql(s.tables.jobs, id, now));
      ClaimsMove(world, s1, s.history.claims[id := Claims(s, id) + 1], s.history.delays);
      var s2 := s1.(history := s.history.(claims := s.history.claims[id := Claims(s, id) + 1]));
      IdleOk(world, s2, w);
      WorkerMoves(world, s2, w, Worker(s.PcAt(w).(phase := Claimed, since := Some(now)), s.WorkerAt(w).rest));
    }
  }

  lemma ReadKeeps(world: World, s: State, w: nat)
    requires Inv(world, s)
    ensures Inv(world, Step(world, s, Read(w)))
    ensures Grows(s.tables, Step(world, s, Read(w)).tables)
  {
    if InPhase(s, w, Claimed) {
      IdleOk(world, s, w);
      var job := s.PcAt(w).job;
      var l := DerivedListing(world, s.tables.raws[job.id], job);
      DerivationIsDerivable(world, s.tables.raws[job.id]);
      assert ListingOk(world, s.tables, job.id, l);
      WorkerMoves(world, s, w, Worker(s.PcAt(w).(phase := Derived(l)), s.WorkerAt(w).rest));
    }
  }

  lemma ListingTables(world: World, t: Tables, listings: Listings)
    requires TablesOk(world, t)
    requires forall id :: id in listings ==> ListingOk(world, t, id, listings[id])
    requires t.listings.Keys <= listings.Keys
    ensures TablesOk(world, t.(listings := listings)) && Grows(t, t.(listings := listings))
  {
    var u := t.(listings := listings);
    forall id | id in t.listings
      ensures id in listings && listings[id].id == t.listings[id].id
      ensures listings[id].user == t.listings[id].user && listings[id].listed == t.listings[id].listed
    {
      assert ListingOk(world, t, id, t.listings[id]) && ListingOk(world, t, id, listings[id]);
    }
    forall id | id in u.listings ensures ListingOk(world, u, id, u.listings[id]) {
      assert ListingOk(world, t, id, u.listings[id]);
    }
  }

  lemma ListingMoves(world: World, s: State, listings: Listings)
    requires Inv(world, s)
    requires forall id :: id in listings ==> ListingOk(world, s.tables, id, listings[id])
    requires s.tables.listings.Keys <= listings.Keys
    ensures Inv(world, s.WithListings(listings)) && Grows(s.tables, s.WithListings(listings).tables)
  {
    ListingTables(world, s.tables, listings);
    TablesMove(world, s, s.tables.(listings := listings));
  }

  lemma StoreKeeps(world: World, s: State, w: nat)
    requires Inv(world, s)
    ensures Inv(world, Step(world, s, Store(w)))
    ensures Grows(s.tables, Step(world, s, Store(w)).tables)
  {
    if s.PcAt(w).Busy? && s.PcAt(w).phase.Derived? && !Refused(world, s, w) {
      IdleOk(world, s, w);
      var listings := UpsertSql(s.tables.listings, s.PcAt(w).phase.listing);
      ListingMoves(world, s, listings);
      var s1 := s.WithListings(listings);
      IdleOk(world, s1, w);
      WorkerMoves(world, s1, w, Worker(s.PcAt(w).(phase := Stored), s.WorkerAt(w).rest));
    }
  }

  lemma DoneMoves(world: World, s: State, id: RawId)
    requires Inv(world, s) && id in s.tables.listings
    ensures var next := s.WithJobs(DoneSql(s.tables.jobs, id)); Inv(world, next) && Grows(s.tables, next.tables)
  {
    JobsMove(world, s, DoneSql(s.tables.jobs, id));
  }

  lemma FinishKeeps(world: World, s: State, w: nat)
    requires Inv(world, s)
    ensures Inv(world, Step(world, s, Finish(w)))
    ensures Grows(s.tables, Step(world, s, Finish(w)).tables)
  {
    if InPhase(s, w, Stored) {
      var id := s.PcAt(w).job.id;
      IdleOk(world, s, w);
      DoneMoves(world, s, id);
      PhaseMoves(world, s.WithJobs(DoneSql(s.tables.jobs, id)), w, s.PcAt(w), Finished);
    }
  }

  lemma ReturnKeeps(world: World, s: State, w: nat)
    requires Inv(world, s)
    ensures Inv(world, Step(world, s, Return(w)))
    ensures Grows(s.tables, Step(world, s, Return(w)).tables)
  {
    if InPhase(s, w, Finished) { RestMoves(world, s, w); }
  }

  /** Moving on to a phase that promises nothing about the tables. */
  lemma PhaseMoves(world: World, s: State, w: nat, pc: Pc, phase: Phase)
    requires Inv(world, s) && pc == s.PcAt(w) && pc.Busy?
    requires phase.Finished? || phase.Exhausted? || phase.Thrown?
    ensures Inv(world, s.WithPc(w, pc.(phase := phase)))
  {
    IdleOk(world, s, w);
    WorkerMoves(world, s, w, Worker(pc.(phase := phase), s.WorkerAt(w).rest));
  }

  lemma ThrowKeeps(world: World, s: State, w: nat)
    requires Inv(world, s)
    ensures Inv(world, Step(world, s, Throw(w)))
    ensures Grows(s.tables, Step(world, s, Throw(w)).tables)
  {
    if DoThrow(s, w) != s {
      if s.PcAt(w).direct { RestMoves(world, s, w); } else { PhaseMoves(world, s, w, s.PcAt(w), Thrown); }
    }
  }

  lemma RecordFailureKeeps(world: World, s: State, w: nat)
    requires Inv(world, s)
    ensures Inv(world, Step(world, s, RecordFailure(w)))
    ensures Grows(s.tables, Step(world, s, RecordFailure(w)).tables)
  {
    if InPhase(s, w, Thrown) {
      ThrownPayload(world, s, w);
      FailMoves(world, s, s.PcAt(w).job.id);
      RecordedKeeps(world, s, w, s.WithJobs(FailSql(s.tables.jobs, s.PcAt(w).job.id, s.tables.clock)));
    }
  }

  /** After the failure is recorded: the job is given up, or scheduled again. */
  lemma RecordedKeeps(world: World, s: State, w: nat, recorded: State)
    requires InPhase(s, w, Thrown) && recorded == s.WithJobs(FailSql(s.tables.jobs, s.PcAt(w).job.id, s.tables.clock))
    requires Inv(world, recorded) && PayloadOk(world, recorded.tables, s.PcAt(w).job)
    ensures Inv(world, DoRecordFailure(world, s, w)) && DoRecordFailure(world, s, w).tables == recorded.tables
  {
    var pc := s.PcAt(w);
    if recorded.tables.jobs[pc.job.id].attempts >= world.maxAttempts {
      PhaseMoves(world, recorded, w, pc, Exhausted);
    } else {
      RetryKeeps(world, recorded, w, pc.job, Backoff(world, recorded.tables.jobs[pc.job.id].attempts));
    }
  }

  lemma ThrownPayload(world: World, s: State, w: nat)
    requires Inv(world, s) && s.PcAt(w).Busy?
    ensures s.PcAt(w).job.id in s.tables.raws
    ensures PayloadOk(world, s.WithJobs(FailSql(s.tables.jobs, s.PcAt(w).job.id, s.tables.clock)).tables, s.PcAt(w).job)
  {
    IdleOk(world, s, w);
  }

  lemma FailMoves(world: World, s: State, id: RawId)
    requires Inv(world, s) && id in s.tables.raws
    ensures var next := s.WithJobs(FailSql(s.tables.jobs, id, s.tables.clock));
      Inv(world, next) && Grows(s.tables, next.tables)
  {
    JobsMove(world, s, FailSql(s.tables.jobs, id, s.tables.clock));
  }

  lemma TimerMoves(world: World, s: State, timer: Timer)
    requires Inv(world, s) && PayloadOk(world, s.tables, timer.job)
    ensures Inv(world, s.(timers := s.timers[s.nextTimer := timer], nextTimer := s.nextTimer + 1))
  {
  }

  lemma WithTimerKeeps(world: World, s: State, w: nat, job: Job, delay: nat)
    requires Inv(world, s) && PayloadOk(world, s.tables, job)
    ensures Inv(world, WithTimer(s, w, job, delay))
  {
    var timer := Timer(w, job, s.tables.clock + delay);
    TimerMoves(world, s, timer);
    DelaysMove(world, s.(timers := s.timers[s.nextTimer := timer], nextTimer := s.nextTimer + 1),
      s.history.delays[job.id := Delays(s, job.id) + [delay]]);
  }

  lemma RetryKeeps(world: World, s: State, w: nat, job: Job, delay: nat)
    requires Inv(world, s) && PayloadOk(world, s.tables, job)
    ensures Inv(world, ScheduleRetry(s, w, job, delay)) && ScheduleRetry(s, w, job, delay).tables == s.tables
  {
    WithTimerKeeps(world, s, w, job, delay);
    RestMoves(world, WithTimer(s, w, job, delay), w);
  }

  lemma DeadMoves(world: World, s: State, id: RawId)
    requires Inv(world, s)
    ensures var next := s.WithJobs(DeadSql(s.tables.jobs, id, s.tables.clock));
      Inv(world, next) && Grows(s.tables, next.tables)
  {
    JobsMove(world, s, DeadSql(s.tables.jobs, id, s.tables.clock));
  }

  lemma MarkDeadKeeps(world: World, s: State, w: nat)
    requires Inv(world, s)
    ensures Inv(world, Step(world, s, MarkDead(w)))
    ensures Grows(s.tables, Step(world, s, MarkDead(w)).tables)
  {
    if InPhase(s, w, Exhausted) {
      DeadMoves(world, s, s.PcAt(w).job.id);
      RestMoves(world, s.WithJobs(DeadSql(s.tables.jobs, s.PcAt(w).job.id, s.tables.clock)), w);
    }
  }

  lemma ReapAdvances(world: World, s: State)
    requires Inv(world, s)
    ensures var next := s.WithJobs(ReapSql(world, s.tables.jobs, s.tables.clock));
      Inv(world, next) && Grows(s.tables, next.tables)
  {
    var jobs := ReapSql(world, s.tables.jobs, s.tables.clock);
    JobsMove(world, s, jobs);
  }

  /** The pairs the reaper returns are over once its UPDATE commits. */
  lemma ReapedPairsOver(world: World, t: Tables)
    ensures ReapedOk(t.(jobs := ReapSql(world, t.jobs, t.clock)), ReapedPairs(world, t))
  {
  }

  lemma ReapMoves(world: World, s: State)
    requires Inv(world, s)
    ensures Inv(world,
      s.WithJobs(ReapSql(world, s.tables.jobs, s.tables.clock))
       .(history := s.history.(reaped := s.history.reaped + ReapedPairs(world, s.tables))))
    ensures Grows(s.tables, s.tables.(jobs := ReapSql(world, s.tables.jobs, s.tables.clock)))
  {
    ReapAdvances(world, s);
    ReapedPairsOver(world, s.tables);
  }

  lemma ReapKeeps(world: World, s: State, w: nat, order: seq<RawId>)
    requires Inv(world, s)
    ensures Inv(world, Step(world, s, Reap(w, order)))
    ensures Grows(s.tables, Step(world, s, Reap(w, order)).tables)
  {
    if DoReap(world, s, w, order) != s {
      IdleOk(world, s, w);
      ReapMoves(world, s);
      var s2 := s.WithJobs(ReapSql(world, s.tables.jobs, s.tables.clock))
                 .(history := s.history.(reaped := s.history.reaped + ReapedPairs(world, s.tables)));
      WorkerMoves(world, s2, w, Worker(Requeueing(order), s.WorkerAt(w).rest));
    }
  }

  lemma PollKeeps(world: World, s: State, w: nat, batch: seq<RawId>)
    requires Inv(world, s)
    ensures Inv(world, Step(world, s, Poll(w, batch)))
    ensures Grows(s.tables, Step(world, s, Poll(w, batch)).tables)
  {
    if DoPoll(s, w, batch) != s {
      WorkerMoves(world, s, w, Worker(Idle, batch));
    }
  }

  lemma PollNextKeeps(world: World, s: State, w: nat)
    requires Inv(world, s)
    ensures Inv(world, Step(world, s, PollNext(w)))
    ensures Grows(s.tables, Step(world, s, PollNext(w)).tables)
  {
    if DoPollNext(s, w) != s {
      IdleOk(world, s, w);
      var rest := s.WorkerAt(w).rest;
      WorkerMoves(world, s, w, Worker(Busy(Job(rest[0], None, None), true, Fetched, None), rest[1..]));
    }
  }

  lemma RequeueKeeps(world: World, s: State, w: nat)
    requires Inv(world, s)
    ensures Inv(world, Step(world, s, Requeue(w)))
    ensures Grows(s.tables, Step(world, s, Requeue(w)).tables)
  {
    if s.PcAt(w).Requeueing? {
      IdleOk(world, s, w);
      var todo := s.PcAt(w).todo;
      if todo == [] {
        RestMoves(world, s, w);
      } else {
        var next := s.WithPc(w, Requeueing(todo[1..]));
        WorkerMoves(world, s, w, Worker(Requeueing(todo[1..]), s.WorkerAt(w).rest));
        if todo[0] in s.tables.raws {
          MirrorOk(world, s.tables, todo[0]);
          PushMoves(world, next, Mirrored(world, s.tables.raws[todo[0]], todo[0]));
        }
      }
    }
  }

  lemma MirrorOk(world: World, t: Tables, id: RawId)
    requires TablesOk(world, t) && id in t.raws
    ensures PayloadOk(world, t, Mirrored(world, t.raws[id], id))
  {
  }

  lemma PushMoves(world: World, s: State, job: Job)
    requires Inv(world, s) && PayloadOk(world, s.tables, job)
    ensures Inv(world, s.Pushed(job))
  {
    QueueMoves(world, s, [job] + s.queue);
  }

  lemma SweepGone(world: World, s: State, k: nat)
    requires Inv(world, s)
    ensures Inv(world, s.(sweeps := s.sweeps - {k}))
  {
  }

  /** A listing takes over swept content and stays in order. */
  lemma SweptListings(world: World, t: Tables, swept: Sweep)
    requires TablesOk(world, t) && swept.id in t.listings && ContentOk(world, t, swept.id, swept.group, swept.columns)
    ensures var listings := t.listings[swept.id := t.listings[swept.id].(group := swept.group,
      columns := swept.columns)];
      forall id :: id in listings ==> ListingOk(world, t, id, listings[id])
  {
    assert ListingOk(world, t, swept.id, t.listings[swept.id]);
  }

  lemma SweptMoves(world: World, s: State, swept: Sweep)
    requires Inv(world, s) && swept.id in s.tables.listings
    requires ContentOk(world, s.tables, swept.id, swept.group, swept.columns)
    ensures var l := s.tables.listings[swept.id].(group := swept.group, columns := swept.columns);
      var next := s.WithListings(s.tables.listings[swept.id := l]); Inv(world, next) && Grows(s.tables, next.tables)
  {
    SweptListings(world, s.tables, swept);
    var l := s.tables.listings[swept.id].(group := swept.group, columns := swept.columns);
    ListingMoves(world, s, s.tables.listings[swept.id := l]);
  }

  lemma SweepWriteKeeps(world: World, s: State, k: nat)
    requires Inv(world, s)
    ensures Inv(world, Step(world, s, SweepWrite(k)))
    ensures Grows(s.tables, Step(world, s, SweepWrite(k)).tables)
  {
    if k in s.sweeps {
      var next := s.(sweeps := s.sweeps - {k});
      SweepGone(world, s, k);
      if s.sweeps[k].id in s.tables.listings { SweptMoves(world, next, s.sweeps[k]); }
    }
  }

  lemma TickKeeps(world: World, s: State, ms: nat)
    requires Inv(world, s)
    ensures Inv(world, Step(world, s, Tick(ms)))
    ensures Grows(s.tables, Step(world, s, Tick(ms)).tables)
  {
    var u := s.tables.(clock := s.tables.clock + ms);
    ClockMoves(world, s.tables, u.clock);
    TablesMove(world, s, u);
    assert DoTick(s, ms) == s.(tables := u);
  }

  lemma ClockMoves(world: World, t: Tables, clock: nat)
    requires TablesOk(world, t) && t.clock <= clock
    ensures Grows(t, t.(clock := clock)) && TablesOk(world, t.(clock := clock))
  {
    ListingsSurvive(world, t, t.(clock := clock));
  }

  lemma TimerGone(world: World, s: State, t: nat)
    requires Inv(world, s)
    ensures Inv(world, s.(timers := s.timers - {t}))
  {
  }

  lemma FiredMoves(world: World, s: State, t: nat)
    requires Inv(world, s) && t in s.timers
    ensures Inv(world, s.Pushed(s.timers[t].job).(timers := s.timers - {t}))
  {
    PushMoves(world, s, s.timers[t].job);
    TimerGone(world, s.Pushed(s.timers[t].job), t);
  }

  lemma FireKeeps(world: World, s: State, t: nat)
    requires Inv(world, s)
    ensures Inv(world, Step(world, s, Fire(t)))
    ensures Grows(s.tables, Step(world, s, Fire(t)).tables)
  {
    if t in s.timers && s.timers[t].due <= s.tables.clock {
      FiredMoves(world, s, t);
    }
  }

  lemma FullReprocessKeeps(world: World, s: State, id: RawId)
    requires Inv(world, s)
    ensures Inv(world, Step(world, s, FullReprocess(id)))
    ensures Grows(s.tables, Step(world, s, FullReprocess(id)).tables)
  {
    if id in s.tables.raws {
      MirrorOk(world, s.tables, id);
      PushMoves(world, s, Mirrored(world, s.tables.raws[id], id));
    }
  }

  lemma SweepReadKeeps(world: World, s: State, k: nat, id: RawId)
    requires Inv(world, s)
    ensures Inv(world, Step(world, s, SweepRead(k, id)))
    ensures Grows(s.tables, Step(world, s, SweepRead(k, id)).tables)
  {
    if DoSweepRead(world, s, k, id) != s {
      var l, raw := s.tables.listings[id], s.tables.raws[id];
      assert ListingOk(world, s.tables, id, l);
      SweptIsDerivable(world, raw, l.columns);
      var sweep := Sweep(id, SweptGroup(world, raw, l.group), world.sweep(l.columns, raw.text));
      SweepMoves(world, s, k, sweep);
    }
  }

  lemma SweepMoves(world: World, s: State, k: nat, sweep: Sweep)
    requires Inv(world, s) && ContentOk(world, s.tables, sweep.id, sweep.group, sweep.columns)
    ensures Inv(world, s.(sweeps := s.sweeps[k := sweep]))
  {
  }

  lemma CrashKeeps(world: World, s: State, w: nat)
    requires Inv(world, s)
    ensures Inv(world, Step(world, s, Crash(w)))
    ensures Grows(s.tables, Step(world, s, Crash(w)).tables)
  {
  }

  lemma OfferLostKeeps(world: World, s: State, p: nat)
    requires Inv(world, s)
    ensures Inv(world, Step(world, s, OfferLost(p)))
    ensures Grows(s.tables, Step(world, s, OfferLost(p)).tables)
  {
  }

  lemma FireLostKeeps(world: World, s: State, t: nat)
    requires Inv(world, s)
    ensures Inv(world, Step(world, s, FireLost(t)))
    ensures Grows(s.tables, Step(world, s, FireLost(t)).tables)
  {
  }

  lemma QueueLossKeeps(world: World, s: State, at: nat)
    requires Inv(world, s)
    ensures Inv(world, Step(world, s, QueueLoss(at)))
    ensures Grows(s.tables, Step(world, s, QueueLoss(at)).tables)
  {
    if at < |s.queue| {
      QueueMoves(world, s, s.queue[..at] + s.queue[at + 1..]);
    }
  }

  lemma RecoverKeeps(world: World, s: State, w: nat, batch: seq<RawId>)
    requires Inv(world, s)
    ensures Inv(world, Step(world, s, Recover(w, batch)))
    ensures Grows(s.tables, Step(world, s, Recover(w, batch)).tables)
  {
    IdleOk(world, s, w);
    if DoRecover(s, w, batch) != s {
      WorkerMoves(world, s, w, Worker(Requeueing(batch), s.WorkerAt(w).rest));
    }
  }

  lemma GiveUpKeeps(world: World, s: State, w: nat)
    requires Inv(world, s)
    ensures Inv(world, Step(world, s, GiveUp(w)))
    ensures Grows(s.tables, Step(world, s, GiveUp(w)).tables)
  {
    if DoGiveUp(s, w) != s { RestMoves(world, s, w); }
  }

  /** Every event of every process keeps the invariant, raw rows and identity columns. */
  lemma StepKeeps(world: World, s: State, e: Event)
    requires Inv(world, s)
    ensures Inv(world, Step(world, s, e))
    ensures Grows(s.tables, Step(world, s, e).tables)
  {
    match e
    case Tick(ms) => TickKeeps(world, s, ms);
    case Insert(_, _, _, _, _, _, _, _, _) => InsertKeeps(world, s, e);
    case Offer(p) => OfferKeeps(world, s, p);
    case OfferLost(p) => OfferLostKeeps(world, s, p);
    case Dequeue(w) => DequeueKeeps(world, s, w);
    case Claim(w) => ClaimKeeps(world, s, w);
    case Read(w) => ReadKeeps(world, s, w);
    case Store(w) => StoreKeeps(world, s, w);
    case Finish(w) => FinishKeeps(world, s, w);
    case Return(w) => ReturnKeeps(world, s, w);
    case Throw(w) => ThrowKeeps(world, s, w);
    case RecordFailure(w) => RecordFailureKeeps(world, s, w);
    case MarkDead(w) => MarkDeadKeeps(world, s, w);
    case GiveUp(w) => GiveUpKeeps(world, s, w);
    case Fire(t) => FireKeeps(world, s, t);
    case FireLost(t) => FireLostKeeps(world, s, t);
    case Reap(w, order) => ReapKeeps(world, s, w, order);
    case Poll(w, batch) => PollKeeps(world, s, w, batch);
    case PollNext(w) => PollNextKeeps(world, s, w);
    case Recover(w, batch) => RecoverKeeps(world, s, w, batch);
    case Requeue(w) => RequeueKeeps(world, s, w);
    case FullReprocess(id) => FullReprocessKeeps(world, s, id);
    case SweepRead(k, id) => SweepReadKeeps(world, s, k, id);
    case SweepWrite(k) => SweepWriteKeeps(world, s, k);
    case Crash(w) => CrashKeeps(world, s, w);
    case QueueLoss(at) => QueueLossKeeps(world, s, at);
  }

  lemma {:induction false} RunKeeps(world: World, run: seq<Event>)
    ensures Inv(world, Run(world, run))
  {
    if run != [] {
      RunKeeps(world, run[..|run| - 1]);
      StepKeeps(world, Run(world, run[..|run| - 1]), run[|run| - 1]);
    }
  }
}
