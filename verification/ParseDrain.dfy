/**
 The drain from any reachable state: the rounds of ParseWorker are runs of the protocol, and the ledgers
 they need are those that the protocol reaches.
 */
module ParseDrain {
  import opened Values
  import opened ParseProtocol
  import opened ParseSafety
  import opened ParseTheorems
  import PW = ParseWorker

  // ---------------------------------------------------------------- dead jobs have used up their attempts

  predicate DeadJobs(world: World, jobs: Jobs) {
    forall id :: id in jobs && jobs[id].status == Dead ==> jobs[id].attempts >= world.maxAttempts
  }

  /** A worker that is about to bury a job. */
  predicate Burying(pc: Pc) {
    pc.Busy? && pc.phase.Exhausted?
  }

  predicate SpentJob(world: World, jobs: Jobs, pc: Pc) {
    Burying(pc) ==> pc.job.id in jobs && jobs[pc.job.id].attempts >= world.maxAttempts
  }

  predicate Buried(world: World, s: State) {
    && DeadJobs(world, s.tables.jobs)
    && forall w :: w in s.workers ==> SpentJob(world, s.tables.jobs, s.workers[w].pc)
  }

  /** Apart from one worker, everybody is as before or gone. */
  predicate OthersSame(s: State, s': State, w: nat) {
    forall v :: v in s'.workers && v != w ==> v in s.workers && s'.workers[v] == s.workers[v]
  }

  lemma OthersStayBuried(world: World, s: State, s': State, w: nat)
    requires Buried(world, s) && JobsAdvance(s.tables.jobs, s'.tables.jobs) && OthersSame(s, s', w)
    requires DeadJobs(world, s'.tables.jobs) && (w in s'.workers ==> SpentJob(world, s'.tables.jobs, s'.workers[w].pc))
    ensures Buried(world, s')
  {
    forall v | v in s'.workers ensures SpentJob(world, s'.tables.jobs, s'.workers[v].pc) {
      if v != w { assert SpentJob(world, s.tables.jobs, s.workers[v].pc); }
    }
  }

  /** The statements of the ledger bury only jobs that have used up their attempts. */
  lemma StatementsBury(world: World, jobs: Jobs, id: RawId, now: nat)
    requires DeadJobs(world, jobs)
    ensures DeadJobs(world, ClaimSql(jobs, id, now)) && DeadJobs(world, FailSql(jobs, id, now))
    ensures DeadJobs(world, DoneSql(jobs, id))
    ensures id in jobs && jobs[id].attempts >= world.maxAttempts ==> DeadJobs(world, DeadSql(jobs, id, now))
    ensures DeadJobs(world, ReapSql(world, jobs, now))
  {
  }

  /** The ledger stays as it is, and apart from one worker, which does not begin to bury a job, so does everybody. */
  predicate Harmless(s: State, s': State, w: nat) {
    && s'.tables.jobs == s.tables.jobs && OthersSame(s, s', w)
    && (w in s'.workers && Burying(s'.workers[w].pc) ==> w in s.workers && s'.workers[w].pc == s.workers[w].pc)
  }

  lemma DeliveryHarmless(world: World, s: State, e: Event, w: nat)
    requires e == Dequeue(w) || e == Read(w) || e == Store(w) || e == Return(w)
    ensures Harmless(s, Step(world, s, e), w)
  {
  }

  lemma StopHarmless(world: World, s: State, e: Event, w: nat)
    requires e == Throw(w) || e == GiveUp(w) || e == Crash(w)
    ensures Harmless(s, Step(world, s, e), w)
  {
  }

  lemma PollHarmless(world: World, s: State, e: Event, w: nat)
    requires e == PollNext(w) || (e.Poll? && e.w == w)
    ensures Harmless(s, Step(world, s, e), w)
  {
  }

  lemma RearmHarmless(world: World, s: State, e: Event, w: nat)
    requires e == Requeue(w) || (e.Recover? && e.w == w)
    ensures Harmless(s, Step(world, s, e), w)
  {
  }

  predicate HasNoWorker(e: Event) {
    e.Tick? || e.Insert? || e.Offer? || e.OfferLost? || e.Fire? || e.FireLost? || e.QueueLoss?
  }

  lemma ProducerHarmless(world: World, s: State, e: Event)
    requires HasNoWorker(e)
    ensures Harmless(s, Step(world, s, e), 0)
  {
  }

  lemma OperatorHarmless(world: World, s: State, e: Event)
    requires e.FullReprocess? || e.SweepRead?
    ensures Harmless(s, Step(world, s, e), 0)
  {
  }

  lemma SweepWriteHarmless(world: World, s: State, k: nat)
    ensures Harmless(s, Step(world, s, SweepWrite(k)), 0)
  {
  }

  lemma HarmlessBuries(world: World, s: State, s': State, w: nat)
    requires Buried(world, s) && Harmless(s, s', w)
    ensures Buried(world, s')
  {
    if w in s'.workers && w in s.workers { assert SpentJob(world, s.tables.jobs, s.workers[w].pc); }
    OthersStayBuried(world, s, s', w);
  }

  /** What a statement of the ledger leaves: only it and one worker have changed. */
  predicate LedgerStep(world: World, s: State, s': State, w: nat) {
    && OthersSame(s, s', w) && DeadJobs(world, s'.tables.jobs)
    && (w in s'.workers ==> SpentJob(world, s'.tables.jobs, s'.workers[w].pc))
  }

  lemma ClaimBuries(world: World, s: State, w: nat)
    requires Buried(world, s)
    ensures LedgerStep(world, s, Step(world, s, Claim(w)), w)
  {
    if w in s.workers { assert SpentJob(world, s.tables.jobs, s.workers[w].pc); }
    if InPhase(s, w, Fetched) { StatementsBury(world, s.tables.jobs, s.PcAt(w).job.id, s.tables.clock); }
  }

  lemma FinishBuries(world: World, s: State, w: nat)
    requires Buried(world, s)
    ensures LedgerStep(world, s, Step(world, s, Finish(w)), w)
  {
    if w in s.workers { assert SpentJob(world, s.tables.jobs, s.workers[w].pc); }
    if InPhase(s, w, Phase.Stored) { StatementsBury(world, s.tables.jobs, s.PcAt(w).job.id, s.tables.clock); }
  }

  lemma RecordBuries(world: World, s: State, w: nat)
    requires Buried(world, s)
    ensures LedgerStep(world, s, Step(world, s, RecordFailure(w)), w)
  {
    if InPhase(s, w, Thrown) {
      PW.RecordEffect(world, s, w);
      StatementsBury(world, s.tables.jobs, s.PcAt(w).job.id, s.tables.clock);
    } else if w in s.workers {
      assert SpentJob(world, s.tables.jobs, s.workers[w].pc);
    }
  }

  lemma MarkDeadBuries(world: World, s: State, w: nat)
    requires Buried(world, s)
    ensures LedgerStep(world, s, Step(world, s, MarkDead(w)), w)
  {
    if w in s.workers { assert SpentJob(world, s.tables.jobs, s.workers[w].pc); }
    if InPhase(s, w, Exhausted) { StatementsBury(world, s.tables.jobs, s.PcAt(w).job.id, s.tables.clock); }
  }

  lemma ReapBuries(world: World, s: State, w: nat, order: seq<RawId>)
    requires Buried(world, s)
    ensures LedgerStep(world, s, Step(world, s, Reap(w, order)), w)
  {
    if w in s.workers { assert SpentJob(world, s.tables.jobs, s.workers[w].pc); }
    StatementsBury(world, s.tables.jobs, 0, s.tables.clock);
  }

  lemma LedgerBuries(world: World, s: State, e: Event, w: nat)
    requires Inv(world, s) && Buried(world, s) && LedgerStep(world, s, Step(world, s, e), w)
    ensures Buried(world, Step(world, s, e))
  {
    StepKeeps(world, s, e);
    OthersStayBuried(world, s, Step(world, s, e), w);
  }

  lemma StepBuries(world: World, s: State, e: Event)
    requires Inv(world, s) && Buried(world, s)
    ensures Buried(world, Step(world, s, e))
  {
    var s' := Step(world, s, e);
    match e
    case Claim(w) => ClaimBuries(world, s, w); LedgerBuries(world, s, e, w);
    case Finish(w) => FinishBuries(world, s, w); LedgerBuries(world, s, e, w);
    case RecordFailure(w) => RecordBuries(world, s, w); LedgerBuries(world, s, e, w);
    case MarkDead(w) => MarkDeadBuries(world, s, w); LedgerBuries(world, s, e, w);
    case Reap(w, order) => ReapBuries(world, s, w, order); LedgerBuries(world, s, e, w);
    case Dequeue(w) => DeliveryHarmless(world, s, e, w); HarmlessBuries(world, s, s', w);
    case Read(w) => DeliveryHarmless(world, s, e, w); HarmlessBuries(world, s, s', w);
    case Store(w) => DeliveryHarmless(world, s, e, w); HarmlessBuries(world, s, s', w);
    case Return(w) => DeliveryHarmless(world, s, e, w); HarmlessBuries(world, s, s', w);
    case Throw(w) => StopHarmless(world, s, e, w); HarmlessBuries(world, s, s', w);
    case GiveUp(w) => StopHarmless(world, s, e, w); HarmlessBuries(world, s, s', w);
    case Crash(w) => StopHarmless(world, s, e, w); HarmlessBuries(world, s, s', w);
    case Poll(w, batch) => PollHarmless(world, s, e, w); HarmlessBuries(world, s, s', w);
    case PollNext(w) => PollHarmless(world, s, e, w); HarmlessBuries(world, s, s', w);
    case Recover(w, batch) => RearmHarmless(world, s, e, w); HarmlessBuries(world, s, s', w);
    case Requeue(w) => RearmHarmless(world, s, e, w); HarmlessBuries(world, s, s', w);
    case SweepWrite(k) => SweepWriteHarmless(world, s, k); HarmlessBuries(world, s, s', 0);
    case _ =>
      if HasNoWorker(e) { ProducerHarmless(world, s, e); } else { OperatorHarmless(world, s, e); }
      HarmlessBuries(world, s, s', 0);
  }

  lemma {:induction false} RunBuries(world: World, run: seq<Event>)
    ensures Buried(world, Run(world, run))
  {
    if run != [] {
      RunBuries(world, run[..|run| - 1]);
      RunKeeps(world, run[..|run| - 1]);
      StepBuries(world, Run(world, run[..|run| - 1]), run[|run| - 1]);
    }
  }

  function DbOf(s: State): PW.Db {
    PW.Db(s.tables.jobs, s.tables.listings)
  }

  /** Every ledger the protocol reaches is one the drain can start from. */
  lemma ReachableIsSound(world: World, s: State)
    requires Reachable(world, s)
    ensures PW.Sound(world, DbOf(s))
  {
    var run :| Run(world, run) == s;
    RunBuries(world, run);
    ReachableKeeps(world, s);
  }

  // ---------------------------------------------------------------- rounds are runs

  lemma {:induction false} LeadsFurther(world: World, s: State, s': State, run: seq<Event>)
    requires Leads(world, s, s')
    ensures Leads(world, s, RunFrom(world, s', run))
  {
    if run != [] {
      LeadsFurther(world, s, s', run[..|run| - 1]);
      LeadsOn(world, s, RunFrom(world, s', run[..|run| - 1]), run[|run| - 1]);
    }
  }

  /** What the drain looks at: the tables, the time, and that this worker is between two calls of its batch. */
  datatype Snapshot = Snapshot(raws: map<RawId, Raw>, db: PW.Db, clock: nat, rest: seq<RawId>)

  predicate Shows(s: State, w: nat, snap: Snapshot) {
    && s.tables.raws == snap.raws && DbOf(s) == snap.db && s.tables.clock == snap.clock
    && s.PcAt(w).Idle? && s.WorkerAt(w).rest == snap.rest
  }

  lemma Waited(world: World, s0: State, s: State, w: nat, snap: Snapshot, now: nat) returns (s': State)
    requires Leads(world, s0, s) && Shows(s, w, snap) && snap.clock <= now
    ensures Leads(world, s0, s') && Shows(s', w, snap.(clock := now))
  {
    s' := Step(world, s, Tick(now - snap.clock));
    LeadsOn(world, s0, s, Tick(now - snap.clock));
  }

  lemma PickedNext(world: World, s0: State, s: State, w: nat, snap: Snapshot) returns (s': State)
    requires Leads(world, s0, s) && Shows(s, w, snap) && snap.rest != []
    ensures Leads(world, s0, s') && s'.tables == s.tables
    ensures s'.WorkerAt(w) == Worker(Busy(Job(snap.rest[0], None, None), true, Fetched, None), snap.rest[1..])
  {
    s' := Step(world, s, PollNext(w));
    LeadsOn(world, s0, s, PollNext(w));
  }

  lemma Returned(world: World, s0: State, s: State, w: nat) returns (s': State)
    requires Leads(world, s0, s) && (InPhase(s, w, Finished) || s.PcAt(w).Idle?)
    ensures Leads(world, s0, s') && s'.tables == s.tables && s'.PcAt(w).Idle?
    ensures s'.WorkerAt(w).rest == s.WorkerAt(w).rest
  {
    s' := Step(world, s, Return(w));
    LeadsOn(world, s0, s, Return(w));
  }

  /** One attempt of a direct poll, whatever happens to it. */
  lemma AttemptRun(world: World, s0: State, s: State, w: nat, snap: Snapshot, try: PW.Try) returns (s': State)
    requires Leads(world, s0, s) && Shows(s, w, snap) && snap.rest != [] && snap.clock <= try.now
    requires snap.rest[0] in snap.raws
    ensures Leads(world, s0, s')
    ensures Shows(s', w,
      Snapshot(snap.raws, PW.Attempt(world, snap.raws, snap.db, Job(snap.rest[0], None, None), try), try.now,
                                  if try.fate.Crashes() then [] else snap.rest[1..]))
  {
    var s1 := Waited(world, s0, s, w, snap, try.now);
    var s2 := PickedNext(world, s0, s1, w, snap.(clock := try.now));
    PW.AttemptIsARun(world, s2, w, try.fate, true);
    var script := PW.Script(w, PW.ActualAt(world, s2, w, try.fate), true);
    LeadsFurther(world, s0, s2, script);
    s' := Returned(world, s0, RunFrom(world, s2, script), w);
  }

  /** Times that the clock can show one after the other. */
  predicate InTime(clock: nat, tries: seq<PW.Try>)
    decreases |tries|
  {
    tries == [] || (clock <= tries[0].now && InTime(tries[0].now, tries[1..]))
  }

  /** When a batch without a crash has made its last attempt. */
  function LastTime(clock: nat, tries: seq<PW.Try>): nat
    decreases |tries|
  {
    if tries == [] then clock else LastTime(tries[0].now, tries[1..])
  }

  lemma {:induction false} TimeGoesOn(clock: nat, tries: seq<PW.Try>)
    requires InTime(clock, tries)
    ensures clock <= LastTime(clock, tries)
    decreases |tries|
  {
    if tries != [] { TimeGoesOn(tries[0].now, tries[1..]); }
  }

  lemma {:induction false} BatchRun(world: World, s0: State, s: State, w: nat, snap: Snapshot, tries: seq<PW.Try>)
    returns (s': State)
    requires Leads(world, s0, s) && Shows(s, w, snap) && |tries| == |snap.rest| && InTime(snap.clock, tries)
    requires forall id :: id in snap.rest ==> id in snap.raws
    ensures Leads(world, s0, s') && snap.clock <= s'.tables.clock <= LastTime(snap.clock, tries)
    ensures Shows(s', w,
      Snapshot(snap.raws, PW.Batch(world, snap.raws, snap.db, snap.rest, tries), s'.tables.clock, []))
    decreases |tries|
  {
    if tries == [] { return s; }
    var s1 := AttemptRun(world, s0, s, w, snap, tries[0]);
    TimeGoesOn(tries[0].now, tries[1..]);
    if tries[0].fate.Crashes() { return s1; }
    var after := PW.Attempt(world, snap.raws, snap.db, Job(snap.rest[0], None, None), tries[0]);
    s' := BatchRun(world, s0, s1, w, Snapshot(snap.raws, after, tries[0].now, snap.rest[1..]), tries[1..]);
  }

  lemma {:induction false} Enumerated(ids: set<RawId>) returns (order: seq<RawId>)
    ensures Distinct(order) && forall id :: id in order <==> id in ids
  {
    if ids == {} { return []; }
    var id :| id in ids;
    var rest := Enumerated(ids - {id});
    order := [id] + rest;
  }

  lemma SomeOrder(world: World, t: Tables) returns (order: seq<RawId>)
    ensures ReapOrder(world, t, order)
  {
    order := Enumerated(set id | id in t.jobs && ReapHits(world, t, id) && t.jobs[id].attempts < world.maxAttempts);
  }

  /** The reaper with the queue unreachable: its update commits, its first enqueue throws. */
  lemma ReapRun(world: World, s0: State, s: State, w: nat, snap: Snapshot) returns (s': State)
    requires Leads(world, s0, s) && Shows(s, w, snap)
    ensures Leads(world, s0, s') && Shows(s', w, snap.(db := PW.Reaped(world, snap.db, snap.clock)))
  {
    var order := SomeOrder(world, s.tables);
    var s1 := ReapStep(world, s0, s, w, snap, order);
    s' := Step(world, s1, GiveUp(w));
    LeadsOn(world, s0, s1, GiveUp(w));
  }

  lemma ReapStep(world: World, s0: State, s: State, w: nat, snap: Snapshot, order: seq<RawId>) returns (s': State)
    requires Leads(world, s0, s) && Shows(s, w, snap) && ReapOrder(world, s.tables, order)
    ensures Leads(world, s0, s') && s'.WorkerAt(w) == Worker(Requeueing(order), snap.rest)
    ensures s'.tables == s.tables.(jobs := ReapSql(world, s.tables.jobs, s.tables.clock))
  {
    s' := Step(world, s, Reap(w, order));
    LeadsOn(world, s0, s, Reap(w, order));
  }

  lemma PollRun(world: World, s0: State, s: State, w: nat, snap: Snapshot, batch: seq<RawId>) returns (s': State)
    requires Leads(world, s0, s) && Shows(s, w, snap) && snap.rest == [] && Distinct(batch)
    requires forall id :: id in batch ==> id in snap.raws && PollVisible(snap.db.jobs, snap.db.listings, id)
    ensures Leads(world, s0, s') && Shows(s', w, snap.(rest := batch))
  {
    s' := Step(world, s, Poll(w, batch));
    LeadsOn(world, s0, s, Poll(w, batch));
  }

  /** Every round is a run: reap, fail to enqueue, poll, and the attempts, one crash at most. */
  lemma RoundIsARun(world: World, s0: State, s: State, w: nat, snap: Snapshot, r: PW.Round) returns (s': State)
    requires Leads(world, s0, s) && Shows(s, w, snap) && snap.rest == []
    requires PW.ValidRound(world, snap.raws, snap.db, r) && snap.clock <= r.reapAt && InTime(r.reapAt, r.tries)
    ensures Leads(world, s0, s') && r.reapAt <= s'.tables.clock <= LastTime(r.reapAt, r.tries)
    ensures Shows(s', w, Snapshot(snap.raws, PW.AfterRound(world, snap.raws, snap.db, r), s'.tables.clock, []))
  {
    var reaped := PW.Reaped(world, snap.db, r.reapAt);
    var s1 := Waited(world, s0, s, w, snap, r.reapAt);
    var s2 := ReapRun(world, s0, s1, w, snap.(clock := r.reapAt));
    var s3 := PollRun(world, s0, s2, w, Snapshot(snap.raws, reaped, r.reapAt, []), r.batch);
    s' := BatchRun(world, s0, s3, w, Snapshot(snap.raws, reaped, r.reapAt, r.batch), r.tries);
  }

  /** Each round begins when the one before it is over, at the latest. */
  predicate RoundsInTime(clock: nat, rounds: seq<PW.Round>)
    decreases |rounds|
  {
    rounds == [] ||
    (&& clock <= rounds[0].reapAt && InTime(rounds[0].reapAt, rounds[0].tries)
     && RoundsInTime(LastTime(rounds[0].reapAt, rounds[0].tries), rounds[1..]))
  }

  lemma EarlierStart(clock: nat, later: nat, rounds: seq<PW.Round>)
    requires clock <= later && RoundsInTime(later, rounds)
    ensures RoundsInTime(clock, rounds)
  {
  }

  lemma {:induction false} RoundsAreARun(world: World, s0: State, s: State, w: nat, snap: Snapshot,
                                         rounds: seq<PW.Round>)
    returns (s': State)
    requires forall r :: r in rounds ==> |r.tries| == |r.batch|
    requires Leads(world, s0, s) && Shows(s, w, snap) && snap.rest == []
    requires PW.ValidRounds(world, snap.raws, snap.db, rounds) && RoundsInTime(snap.clock, rounds)
    ensures Leads(world, s0, s')
    ensures Shows(s', w, Snapshot(snap.raws, PW.AfterRounds(world, snap.raws, snap.db, rounds), s'.tables.clock, []))
    decreases |rounds|
  {
    if rounds == [] { return s; }
    var s1 := RoundIsARun(world, s0, s, w, snap, rounds[0]);
    EarlierStart(s1.tables.clock, LastTime(rounds[0].reapAt, rounds[0].tries), rounds[1..]);
    var after := PW.AfterRound(world, snap.raws, snap.db, rounds[0]);
    s' := RoundsAreARun(world, s0, s1, w, Snapshot(snap.raws, after, s1.tables.clock, []), rounds[1..]);
  }

  // ---------------------------------------------------------------- the drain

  /** A round is possible at any time and in any state of the tables, with any fate for its attempts. */
  lemma SomeRound(world: World, raws: map<RawId, Raw>, db: PW.Db, fate: PW.Fate, clock: nat) returns (r: PW.Round)
    ensures PW.ValidRound(world, raws, db, r) && clock <= r.reapAt && InTime(r.reapAt, r.tries)
    ensures forall try :: try in r.tries ==> try.fate == fate
  {
    var late := LateEnough(world, db.jobs, db.jobs.Keys, clock);
    var jobs := ReapSql(world, db.jobs, late);
    if id :| id in raws && PollVisible(jobs, db.listings, id) {
      r := PW.Round(late, [id], [PW.Try(fate, late)]);
      assert InTime(late, r.tries) by { assert r.tries[1..] == []; }
    } else {
      r := PW.Round(late, [], []);
    }
  }

  lemma {:induction false} LateEnough(world: World, jobs: Jobs, ids: set<RawId>, clock: nat) returns (late: nat)
    requires ids <= jobs.Keys
    ensures clock <= late && forall id :: id in ids ==> jobs[id].Stamp() + world.staleMs < late
  {
    late := clock;
    if ids != {} {
      var id :| id in ids;
      var rest := LateEnough(world, jobs, ids - {id}, clock);
      late := if rest > jobs[id].Stamp() + world.staleMs then rest else jobs[id].Stamp() + world.staleMs + 1;
    }
  }

  /**
   The drain theorem for the protocol: from any reachable state with the queue unreachable, one worker that goes
   through as many rounds of reaper sweep and direct poll as the total rank has every message listed or dead,
   and dead if the columns refuse it, against every adversary that fails or crashes attempts. The given rounds, with
   the given fates, are a run of the protocol's events, and their tables are the ones that run ends in.
   */
  lemma DrainsFromAnyState(world: World, s: State, w: nat, rounds: seq<PW.Round>, ids: seq<RawId>) returns (s': State)
    requires Reachable(world, s) && s.PcAt(w).Idle? && s.WorkerAt(w).rest == []
    requires forall r :: r in rounds ==> |r.tries| == |r.batch|
    requires PW.ValidRounds(world, s.tables.raws, DbOf(s), rounds) && RoundsInTime(s.tables.clock, rounds)
    requires (forall id :: id in ids <==> id in s.tables.raws) && |rounds| >= PW.TotalRank(world, DbOf(s), ids)
    ensures Leads(world, s, s') && s'.tables.raws == s.tables.raws
    ensures DbOf(s') == PW.AfterRounds(world, s.tables.raws, DbOf(s), rounds)
    ensures forall id :: id in s.tables.raws ==>
      (Fits(world, s.tables.raws[id]) && id in s'.tables.listings) || HasStatus(s', id, Dead)
  {
    var snap := Snapshot(s.tables.raws, DbOf(s), s.tables.clock, []);
    LeadsNowhere(world, s);
    s' := RoundsAreARun(world, s, s, w, snap, rounds);
    ReachableIsSound(world, s);
    PW.Drained(world, s.tables.raws, DbOf(s), rounds, ids);
    forall id | id in s.tables.raws && !Fits(world, s.tables.raws[id]) ensures id !in s'.tables.listings {
      RefusedFromHere(world, s, s', id);
    }
    forall id | id in s.tables.raws ensures PW.Settled(DbOf(s'), id) {
    }
  }
}
