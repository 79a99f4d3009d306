/** What the invariant of the parse pipeline means for its users. */
module ParseTheorems {
  import opened Values
  import opened Reprocess
  import opened ParseProtocol
  import opened ParseSafety

  /** Some run of the system, of any length, ends in this state. */
  ghost predicate Reachable(world: World, s: State) {
    exists run :: Run(world, run) == s
  }

  lemma ReachableKeeps(world: World, s: State)
    requires Reachable(world, s)
    ensures Inv(world, s)
  {
    var run :| Run(world, run) == s;
    RunKeeps(world, run);
  }

  lemma ReachableStep(world: World, s: State, e: Event)
    requires Reachable(world, s)
    ensures Reachable(world, Step(world, s, e))
  {
    var run :| Run(world, run) == s;
    assert (run + [e])[..|run|] == run;
    assert Run(world, run + [e]) == Step(world, s, e);
  }

  // ---------------------------------------------------------------- confluence

  /**
   In every reachable state every listing is the derivation of its raw row, after some number of batch passes,
   carries that row's identity, and has a group name that its message could have been given; and a job is
   `done` only with its listing in place.
   */
  lemma ListingsAreDerivations(world: World, s: State)
    requires Reachable(world, s)
    ensures forall id :: id in s.tables.listings ==>
      var l, raws := s.tables.listings[id], s.tables.raws;
      && id in raws && id in s.tables.chats
      && Derivable(world, raws[id], l.columns)
      && (l.id, l.user, l.waGroup, l.listed) == (id, raws[id].user, raws[id].waGroup, raws[id].received)
      && GroupPossible(world, raws[id], s.tables.chats[id], l.group)
    ensures forall id :: id in s.tables.jobs && s.tables.jobs[id].status == Done ==> id in s.tables.listings
  {
    ReachableKeeps(world, s);
    forall id | id in s.tables.listings ensures ListingOk(world, s.tables, id, s.tables.listings[id]) {
    }
  }

  /** From any reachable state on, raw rows never change, and listings never vanish or change identity. */
  lemma {:induction false} IdentityPersists(world: World, s: State, run: seq<Event>)
    requires Reachable(world, s)
    ensures Reachable(world, RunFrom(world, s, run)) && Grows(s.tables, RunFrom(world, s, run).tables)
  {
    if run != [] {
      var front := run[..|run| - 1];
      IdentityPersists(world, s, front);
      ReachableKeeps(world, RunFrom(world, s, front));
      StepKeeps(world, RunFrom(world, s, front), run[|run| - 1]);
      ReachableStep(world, RunFrom(world, s, front), run[|run| - 1]);
      GrowsTransitive(s.tables, RunFrom(world, s, front).tables, RunFrom(world, s, run).tables);
    } else {
      GrowsReflexive(s.tables);
    }
  }

  lemma GrowsReflexive(t: Tables)
    ensures Grows(t, t)
  {
  }

  lemma GrowsTransitive(t: Tables, u: Tables, v: Tables)
    requires Grows(t, u) && Grows(u, v)
    ensures Grows(t, v)
  {
  }

  // ---------------------------------------------------------------- runs from one state to another

  /** Some run leads from one state to the other. */
  ghost predicate Leads(world: World, s: State, s': State) {
    exists run :: RunFrom(world, s, run) == s'
  }

  lemma LeadsNowhere(world: World, s: State)
    ensures Leads(world, s, s)
  {
    assert RunFrom(world, s, []) == s;
  }

  lemma LeadsOn(world: World, s: State, s': State, e: Event)
    requires Leads(world, s, s')
    ensures Leads(world, s, Step(world, s', e))
  {
    var run :| RunFrom(world, s, run) == s';
    assert (run + [e])[..|run|] == run;
    assert RunFrom(world, s, run + [e]) == Step(world, s', e);
  }

  /** What a run from the start leads to is reachable. */
  lemma LedIsReachable(world: World, s: State)
    requires Leads(world, Start, s)
    ensures Reachable(world, s)
  {
    var run :| RunFrom(world, Start, run) == s;
    assert Run(world, run) == s;
  }

  // ---------------------------------------------------------------- which messages can be listed at all

  /** The columns of `listings` can hold what is derived from this raw row. */
  predicate Fits(world: World, raw: Raw) {
    world.fits(world.derive(raw.text, raw.sender))
  }

  /** Only what fits is listed. */
  predicate Admitted(world: World, t: Tables) {
    forall id :: id in t.listings ==> id in t.raws && Fits(world, t.raws[id])
  }

  /** The events of a delivery other than its write. */
  predicate OfDelivery(e: Event) {
    || e.Dequeue? || e.Claim? || e.Read? || e.Finish? || e.Return? || e.Throw? || e.RecordFailure? || e.MarkDead?
    || e.GiveUp?
  }

  lemma DeliveryListsNothing(world: World, s: State, e: Event)
    requires OfDelivery(e)
    ensures Step(world, s, e).tables.listings == s.tables.listings
  {
  }

  lemma SweepWriteListsNothingNew(world: World, s: State, k: nat)
    ensures Step(world, s, SweepWrite(k)).tables.listings.Keys == s.tables.listings.Keys
  {
  }

  lemma ListedKeysStay(world: World, s: State, e: Event)
    requires !e.Store?
    ensures Step(world, s, e).tables.listings.Keys == s.tables.listings.Keys
  {
    if OfDelivery(e) {
      DeliveryListsNothing(world, s, e);
    } else if e.SweepWrite? {
      SweepWriteListsNothingNew(world, s, e.k);
    }
  }

  lemma StoreAdmits(world: World, s: State, w: nat)
    requires Inv(world, s) && Admitted(world, s.tables)
    ensures Admitted(world, Step(world, s, Store(w)).tables)
  {
    if s.PcAt(w).Busy? && s.PcAt(w).phase.Derived? && !Refused(world, s, w) {
      assert WorkerOk(world, s.tables, s.workers[w]);
    }
  }

  lemma StepAdmits(world: World, s: State, e: Event)
    requires Inv(world, s) && Admitted(world, s.tables)
    ensures Admitted(world, Step(world, s, e).tables)
  {
    if e.Store? {
      StoreAdmits(world, s, e.w);
    } else {
      StepKeeps(world, s, e);
      ListedKeysStay(world, s, e);
      AdmittedGrows(world, s.tables, Step(world, s, e).tables);
    }
  }

  lemma AdmittedGrows(world: World, t: Tables, u: Tables)
    requires Admitted(world, t) && Grows(t, u) && u.listings.Keys == t.listings.Keys
    ensures Admitted(world, u)
  {
    forall id | id in u.listings ensures id in u.raws && Fits(world, u.raws[id]) {
      assert id in t.listings;
    }
  }

  lemma {:induction false} RunAdmits(world: World, run: seq<Event>)
    ensures Admitted(world, Run(world, run).tables)
  {
    if run != [] {
      RunAdmits(world, run[..|run| - 1]);
      RunKeeps(world, run[..|run| - 1]);
      StepAdmits(world, Run(world, run[..|run| - 1]), run[|run| - 1]);
    }
  }

  /** A message whose derivation the columns refuse is never listed, however often it is tried. */
  lemma RefusedIsNeverListed(world: World, s: State, id: RawId)
    requires Reachable(world, s) && id in s.tables.raws && !Fits(world, s.tables.raws[id])
    ensures id !in s.tables.listings
  {
    var run :| Run(world, run) == s;
    RunAdmits(world, run);
  }

  // ---------------------------------------------------------------- the reaper

  /** Every worker that holds a claim took it at most `staleMs` ago. */
  predicate Timely(world: World, s: State) {
    forall w :: w in s.workers && s.workers[w].pc.Busy? && s.workers[w].pc.since.Some? ==>
      s.tables.clock <= s.workers[w].pc.since.value + world.staleMs
  }

  /** As long as workers finish within the stale threshold, the reaper never takes a job from a live one. */
  lemma ReaperSparesTheLiving(world: World, s: State, id: RawId, w: nat)
    requires Reachable(world, s) && Timely(world, s)
    requires s.PcAt(w).Busy? && s.PcAt(w).job.id == id && s.PcAt(w).since.Some?
    ensures !ReapHits(world, s.tables, id)
  {
    ReachableKeeps(world, s);
    assert WorkerOk(world, s.tables, s.workers[w]);
  }

  /**
   No two reapers, however they interleave with everything else, ever return the same claim:
   what this UPDATE would return was returned by no UPDATE before it.
   */
  lemma ClaimReapedOnce(world: World, s: State)
    requires Reachable(world, s)
    ensures ReapedPairs(world, s.tables) !! s.history.reaped
  {
    ReachableKeeps(world, s);
  }

  /**
   A message without a listing that is not dead is seen by the direct poll now, or will be by
   the reaper as soon as its claim is older than the threshold.
   */
  lemma NothingInvisible(world: World, s: State, id: RawId, later: nat)
    requires Reachable(world, s)
    requires id in s.tables.raws && id !in s.tables.listings
    requires id in s.tables.jobs ==>
      s.tables.jobs[id].status != Dead && s.tables.jobs[id].Stamp() + world.staleMs < later
    ensures PollVisible(s.tables.jobs, s.tables.listings, id) || ReapHits(world, s.tables.(clock := later), id)
  {
    ReachableKeeps(world, s);
  }

  /** The producer offers a message to the queue at most once, however often it is delivered to it. */
  lemma OfferedAtMostOnce(world: World, s: State)
    requires Reachable(world, s)
    ensures Distinct(s.history.offers)
    ensures forall id :: id in s.history.offers ==> id in s.tables.raws
  {
    ReachableKeeps(world, s);
  }

  // ---------------------------------------------------------------- which group name a listing gets

  /** Whether every run gives the listing of this raw row the same group name. */
  ghost predicate GroupDetermined(world: World, raw: Raw, chat: Option<string>) {
    forall s, t, i, j :: Lists(world, s, i, raw, chat) && Lists(world, t, j, raw, chat) ==>
      s.tables.listings[i].group == t.tables.listings[j].group
  }

  ghost predicate Lists(world: World, s: State, id: RawId, raw: Raw, chat: Option<string>) {
    && Reachable(world, s)
    && id in s.tables.listings && id in s.tables.raws && id in s.tables.chats
    && s.tables.raws[id] == raw && s.tables.chats[id] == chat
  }

  predicate HasStatus(s: State, id: RawId, status: Status) {
    id in s.tables.jobs && s.tables.jobs[id].status == status
  }

  /** Another look at the same payload: its text is the row's own, or it has none. */
  predicate SameText(raw: Raw, job: Job) {
    job.text == None || job.text == Some(raw.text)
  }

  /**
   A worker that has just taken a job can finish it. Whether the message was listed before or not, the listing then
   shows what is derived now, and the payload's group name where the group has none.
   */
  lemma FinishDelivery(world: World, s0: State, s: State, w: nat) returns (s': State)
    requires Leads(world, s0, s) && InPhase(s, w, Fetched)
    requires var job := s.PcAt(w).job;
      job.id in s.tables.raws && SameText(s.tables.raws[job.id], job) && Fits(world, s.tables.raws[job.id])
    ensures Leads(world, s0, s')
    ensures s'.tables.raws == s.tables.raws && s'.tables.chats == s.tables.chats && s'.sweeps == s.sweeps
    ensures var job, raw := s.PcAt(w).job, s.tables.raws[s.PcAt(w).job.id];
      && Overwritten(s.tables.listings, s'.tables.listings, job.id, raw.waGroup, NameFor(world, raw, job),
           world.derive(raw.text, raw.sender))
      && HasStatus(s', job.id, Done)
  {
    var s1 := DoClaim(s, w);
    assert Step(world, s, Claim(w)) == s1;
    LeadsOn(world, s0, s, Claim(w));
    var s2 := DoRead(world, s1, w);
    assert Step(world, s1, Read(w)) == s2;
    LeadsOn(world, s0, s1, Read(w));
    s' := WriteOut(world, s0, s2, w);
  }

  lemma WriteOut(world: World, s0: State, s: State, w: nat) returns (s': State)
    requires Leads(world, s0, s) && s.PcAt(w).Busy? && s.PcAt(w).phase.Derived? && !Refused(world, s, w)
    requires var id := s.PcAt(w).job.id; id in s.tables.jobs && s.PcAt(w).phase.listing.id == id
    ensures Leads(world, s0, s')
    ensures s'.tables.raws == s.tables.raws && s'.tables.chats == s.tables.chats && s'.sweeps == s.sweeps
    ensures var l := s.PcAt(w).phase.listing;
      && Overwritten(s.tables.listings, s'.tables.listings, l.id, l.waGroup, l.group, l.columns)
      && HasStatus(s', l.id, Done)
  {
    var s1 := DoStore(world, s, w);
    assert Step(world, s, Store(w)) == s1;
    LeadsOn(world, s0, s, Store(w));
    s' := DoFinish(s1, w);
    assert Step(world, s1, Finish(w)) == s';
    LeadsOn(world, s0, s1, Finish(w));
  }

  /** The message has just been stored; nothing else has happened. */
  lemma Stored(world: World, raw: Raw, chat: Option<string>) returns (s: State)
    ensures Leads(world, Start, s)
    ensures s.tables.raws == map[0 := raw] && s.tables.chats == map[0 := chat]
    ensures s.tables.jobs == map[] && s.tables.listings == map[] && s.queue == [] && s.workers == map[]
    ensures s.sweeps == map[] && s.producers == map[0 := Job(0, Some(raw.text), chat)]
  {
    var e := Insert(0, 0, raw.user, raw.message, raw.waGroup, Some(raw.text), raw.sender, raw.received, chat);
    s := DoInsert(Start, e);
    assert Step(world, Start, e) == s;
    LeadsNowhere(world, Start);
    LeadsOn(world, Start, Start, e);
  }

  lemma Dequeued(world: World, s0: State, s: State, job: Job) returns (s': State)
    requires Leads(world, s0, s) && s.queue == [job] && s.PcAt(0) == Idle && s.WorkerAt(0).rest == []
    ensures Leads(world, s0, s') && s'.tables == s.tables && s'.sweeps == s.sweeps
    ensures s'.PcAt(0) == Busy(job, false, Fetched, None)
  {
    s' := DoDequeue(s, 0);
    assert Step(world, s, Dequeue(0)) == s';
    LeadsOn(world, s0, s, Dequeue(0));
  }

  /** Through the queue, with the producer's payload. */
  lemma QueueRun(world: World, raw: Raw, chat: Option<string>) returns (s: State)
    requires Fits(world, raw)
    ensures Lists(world, s, 0, raw, chat) && s.tables.listings[0].group == Or(GroupOf(world, raw), chat)
    ensures s.tables.listings[0].columns == world.derive(raw.text, raw.sender) && s.sweeps == map[]
  {
    var s0 := Stored(world, raw, chat);
    var s1 := DoOffer(s0, 0);
    assert Step(world, s0, Offer(0)) == s1;
    LeadsOn(world, Start, s0, Offer(0));
    var s2 := Dequeued(world, Start, s1, Job(0, Some(raw.text), chat));
    s := FinishDelivery(world, Start, s2, 0);
    LedIsReachable(world, s);
  }

  /** A direct poll of one message has its worker hold it without a payload. */
  lemma Polled(world: World, s0: State, s: State, id: RawId) returns (s': State)
    requires Leads(world, s0, s) && s.workers == map[]
    requires id in s.tables.raws && PollVisible(s.tables.jobs, s.tables.listings, id)
    ensures Leads(world, s0, s') && s'.tables == s.tables
    ensures s'.PcAt(0) == Busy(Job(id, None, None), true, Fetched, None)
  {
    var s1 := PolledBatch(world, s0, s, id);
    s' := DoPollNext(s1, 0);
    assert Step(world, s1, PollNext(0)) == s';
    LeadsOn(world, s0, s1, PollNext(0));
  }

  lemma PolledBatch(world: World, s0: State, s: State, id: RawId) returns (s': State)
    requires Leads(world, s0, s) && s.workers == map[]
    requires id in s.tables.raws && PollVisible(s.tables.jobs, s.tables.listings, id)
    ensures Leads(world, s0, s') && s'.tables == s.tables && s'.WorkerAt(0) == Worker(Idle, [id])
  {
    s' := DoPoll(s, 0, [id]);
    assert Step(world, s, Poll(0, [id])) == s';
    LeadsOn(world, s0, s, Poll(0, [id]));
  }

  /** Through the direct poll, which carries no payload. */
  lemma PollRun(world: World, raw: Raw, chat: Option<string>) returns (s: State)
    requires Fits(world, raw)
    ensures Lists(world, s, 0, raw, chat) && s.tables.listings[0].group == Or(GroupOf(world, raw), None)
  {
    var s0 := Stored(world, raw, chat);
    var s1 := Polled(world, Start, s0, 0);
    s := FinishDelivery(world, Start, s1, 0);
    LedIsReachable(world, s);
  }

  lemma RecoverOne(world: World, s0: State, s: State, id: RawId) returns (s': State)
    requires Leads(world, s0, s) && s.PcAt(0) == Idle && id in s.tables.raws && id !in s.tables.listings
    ensures Leads(world, s0, s') && s'.tables == s.tables && s'.queue == s.queue
    ensures s'.WorkerAt(0) == Worker(Requeueing([id]), s.WorkerAt(0).rest)
  {
    s' := DoRecover(s, 0, [id]);
    assert Step(world, s, Recover(0, [id])) == s';
    LeadsOn(world, s0, s, Recover(0, [id]));
  }

  lemma RequeueOne(world: World, s0: State, s: State, id: RawId) returns (s': State)
    requires Leads(world, s0, s) && s.PcAt(0) == Requeueing([id]) && id in s.tables.raws
    ensures Leads(world, s0, s') && s'.tables == s.tables
    ensures s'.queue == [Mirrored(world, s.tables.raws[id], id)] + s.queue
    ensures s'.WorkerAt(0) == Worker(Requeueing([]), s.WorkerAt(0).rest)
  {
    assert [id][1..] == [];
    s' := DoRequeue(world, s, 0);
    assert Step(world, s, Requeue(0)) == s';
    LeadsOn(world, s0, s, Requeue(0));
  }

  /** Startup recovery of an unlisted message puts its payload back into the queue. */
  lemma Reenqueued(world: World, s0: State, s: State, id: RawId) returns (s': State)
    requires Leads(world, s0, s) && s.queue == [] && s.PcAt(0) == Idle && s.WorkerAt(0).rest == []
    requires id in s.tables.raws && id !in s.tables.listings
    ensures Leads(world, s0, s') && s'.tables == s.tables && s'.PcAt(0) == Requeueing([]) && s'.WorkerAt(0).rest == []
    ensures s'.queue == [Mirrored(world, s.tables.raws[id], id)]
  {
    var s1 := RecoverOne(world, s0, s, id);
    s' := RequeueOne(world, s0, s1, id);
  }

  /** It is taken from there by the worker that recovered it. */
  lemma Recovered(world: World, s0: State, s: State, id: RawId) returns (s': State)
    requires Leads(world, s0, s) && s.queue == [] && s.PcAt(0) == Idle && s.WorkerAt(0).rest == []
    requires id in s.tables.raws && id !in s.tables.listings
    ensures Leads(world, s0, s') && s'.tables == s.tables
    ensures s'.PcAt(0) == Busy(Mirrored(world, s.tables.raws[id], id), false, Fetched, None)
  {
    var s1 := Reenqueued(world, s0, s, id);
    var s2 := DoRequeue(world, s1, 0);
    assert Step(world, s1, Requeue(0)) == s2;
    LeadsOn(world, s0, s1, Requeue(0));
    s' := Dequeued(world, s0, s2, Mirrored(world, s.tables.raws[id], id));
  }

  /** Through startup recovery, whose payload repeats the monitored group's name. */
  lemma RecoveryRun(world: World, raw: Raw, chat: Option<string>) returns (s: State)
    requires Fits(world, raw)
    ensures Lists(world, s, 0, raw, chat) && s.tables.listings[0].group == Or(GroupOf(world, raw), GroupOf(world, raw))
  {
    var s0 := Stored(world, raw, chat);
    var s1 := Recovered(world, Start, s0, 0);
    s := FinishDelivery(world, Start, s1, 0);
    LedIsReachable(world, s);
  }

  /**
   The group name depends on the path a message takes, whatever the parser is: it gets the same name in
   every run exactly when its group is monitored under a non-empty name, or when neither the group nor the
   payload has any name, or when its columns refuse it, so that no run lists it.
   */
  lemma GroupNameConfluence(world: World, raw: Raw, chat: Option<string>)
    ensures GroupDetermined(world, raw, chat)
      <==> (Truthy(GroupOf(world, raw)) || (GroupOf(world, raw) == None && chat == None) || !Fits(world, raw))
  {
    if !Fits(world, raw) {
      NeverLists(world, raw, chat);
    } else if Truthy(GroupOf(world, raw)) || (GroupOf(world, raw) == None && chat == None) {
      forall s, id | Lists(world, s, id, raw, chat)
        ensures s.tables.listings[id].group == Or(GroupOf(world, raw), GroupOf(world, raw))
      {
        ListingsAreDerivations(world, s);
      }
    } else {
      var q := QueueRun(world, raw, chat);
      var p := PollRun(world, raw, chat);
      var r := RecoveryRun(world, raw, chat);
      assert q.tables.listings[0].group != p.tables.listings[0].group
          || r.tables.listings[0].group != p.tables.listings[0].group;
    }
  }

  lemma NeverLists(world: World, raw: Raw, chat: Option<string>)
    requires !Fits(world, raw)
    ensures forall s, id :: !Lists(world, s, id, raw, chat)
  {
    forall s, id ensures !Lists(world, s, id, raw, chat) {
      if Lists(world, s, id, raw, chat) { RefusedIsNeverListed(world, s, id); }
    }
  }

  /** Some run from this state lists the message and completes its job. */
  ghost predicate CanBeListed(world: World, s: State, id: RawId) {
    exists s' :: Leads(world, s, s') && id in s'.tables.listings && HasStatus(s', id, Done)
  }

  /**
   Dead letters are not final: a restart finds a dead message that has no listing and can complete it, exactly
   when the columns can hold what is derived from it.
   */
  lemma DeadIsNotFinal(world: World, s: State, id: RawId)
    requires Reachable(world, s) && HasStatus(s, id, Dead) && id !in s.tables.listings
    requires s.queue == [] && s.PcAt(0) == Idle && s.WorkerAt(0).rest == []
    ensures id in s.tables.raws && (CanBeListed(world, s, id) <==> Fits(world, s.tables.raws[id]))
  {
    ReachableKeeps(world, s);
    if Fits(world, s.tables.raws[id]) {
      LeadsNowhere(world, s);
      var s1 := Recovered(world, s, s, id);
      var s2 := FinishDelivery(world, s, s1, 0);
    } else {
      forall s' | Leads(world, s, s') ensures id !in s'.tables.listings {
        RefusedFromHere(world, s, s', id);
      }
    }
  }

  lemma RefusedFromHere(world: World, s: State, s': State, id: RawId)
    requires Reachable(world, s) && Leads(world, s, s') && id in s.tables.raws && !Fits(world, s.tables.raws[id])
    ensures id !in s'.tables.listings
  {
    var run :| RunFrom(world, s, run) == s';
    IdentityPersists(world, s, run);
    RefusedIsNeverListed(world, s', id);
  }
}
