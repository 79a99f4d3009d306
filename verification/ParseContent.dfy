/**
 What a listing says: whether every run gives a message the same columns, for any parser and any batch
 pass, and for those of the repository.
 */
module ParseContent {
  import opened Values
  import opened Normalize
  import opened Merge
  import opened Reprocess
  import opened ParseProtocol
  import opened ParseSafety
  import opened ParseTheorems

  /** A batch pass over the fresh derivation of this row writes it back as it is. */
  predicate PassAgreesOn(world: World, raw: Raw) {
    world.sweep(world.derive(raw.text, raw.sender), raw.text) == world.derive(raw.text, raw.sender)
  }

  lemma {:induction false} PassesStay(world: World, raw: Raw, n: nat)
    requires PassAgreesOn(world, raw)
    ensures Passes(world, raw, n) == world.derive(raw.text, raw.sender)
  {
    if n > 0 { PassesStay(world, raw, n - 1); }
  }

  /** Then whatever happens to the message, its listing is its derivation. */
  lemma ColumnsAreDerivation(world: World, s: State, id: RawId)
    requires Reachable(world, s) && id in s.tables.listings && id in s.tables.raws
    requires PassAgreesOn(world, s.tables.raws[id])
    ensures s.tables.listings[id].columns == world.derive(s.tables.raws[id].text, s.tables.raws[id].sender)
  {
    ListingsAreDerivations(world, s);
    var raw := s.tables.raws[id];
    var n: nat :| s.tables.listings[id].columns == Passes(world, raw, n);
    PassesStay(world, raw, n);
  }

  // ---------------------------------------------------------------- runs without the batch tool

  /** Nobody runs the normalising batch tool. */
  predicate NoBatchTool(run: seq<Event>) {
    forall i :: 0 <= i < |run| ==> !run[i].SweepRead?
  }

  /** The same system with a batch pass that leaves rows alone. */
  function Untouched(world: World): World {
    world.(sweep := (columns, text) => columns)
  }

  lemma ReapIgnoresPass(world: World, t: Tables)
    ensures ReapSql(Untouched(world), t.jobs, t.clock) == ReapSql(world, t.jobs, t.clock)
    ensures ReapedPairs(Untouched(world), t) == ReapedPairs(world, t)
  {
    var a, b := ReapedPairs(Untouched(world), t), ReapedPairs(world, t);
    forall r ensures r in a <==> r in b {
    }
  }

  lemma DeliveryIgnoresPass(world: World, s: State, e: Event)
    requires e.Read? || e.Store? || e.RecordFailure?
    ensures Step(Untouched(world), s, e) == Step(world, s, e)
  {
  }

  lemma OrderIgnoresPass(world: World, t: Tables, order: seq<RawId>)
    ensures ReapOrder(Untouched(world), t, order) == ReapOrder(world, t, order)
  {
    assert forall id :: ReapHits(Untouched(world), t, id) == ReapHits(world, t, id);
  }

  lemma ReaperIgnoresPass(world: World, s: State, e: Event)
    requires e.Reap?
    ensures Step(Untouched(world), s, e) == Step(world, s, e)
  {
    ReapIgnoresPass(world, s.tables);
    OrderIgnoresPass(world, s.tables, e.order);
  }

  lemma StepIgnoresPass(world: World, s: State, e: Event)
    requires !e.SweepRead?
    ensures Step(Untouched(world), s, e) == Step(world, s, e)
  {
    if e.Read? || e.Store? || e.RecordFailure? {
      DeliveryIgnoresPass(world, s, e);
    } else if e.Reap? {
      ReaperIgnoresPass(world, s, e);
    }
  }

  lemma {:induction false} RunIgnoresPass(world: World, run: seq<Event>)
    requires NoBatchTool(run)
    ensures Run(Untouched(world), run) == Run(world, run)
  {
    if run != [] {
      RunIgnoresPass(world, run[..|run| - 1]);
      StepIgnoresPass(world, Run(world, run[..|run| - 1]), run[|run| - 1]);
    }
  }

  /**
   Confluence of the pipeline itself: for any number of workers, interleavings, crashes, duplicate deliveries,
   retries, reaps and recoveries, every listing equals the derivation of its raw row, for every parser.
   */
  lemma PipelineIsConfluent(world: World, run: seq<Event>, id: RawId)
    requires NoBatchTool(run) && id in Run(world, run).tables.listings
    ensures var t := Run(world, run).tables;
      id in t.raws && t.listings[id].columns == world.derive(t.raws[id].text, t.raws[id].sender)
  {
    var still, s := Untouched(world), Run(world, run);
    RunIgnoresPass(world, run);
    assert Run(still, run) == s && Reachable(still, s);
    ListingsAreDerivations(still, s);
    ColumnsAreDerivation(still, s, id);
  }

  // ---------------------------------------------------------------- with the batch tool

  /** Whether every run gives the listing of this raw row the same columns. */
  ghost predicate ColumnsDetermined(world: World, raw: Raw, chat: Option<string>) {
    forall s, t, i, j :: Lists(world, s, i, raw, chat) && Lists(world, t, j, raw, chat) ==>
      s.tables.listings[i].columns == t.tables.listings[j].columns
  }

  lemma SweepReadStep(world: World, s: State) returns (s': State)
    requires Reachable(world, s) && 0 in s.tables.listings && 0 in s.tables.raws && s.sweeps == map[]
    ensures Reachable(world, s') && s'.tables == s.tables && 0 in s'.sweeps
    ensures s'.sweeps[0].id == 0
    ensures s'.sweeps[0].columns == world.sweep(s.tables.listings[0].columns, s.tables.raws[0].text)
  {
    s' := DoSweepRead(world, s, 0, 0);
    assert Step(world, s, SweepRead(0, 0)) == s';
    ReachableStep(world, s, SweepRead(0, 0));
  }

  lemma SweepWriteStep(world: World, s: State) returns (s': State)
    requires Reachable(world, s) && 0 in s.tables.listings && 0 in s.sweeps && s.sweeps[0].id == 0
    ensures Reachable(world, s') && s'.tables.raws == s.tables.raws && s'.tables.chats == s.tables.chats
    ensures 0 in s'.tables.listings && s'.tables.listings[0].columns == s.sweeps[0].columns
  {
    s' := DoSweepWrite(s, 0);
    assert Step(world, s, SweepWrite(0)) == s';
    ReachableStep(world, s, SweepWrite(0));
  }

  /** Through the queue, and then through one batch pass. */
  lemma SweptRun(world: World, raw: Raw, chat: Option<string>) returns (s: State)
    requires Fits(world, raw)
    ensures Lists(world, s, 0, raw, chat)
    ensures s.tables.listings[0].columns == world.sweep(world.derive(raw.text, raw.sender), raw.text)
  {
    var s0 := QueueRun(world, raw, chat);
    var s1 := SweepReadStep(world, s0);
    s := SweepWriteStep(world, s1);
  }

  /**
   All runs, with batch passes at any time, agree on the columns exactly when one pass agrees with the derivation,
   or no run lists the message, as the columns refuse it.
   */
  lemma ColumnsConfluence(world: World, raw: Raw, chat: Option<string>)
    ensures ColumnsDetermined(world, raw, chat) <==> (PassAgreesOn(world, raw) || !Fits(world, raw))
  {
    if !Fits(world, raw) {
      NeverLists(world, raw, chat);
    } else if PassAgreesOn(world, raw) {
      forall s, id | Lists(world, s, id, raw, chat)
        ensures s.tables.listings[id].columns == world.derive(raw.text, raw.sender)
      {
        ColumnsAreDerivation(world, s, id);
      }
    } else {
      var q := QueueRun(world, raw, chat);
      var r := SweptRun(world, raw, chat);
      assert q.tables.listings[0].columns != r.tables.listings[0].columns;
    }
  }

  // ---------------------------------------------------------------- the real derivation

  /** What the language models answer for a text: fixed during a run. */
  datatype Model = Model(first: First, gemini: Option<Answer>, agreed: nat, again: Option<Answer>)

  function Ratio(agreed: nat): real {
    if agreed >= 13 then 1.0 else agreed as real / 13.0
  }

  function Parsing(ex: Extractors, models: string -> Model, text: string, sender: Option<string>): Parsed {
    var m := models(text);
    Parse(ex, m.first, m.gemini, Ratio(m.agreed), m.again, text, sender)
  }

  /** The system with the parser, the normaliser and the batch pass of the other modules in it. */
  function RealWorld(ex: Extractors, models: string -> Model, names: (nat, nat) -> Option<string>,
                     maxAttempts: nat, retryMs: nat, staleMs: nat): World
  {
    World((text, sender) => LiveRow(ex, Parsing(ex, models, text, sender), text),
          (row, text) => Rewritten(ex, row, text),
          row => ColumnsHold(row),
          names, ex.rawGroupId, maxAttempts, retryMs, staleMs)
  }

  lemma RealPasses(ex: Extractors, models: string -> Model, text: string, sender: Option<string>)
    requires |text| < 4 ==> ex.parking(text) == 0
    ensures var p := Parsing(ex, models, text, sender); var row := LiveRow(ex, p, text);
      && (Rewritten(ex, row, text) == row <==>
        (p.isListing == Some(false) || PriceSurvives(ex, Backfill(ex, p.facts, text))))
      && Rewritten(ex, Rewritten(ex, row, text), text) == Rewritten(ex, row, text)
  {
    var m := models(text);
    PipelineAgrees(ex, m.first, m.gemini, Ratio(m.agreed), m.again, text, sender);
  }

  /**
   For the repository's own parser, batch tool and columns: all runs agree exactly when the message was refused,
   or its price survives, or its columns cannot hold the row.
   */
  lemma RealColumnsConfluence(ex: Extractors, models: string -> Model, world: World, raw: Raw, chat: Option<string>)
    requires world == RealWorld(ex, models, world.groupName, world.maxAttempts, world.retryMs, world.staleMs)
    requires |raw.text| < 4 ==> ex.parking(raw.text) == 0
    ensures var p := Parsing(ex, models, raw.text, raw.sender);
      ColumnsDetermined(world, raw, chat)
      <==> (|| p.isListing == Some(false) || PriceSurvives(ex, Backfill(ex, p.facts, raw.text))
            || !ColumnsHold(LiveRow(ex, p, raw.text)))
  {
    ColumnsConfluence(world, raw, chat);
    RealPasses(ex, models, raw.text, raw.sender);
  }

  lemma {:induction false} PassesAfterOne(world: World, raw: Raw, n: nat)
    requires var once := world.sweep(world.derive(raw.text, raw.sender), raw.text); world.sweep(once, raw.text) == once
    requires n >= 1
    ensures Passes(world, raw, n) == world.sweep(world.derive(raw.text, raw.sender), raw.text)
  {
    if n > 1 {
      PassesAfterOne(world, raw, n - 1);
    } else {
      assert Passes(world, raw, 0) == world.derive(raw.text, raw.sender);
    }
  }

  /** Even otherwise a listing has at most two contents in all runs: its derivation, and one batch pass over it. */
  lemma AtMostTwoContents(ex: Extractors, models: string -> Model, world: World, s: State, id: RawId)
    requires world == RealWorld(ex, models, world.groupName, world.maxAttempts, world.retryMs, world.staleMs)
    requires Reachable(world, s) && id in s.tables.listings && id in s.tables.raws
    requires |s.tables.raws[id].text| < 4 ==> ex.parking(s.tables.raws[id].text) == 0
    ensures var raw := s.tables.raws[id]; var first := world.derive(raw.text, raw.sender);
      s.tables.listings[id].columns == first || s.tables.listings[id].columns == world.sweep(first, raw.text)
  {
    var raw := s.tables.raws[id];
    ListingsAreDerivations(world, s);
    RealPasses(ex, models, raw.text, raw.sender);
    var n: nat :| s.tables.listings[id].columns == Passes(world, raw, n);
    if n >= 1 { PassesAfterOne(world, raw, n); }
  }
}
