/**
 The listings row as the worker writes it (src/worker/parseWorker.js) and as the
 batch tool re-derives it (src/ops/reprocess.js, runNormalize).
 */
module Reprocess {
  import opened Values
  import opened Normalize
  import opened Merge
  import Doubles

  // ---------------------------------------------------------------- NUMERIC columns

  /** Rounding to whole units, half away from zero, as PostgreSQL's NUMERIC does. */
  function RoundUnits(x: real): int {
    if x >= 0.0 then (x + 0.5).Floor else -((-x + 0.5).Floor)
  }

  /** NUMERIC(14,2), the price column. */
  function Cents(x: real): real {
    RoundUnits(x * 100.0) as real / 100.0
  }

  /** NUMERIC(4,3), the confidence column. */
  function Thousandths(x: real): real {
    RoundUnits(x * 1000.0) as real / 1000.0
  }

  /** NUMERIC(3,1), the bedrooms column. */
  function Tenths(x: real): real {
    RoundUnits(x * 10.0) as real / 10.0
  }

  function Stored(x: Option<real>, column: real -> real): Option<real> {
    if x.None? then None else Some(column(x.value))
  }

  // ---------------------------------------------------------------- rows

  /** The columns of `listings` that the two writers touch and the batch pass reads back. */
  datatype Columns = Columns(
    intent: Option<string>,
    unitType: Option<string>,
    bedrooms: Option<real>,
    areaSqft: Option<real>,
    price: Option<real>,
    currency: Option<string>,
    rentPeriod: Option<string>,
    areaText: Option<string>,
    community: Option<string>,
    furnished: Option<string>,
    amenities: seq<string>,
    agentPhone: Option<string>,
    agentName: Option<string>,
    confidence: real,
    reason: Option<Reason>)

  /** The parameter list of the worker's UPSERT. */
  function Written(p: Parsed): Columns {
    var f := p.facts;
    Columns(OrNull(f.intent), OrNull(f.unitType), Stored(f.bedrooms, Tenths), f.areaSqft,
            Stored(f.price, Cents), f.currency, OrNull(f.rentPeriod),
            OrNull(Or(f.areaText, f.location)), OrNull(Or(f.community, f.location)),
            OrNull(f.furnished), f.amenities.GetOr([]), OrNull(f.agentPhone), OrNull(f.agentName),
            Thousandths(p.confidence.GetOr(0.0)), p.reason)
  }

  /** The object `runNormalize` rebuilds from a row and its raw text. */
  function Reloaded(ex: Extractors, row: Columns, text: string): Parsed {
    Parsed(Facts(row.intent, None, row.bedrooms, row.areaSqft, row.price, row.currency, row.rentPeriod,
                 row.community, row.areaText, OrNull(Or(row.community, row.areaText)),
                 row.furnished, Some(row.amenities), row.agentPhone, row.agentName, ex.parking(text)),
           None, Some(row.confidence), row.reason)
  }

  /** `changed` on text columns: numeric when both sides read as numbers. */
  predicate TextChanged(ex: Extractors, before: Option<string>, after: Option<string>) {
    if before.Some? && after.Some? && ex.asNumber(before.value).Some? && ex.asNumber(after.value).Some?
    then ex.asNumber(before.value) != ex.asNumber(after.value)
    else before != after
  }

  /** `changed` on arrays: the order does not matter. */
  predicate BagChanged(before: seq<string>, after: seq<string>) {
    multiset(before) != multiset(after)
  }

  predicate RowChanged(ex: Extractors, row: Columns, p: Parsed) {
    || row.price != p.facts.price
    || TextChanged(ex, row.furnished, p.facts.furnished)
    || BagChanged(row.amenities, p.facts.amenities.GetOr([]))
    || TextChanged(ex, row.community, p.facts.community)
    || TextChanged(ex, row.areaText, p.facts.areaText)
    || Some(row.confidence) != p.confidence
    || row.reason != p.reason
  }

  /** The UPDATE of `runNormalize`. */
  function Updated(row: Columns, p: Parsed): Columns {
    row.(price := Stored(p.facts.price, Cents), currency := p.facts.currency, furnished := OrNull(p.facts.furnished),
         amenities := p.facts.amenities.GetOr([]), areaText := OrNull(p.facts.areaText),
         community := OrNull(p.facts.community), confidence := Thousandths(p.confidence.GetOr(0.0)), reason := p.reason)
  }

  /**
   What PostgreSQL can put into the columns: NUMERIC(3,1), INT, NUMERIC(14,2) and NUMERIC(4,3); more than that is an
   error.
   */
  predicate ColumnsHold(row: Columns) {
    && (row.bedrooms.Some? ==> -100.0 < row.bedrooms.value < 100.0)
    && (row.areaSqft.Some? ==>
          row.areaSqft.value == row.areaSqft.value.Floor as real
            && -2_147_483_648.0 <= row.areaSqft.value <= 2_147_483_647.0)
    && (row.price.Some? ==> -1_000_000_000_000.0 < row.price.value < 1_000_000_000_000.0)
    && -10.0 < row.confidence < 10.0
  }

  predicate SweepChanges(ex: Extractors, row: Columns, text: string) {
    RowChanged(ex, row, Normalized(ex, Reloaded(ex, row, text), text))
  }

  /** What `runNormalize` writes for a row when it writes. */
  function Rewritten(ex: Extractors, row: Columns, text: string): Columns {
    Updated(row, Normalized(ex, Reloaded(ex, row, text), text))
  }

  /** The columns of one row through `runNormalize`, when nothing else about the row changes. */
  function Swept(ex: Extractors, row: Columns, text: string): Columns {
    if SweepChanges(ex, row, text) then Rewritten(ex, row, text) else row
  }

  /** A function applied some number of times. */
  function Times<T>(f: T -> T, x: T, n: nat): T {
    if n == 0 then x else f(Times(f, x, n - 1))
  }

  lemma {:induction false} FixpointStays<T>(f: T -> T, x: T, n: nat)
    requires f(x) == x
    ensures Times(f, x, n) == x
  {
    if n > 0 { FixpointStays(f, x, n - 1); }
  }

  lemma {:induction false} InvariantStays<T(!new)>(f: T -> T, inv: T -> bool, x: T, n: nat)
    requires inv(x) && forall y :: inv(y) ==> inv(f(y))
    ensures inv(Times(f, x, n))
  {
    if n > 0 { InvariantStays(f, inv, x, n - 1); }
  }

  /** A row after a number of passes. */
  function SweptTimes(ex: Extractors, row: Columns, text: string, times: nat): Columns {
    Times(r => Swept(ex, r, text), row, times)
  }

  /** Normalising the stored row again would not raise its confidence, or the row is hidden anyway. */
  predicate Steady(ex: Extractors, row: Columns, text: string) {
    row.reason.Some? || Confidence(ex, Reloaded(ex, row, text).facts, text) <= row.confidence
  }

  /** What the worker stores for a parsed message. */
  function LiveRow(ex: Extractors, p: Parsed, text: string): Columns {
    Written(Normalized(ex, p, text))
  }

  // ---------------------------------------------------------------- rounding facts

  lemma RoundUnitsOfInt(k: int)
    ensures RoundUnits(k as real) == k
  {
    if k >= 0 { assert (k as real + 0.5).Floor == k; } else { assert (-(k as real) + 0.5).Floor == -k; }
  }

  lemma CentsStable(x: real)
    ensures Cents(Cents(x)) == Cents(x)
  {
    RoundUnitsOfInt(RoundUnits(x * 100.0));
  }

  lemma ThousandthsStable(x: real)
    ensures Thousandths(Thousandths(x)) == Thousandths(x) && Thousandths(0.0) == 0.0
  {
    RoundUnitsOfInt(RoundUnits(x * 1000.0));
    RoundUnitsOfInt(0);
  }

  lemma RoundUnitsMonotone(x: real, y: real)
    requires x <= y
    ensures RoundUnits(x) <= RoundUnits(y)
  {
  }

  lemma ThousandthsMonotone(x: real, y: real)
    requires x <= y
    ensures Thousandths(x) <= Thousandths(y)
  {
    RoundUnitsMonotone(x * 1000.0, y * 1000.0);
  }

  /** A number between a stored value and what was stored is stored as the same value. */
  lemma ThousandthsSandwich(x: real, c: real)
    requires Thousandths(c) <= x <= c
    ensures Thousandths(x) == Thousandths(c)
  {
    ThousandthsStable(c);
    ThousandthsMonotone(Thousandths(c), x);
    ThousandthsMonotone(x, c);
  }

  // ---------------------------------------------------------------- live and batch agree

  /** The exact condition: the column keeps the price, or neither the price nor its rounding is suspicious. */
  predicate PriceSurvives(ex: Extractors, f: Facts) {
    || f.price.None?
    || Cents(f.price.value) == f.price.value
    || (PriceVerdict(ex, f).None? && PriceVerdict(ex, f.(price := Stored(f.price, Cents))).None?)
  }

  /** `f` is what the batch pass sees after the repaired facts `b` went through the table. */
  predicate Reread(ex: Extractors, b: Facts, f: Facts, text: string) {
    RereadDetails(b, f) && RereadPresence(ex, b, f, text)
  }

  predicate RereadDetails(b: Facts, f: Facts) {
    && f.price == Stored(b.price, Cents) && f.currency == b.currency
    && f.community == OrNull(b.community) && f.areaText == OrNull(b.areaText)
    && f.location == OrNull(Or(f.community, f.areaText))
    && f.furnished == OrNull(b.furnished) && f.amenities == Some(b.amenities.GetOr([]))
    && IsRent(f) == IsRent(b)
  }

  /** Nothing that counts for the confidence has appeared on the way. */
  predicate RereadPresence(ex: Extractors, b: Facts, f: Facts, text: string) {
    && f.parking == ex.parking(text) && (f.parking != 0 ==> b.parking != 0)
    && Truthy(f.agentPhone) == Truthy(b.agentPhone) && Truthy(f.agentName) == Truthy(b.agentName)
    && (TruthyNumber(f.bedrooms) ==> TruthyNumber(b.bedrooms)) && f.areaSqft == b.areaSqft
  }

  /** Repaired facts have one place in all three fields, or none in any. */
  lemma RepairedPlace(ex: Extractors, q: Facts, text: string)
    requires Coherent(q)
    ensures var b := Backfill(ex, q, text);
      || (b.community == b.areaText == b.location && Truthy(b.location)
          && (NonLocation(ex, b.location) ==> b.location == ex.location(text)))
      || (!Truthy(b.community) && !Truthy(b.areaText) && !Truthy(b.location) && !Truthy(ex.location(text)))
  {
    var l := RepairLocation(ex, q, text);
    var b := Backfill(ex, q, text);
    assert b.community == l.community && b.areaText == l.areaText && b.location == l.location;
  }

  lemma RereadPlace(ex: Extractors, q: Facts, f: Facts, text: string)
    requires Coherent(q)
    requires Reread(ex, Backfill(ex, q, text), f, text)
    ensures RepairLocation(ex, f, text) == f
    ensures Truthy(f.location) ==> Truthy(Backfill(ex, q, text).location)
  {
    RepairedPlace(ex, q, text);
  }

  lemma RereadRest(ex: Extractors, b: Facts, f: Facts, text: string)
    requires Reread(ex, b, f, text)
    requires BackfillPrice(ex, b, text) == b && BackfillFurnished(ex, b, text) == b && UnionAmenities(ex, b, text) == b
    ensures BackfillPrice(ex, f, text) == f && BackfillFurnished(ex, f, text) == f && UnionAmenities(ex, f, text) == f
  {
  }

  /** Nothing is left to repair in facts that were repaired once and went through the table. */
  lemma RereadSettled(ex: Extractors, q: Facts, f: Facts, text: string)
    requires Coherent(q)
    requires Reread(ex, Backfill(ex, q, text), f, text)
    ensures Backfill(ex, f, text) == f
    ensures Confidence(ex, f, text) <= Confidence(ex, Backfill(ex, q, text), text)
  {
    var b := Backfill(ex, q, text);
    RereadPlace(ex, q, f, text);
    BackfillSettled(ex, q, text);
    RereadRest(ex, b, f, text);
    RereadScore(ex, b, f, text);
  }

  /** Every field of the first is in the second. */
  predicate Within(less: Present, more: Present) {
    && (less.price ==> more.price) && (less.place ==> more.place) && (less.phone ==> more.phone)
      && (less.rooms ==> more.rooms)
    && (less.area ==> more.area) && (less.name ==> more.name) && (less.furnished ==> more.furnished)
    && (less.parking ==> more.parking) && (less.wording ==> more.wording)
  }

  lemma FewerFieldsScoreNoMore(less: Present, more: Present)
    requires Within(less, more)
    ensures Doubles.Score(Weights(less)) <= Doubles.Score(Weights(more))
  {
    Doubles.ScoreMonotone(Weights(less), Weights(more));
  }

  lemma RereadScore(ex: Extractors, b: Facts, f: Facts, text: string)
    requires Reread(ex, b, f, text)
    requires Truthy(f.location) ==> Truthy(b.location)
    ensures Confidence(ex, f, text) <= Confidence(ex, b, text)
  {
    assert Cents(0.0) == 0.0;
    assert TruthyNumber(f.price) ==> TruthyNumber(b.price);
    FewerFieldsScoreNoMore(PresentIn(ex, f, text), PresentIn(ex, b, text));
  }

  /** Rounding leaves the price verdict alone exactly when the price survives the column. */
  lemma VerdictSurvives(ex: Extractors, b: Facts, f: Facts)
    requires f.price == Stored(b.price, Cents) && f.currency == b.currency && IsRent(f) == IsRent(b)
    ensures PriceVerdict(ex, b) == PriceVerdict(ex, f) <==> PriceSurvives(ex, b)
  {
    var g := b.(price := Stored(b.price, Cents));
    assert IsRent(g) == IsRent(b) && RentCurrency(ex, g) == RentCurrency(ex, b) == RentCurrency(ex, f);
    assert PriceVerdict(ex, g) == PriceVerdict(ex, f);
  }

  /** The message was refused or flagged, or its price keeps its verdict through the column. */
  predicate Agrees(ex: Extractors, p: Parsed, b: Facts) {
    p.isListing == Some(false) || (p.reason.Some? && p.reason.value.IsVerdict()) || PriceSurvives(ex, b)
  }

  /** The judgement on the reread facts gives the stored reason again exactly when the verdict survives. */
  lemma ReasonSurvives(ex: Extractors, p: Parsed, f: Facts, text: string, stored: real)
    requires RereadDetails(p.facts, f)
    ensures var n := Judge(ex, p, text);
      Judge(ex, Parsed(f, None, Some(stored), n.reason), text).reason == n.reason <==> Agrees(ex, p, p.facts)
  {
    VerdictSurvives(ex, p.facts, f);
  }

  /** Then it stores the same confidence again, though it may have raised the one it read. */
  lemma ConfidenceSurvives(ex: Extractors, p: Parsed, f: Facts, text: string)
    requires RereadDetails(p.facts, f) && Agrees(ex, p, p.facts)
    requires Confidence(ex, f, text) <= Confidence(ex, p.facts, text)
    ensures var n := Judge(ex, p, text);
      var stored := Thousandths(n.confidence.value);
      var again := Judge(ex, Parsed(f, None, Some(stored), n.reason), text);
      && again.confidence.Some? && Thousandths(again.confidence.value) == stored
      && (again.confidence == Some(stored) <==> n.reason.Some? || Confidence(ex, f, text) <= stored)
  {
    var n := Judge(ex, p, text);
    var stored := Thousandths(n.confidence.value);
    ReasonSurvives(ex, p, f, text, stored);
    ThousandthsStable(n.confidence.value);
    if n.reason.None? && Confidence(ex, f, text) > stored {
      ThousandthsSandwich(Confidence(ex, f, text), n.confidence.value);
    }
  }

  /** What the batch pass makes of a live row: the judgement on what it rereads. */
  lemma LiveRejudged(ex: Extractors, p: Parsed, text: string)
    requires Fit(ex, p, text)
    ensures var q := p.(facts := Backfill(ex, p.facts, text)); var row := LiveRow(ex, p, text);
      var r := Reloaded(ex, row, text);
      && row == Written(Judge(ex, q, text)) && RereadDetails(q.facts, r.facts)
      && Confidence(ex, r.facts, text) <= Confidence(ex, q.facts, text)
      && Normalized(ex, r, text) == Judge(ex, r, text) && Judge(ex, r, text).facts == r.facts
  {
    var q := p.(facts := Backfill(ex, p.facts, text));
    JudgeIdempotent(ex, q, text);
    var r := Reloaded(ex, LiveRow(ex, p, text), text);
    LiveReread(ex, p, Judge(ex, q, text), text);
    RereadSettled(ex, p.facts, r.facts, text);
    JudgeIdempotent(ex, r, text);
  }

  /**
   Live/batch agreement. A record from the live pipeline, stored and later re-derived by the batch tool, is
   reported unchanged exactly when, first, the model refused it or its price survives its column, and, second,
   it is hidden or the recomputed confidence is not above the stored one. The second half can fail because the
   sum of the weights is one of doubles. (The tool's header promises agreement without either condition.)
   */
  lemma LiveBatchAgree(ex: Extractors, p: Parsed, text: string)
    requires Fit(ex, p, text)
    ensures var row := LiveRow(ex, p, text);
      !SweepChanges(ex, row, text)
      <==> (p.isListing == Some(false) || PriceSurvives(ex, Backfill(ex, p.facts, text))) && Steady(ex, row, text)
  {
    var q := p.(facts := Backfill(ex, p.facts, text));
    var row := LiveRow(ex, p, text);
    var r := Reloaded(ex, row, text);
    LiveRejudged(ex, p, text);
    ReasonSurvives(ex, q, r.facts, text, row.confidence);
    if Agrees(ex, q, q.facts) { ConfidenceSurvives(ex, q, r.facts, text); }
    OnlyJudgementChanges(ex, row, Judge(ex, r, text), text);
  }

  /** Whatever it reports, what the batch tool writes is the live row again, exactly under the first condition alone. */
  lemma LiveRowIsFixpoint(ex: Extractors, p: Parsed, text: string)
    requires Fit(ex, p, text)
    ensures var row := LiveRow(ex, p, text);
      Rewritten(ex, row, text) == row <==>
        (p.isListing == Some(false) || PriceSurvives(ex, Backfill(ex, p.facts, text)))
  {
    var q := p.(facts := Backfill(ex, p.facts, text));
    var row := LiveRow(ex, p, text);
    var r := Reloaded(ex, row, text);
    LiveRejudged(ex, p, text);
    LiveRowWellWritten(ex, p, text);
    ReasonSurvives(ex, q, r.facts, text, row.confidence);
    if Agrees(ex, q, q.facts) { ConfidenceSurvives(ex, q, r.facts, text); }
    UpdatedOnlyInJudgement(ex, row, Judge(ex, r, text), text);
  }

  /** The values a row can hold in its NUMERIC and text columns once some code of the repository has written it. */
  predicate WellWritten(row: Columns) {
    && row.price == Stored(row.price, Cents) && row.furnished == OrNull(row.furnished)
    && row.community == OrNull(row.community) && row.areaText == OrNull(row.areaText)
  }

  lemma UpdatedOnlyInJudgement(ex: Extractors, row: Columns, n: Parsed, text: string)
    requires n.facts == Reloaded(ex, row, text).facts && n.confidence.Some? && WellWritten(row)
    ensures Updated(row, n) == row <==> Thousandths(n.confidence.value) == row.confidence && n.reason == row.reason
  {
  }

  /** When the repairs change nothing, a row changes exactly in its confidence or its reason. */
  lemma OnlyJudgementChanges(ex: Extractors, row: Columns, n: Parsed, text: string)
    requires n.facts == Reloaded(ex, row, text).facts
    ensures RowChanged(ex, row, n) <==> !(n.confidence == Some(row.confidence) && n.reason == row.reason)
  {
  }

  /**
   The disagreement on a concrete price: 7.125 is quarantined under one reason and stored as 7.13, which gives
   another.
   */
  lemma BatchDisagreesBelowTheCent(ex: Extractors, p: Parsed, text: string)
    requires Fit(ex, p, text) && p.isListing != Some(false) && p.facts.price == Some(7.125)
    ensures SweepChanges(ex, LiveRow(ex, p, text), text)
  {
    LiveBatchAgree(ex, p, text);
    var b := Backfill(ex, p.facts, text);
    assert b.price == BackfillPrice(ex, RepairLocation(ex, p.facts, text), text).price == Some(7.125);
    assert (7.125 * 100.0 + 0.5).Floor == 713;
  }

  lemma LiveReread(ex: Extractors, p: Parsed, n: Parsed, text: string)
    requires Fit(ex, p, text) && n.facts == Backfill(ex, p.facts, text)
    ensures Reread(ex, n.facts, Reloaded(ex, Written(n), text).facts, text)
  {
    RepairedPlace(ex, p.facts, text);
    assert n.facts.parking == p.facts.parking;
    assert Tenths(0.0) == 0.0;
  }

  lemma LiveRowWellWritten(ex: Extractors, p: Parsed, text: string)
    ensures WellWritten(LiveRow(ex, p, text))
  {
    var n := Normalized(ex, p, text);
    if n.facts.price.Some? { CentsStable(n.facts.price.value); }
  }

  /** Place, phone, rooms, furnishing and rental wording, and nothing else that counts. */
  predicate ScoresSeventy(ex: Extractors, b: Facts, text: string) {
    && b.price.None? && Truthy(b.location) && Truthy(b.agentPhone) && b.bedrooms == Some(2.0)
    && b.areaSqft.None? && !Truthy(b.agentName) && Truthy(b.furnished) && b.parking == 0
    && text != "" && ex.rentalSignal(text)
  }

  lemma SeventyWeights(ex: Extractors, b: Facts, text: string)
    requires ScoresSeventy(ex, b, text)
    ensures 0.7 < Confidence(ex, b, text) < 0.7005 && Thousandths(Confidence(ex, b, text)) == 0.7
  {
    var weights := Weights(PresentIn(ex, b, text));
    Doubles.SeventyScores(weights);
    StoredSeventy(Doubles.Score(weights));
  }

  lemma StoredSeventy(c: real)
    requires 0.7 < c < 0.7005
    ensures Thousandths(c) == 0.7
  {
    assert 700.5 < c * 1000.0 + 0.5 < 701.0;
    assert (c * 1000.0 + 0.5).Floor == 700;
  }

  lemma SeventyReloads(ex: Extractors, p: Parsed, text: string)
    requires Fit(ex, p, text) && ScoresSeventy(ex, Backfill(ex, p.facts, text), text)
    ensures ScoresSeventy(ex, Reloaded(ex, LiveRow(ex, p, text), text).facts, text)
  {
    var b := Backfill(ex, p.facts, text);
    assert b.parking == p.facts.parking;
    JudgeIdempotent(ex, p.(facts := b), text);
    RepairedPlace(ex, p.facts, text);
    assert Tenths(2.0) == 2.0;
  }

  /**
   The score at fault. Its sum of doubles is just above 0.7 and is stored as 0.700; every later pass, the first and
   the n-th, raises it again and reports a change, although no pass changes anything.
   */
  lemma SeventyIsReportedForEver(ex: Extractors, p: Parsed, text: string, n: nat)
    requires Fit(ex, p, text) && p.isListing != Some(false) && p.confidence.value < 0.7
    requires ScoresSeventy(ex, Backfill(ex, p.facts, text), text)
    ensures var row := LiveRow(ex, p, text);
      row.confidence == 0.7 && SweptTimes(ex, row, text, n) == row
        && SweepChanges(ex, SweptTimes(ex, row, text, n), text)
  {
    var row := LiveRow(ex, p, text);
    SeventyStored(ex, p, text);
    SeventyReloads(ex, p, text);
    SeventyWeights(ex, Reloaded(ex, row, text).facts, text);
    LiveBatchAgree(ex, p, text);
    LiveRowIsFixpoint(ex, p, text);
    FixpointStays(r => Swept(ex, r, text), row, n);
  }

  lemma SeventyStored(ex: Extractors, p: Parsed, text: string)
    requires p.isListing != Some(false) && p.reason.None? && p.confidence.Some? && p.confidence.value < 0.7
    requires ScoresSeventy(ex, Backfill(ex, p.facts, text), text)
    ensures LiveRow(ex, p, text).confidence == 0.7 && LiveRow(ex, p, text).reason == None
  {
    SeventyWeights(ex, Backfill(ex, p.facts, text), text);
  }

  // ---------------------------------------------------------------- confidence

  predicate InRange(c: real) {
    0.0 <= c <= 1.0
  }

  lemma RoundingKeepsRange(c: real)
    requires InRange(c)
    ensures InRange(Thousandths(c))
  {
    ThousandthsMonotone(0.0, c);
    ThousandthsMonotone(c, 1.0);
    RoundUnitsOfInt(0);
    RoundUnitsOfInt(1000);
  }

  /** Normalising keeps a confidence in [0, 1]. */
  lemma JudgeInRange(ex: Extractors, p: Parsed, text: string)
    requires p.confidence.Some? ==> InRange(p.confidence.value)
    ensures var n := Normalized(ex, p, text); n.confidence.Some? && InRange(n.confidence.value)
  {
    var q := p.(facts := Backfill(ex, p.facts, text));
    ScoreInRange(ex, q.facts, text);
    var raised := q.(confidence := Some(Raise(q.confidence, Confidence(ex, q.facts, text))));
    CheckedInRange(ex, raised);
  }

  lemma CheckedInRange(ex: Extractors, p: Parsed)
    requires p.confidence.Some? && InRange(p.confidence.value)
    ensures var n := SanityCheck(ex, p); n.confidence.Some? && InRange(n.confidence.value)
  {
  }

  lemma FirstInRange(ex: Extractors, first: First, text: string, sender: Option<string>)
    ensures var r := FirstResult(ex, first, text, sender); r.confidence.Some? && InRange(r.confidence.value)
  {
    ScoreInRange(ex, RegexFacts(ex, text, sender), text);
  }

  lemma ReadingInRange(ex: Extractors, first: First, gemini: Option<Answer>, ratio: real, text: string,
                       sender: Option<string>)
    requires 0.0 <= ratio <= 1.0
    ensures var r := Reading(ex, first, gemini, ratio, text, sender); r.confidence.Some? && InRange(r.confidence.value)
  {
    var groq := FirstResult(ex, first, text, sender);
    FirstInRange(ex, first, text, sender);
    if gemini.Some? {
      var m := FromLlm(ex, gemini.value, sender);
      var best := if groq.confidence.value > m.confidence.value then groq.confidence.value else m.confidence.value;
      ConsensusInRange(best, ratio);
    }
  }

  lemma ConsensusInRange(best: real, ratio: real)
    requires InRange(best) && InRange(ratio)
    ensures InRange(Consensus(best, ratio))
  {
    NonNegativeProduct(best, 0.7 + 0.6 * ratio);
  }

  lemma NonNegativeProduct(a: real, b: real)
    requires a >= 0.0 && b >= 0.0
    ensures a * b >= 0.0
  {
  }

  lemma ParseInRange(ex: Extractors, first: First, gemini: Option<Answer>, ratio: real, again: Option<Answer>,
                     text: string, sender: Option<string>)
    requires 0.0 <= ratio <= 1.0
    ensures var p := Parse(ex, first, gemini, ratio, again, text, sender);
      p.confidence.Some? && InRange(p.confidence.value)
  {
    ReadingInRange(ex, first, gemini, ratio, text, sender);
  }

  lemma LiveRowInRange(ex: Extractors, p: Parsed, text: string)
    requires p.confidence.Some? ==> InRange(p.confidence.value)
    ensures InRange(LiveRow(ex, p, text).confidence)
  {
    JudgeInRange(ex, p, text);
    RoundingKeepsRange(Normalized(ex, p, text).confidence.value);
  }

  /**
   Whatever the models answer, the stored confidence lies in [0, 1]: clamped by the output normaliser, weighted by
   the consensus, boosted by the merge, raised by the normaliser and rounded by its column; and a batch pass keeps it
   there.
   */
  lemma StoredConfidenceInRange(ex: Extractors, first: First, gemini: Option<Answer>, ratio: real,
                                again: Option<Answer>,
                                text: string, sender: Option<string>)
    requires 0.0 <= ratio <= 1.0
    ensures InRange(LiveRow(ex, Parse(ex, first, gemini, ratio, again, text, sender), text).confidence)
  {
    ParseInRange(ex, first, gemini, ratio, again, text, sender);
    LiveRowInRange(ex, Parse(ex, first, gemini, ratio, again, text, sender), text);
  }

  lemma SweptConfidenceInRange(ex: Extractors, row: Columns, text: string)
    requires InRange(row.confidence)
    ensures InRange(Swept(ex, row, text).confidence)
  {
    JudgeInRange(ex, Reloaded(ex, row, text), text);
    RoundingKeepsRange(Normalized(ex, Reloaded(ex, row, text), text).confidence.value);
  }

  // ---------------------------------------------------------------- sweeping twice

  /** The values a row can hold in its NUMERIC columns. */
  predicate Storable(row: Columns) {
    row.price == Stored(row.price, Cents) && row.confidence == Thousandths(row.confidence)
  }

  /** The row carries a verdict, or the price that a pass ends with survives its column. */
  predicate PassAgrees(ex: Extractors, row: Columns, text: string) {
    (row.reason.Some? && row.reason.value.IsVerdict())
      || PriceSurvives(ex, Backfill(ex, Reloaded(ex, row, text).facts, text))
  }

  lemma SweptDetails(ex: Extractors, row: Columns, n: Parsed, text: string)
    requires n.facts == Backfill(ex, Reloaded(ex, row, text).facts, text)
    ensures RereadDetails(n.facts, Reloaded(ex, Updated(row, n), text).facts)
  {
    RepairedPlace(ex, Reloaded(ex, row, text).facts, text);
  }

  lemma SweptPresence(ex: Extractors, row: Columns, n: Parsed, text: string)
    requires n.facts == Backfill(ex, Reloaded(ex, row, text).facts, text)
    ensures RereadPresence(ex, n.facts, Reloaded(ex, Updated(row, n), text).facts, text)
  {
  }

  /** What a second pass makes of a rewritten row. */
  lemma SweptRejudged(ex: Extractors, row: Columns, text: string)
    ensures var r := Reloaded(ex, row, text); var q := r.(facts := Backfill(ex, r.facts, text));
      var row' := Rewritten(ex, row, text); var r' := Reloaded(ex, row', text);
      && row' == Updated(row, Judge(ex, q, text)) && Judge(ex, q, text).facts == q.facts
        && RereadDetails(q.facts, r'.facts)
      && Confidence(ex, r'.facts, text) <= Confidence(ex, q.facts, text)
      && Normalized(ex, r', text) == Judge(ex, r', text) && Judge(ex, r', text).facts == r'.facts
  {
    var r := Reloaded(ex, row, text);
    var q := r.(facts := Backfill(ex, r.facts, text));
    JudgeIdempotent(ex, q, text);
    var r' := Reloaded(ex, Rewritten(ex, row, text), text);
    SweptDetails(ex, row, Judge(ex, q, text), text);
    SweptPresence(ex, row, Judge(ex, q, text), text);
    RereadSettled(ex, r.facts, r'.facts, text);
    JudgeIdempotent(ex, r', text);
  }

  lemma RewrittenWellWritten(ex: Extractors, row: Columns, text: string)
    ensures WellWritten(Rewritten(ex, row, text))
  {
    var n := Normalized(ex, Reloaded(ex, row, text), text);
    if n.facts.price.Some? { CentsStable(n.facts.price.value); }
  }

  /**
   A second batch pass right after one that wrote the row reports no change exactly when the row carries a verdict
   or its price survives its column, and it is hidden or its recomputed confidence is not above the stored one.
   */
  lemma SecondPassReports(ex: Extractors, row: Columns, text: string)
    ensures var row' := Rewritten(ex, row, text);
      !SweepChanges(ex, row', text) <==> PassAgrees(ex, row, text) && Steady(ex, row', text)
  {
    var r := Reloaded(ex, row, text);
    var q := r.(facts := Backfill(ex, r.facts, text));
    var row' := Rewritten(ex, row, text);
    var r' := Reloaded(ex, row', text);
    SweptRejudged(ex, row, text);
    ReasonSurvives(ex, q, r'.facts, text, row'.confidence);
    if Agrees(ex, q, q.facts) { ConfidenceSurvives(ex, q, r'.facts, text); }
    OnlyJudgementChanges(ex, row', Judge(ex, r', text), text);
  }

  /** It writes nothing new exactly under the first condition alone. */
  lemma SecondPassWrites(ex: Extractors, row: Columns, text: string)
    ensures var row' := Rewritten(ex, row, text);
      Rewritten(ex, row', text) == row' <==> PassAgrees(ex, row, text)
  {
    var r := Reloaded(ex, row, text);
    var q := r.(facts := Backfill(ex, r.facts, text));
    var row' := Rewritten(ex, row, text);
    var r' := Reloaded(ex, row', text);
    SweptRejudged(ex, row, text);
    RewrittenWellWritten(ex, row, text);
    ReasonSurvives(ex, q, r'.facts, text, row'.confidence);
    if Agrees(ex, q, q.facts) { ConfidenceSurvives(ex, q, r'.facts, text); }
    UpdatedOnlyInJudgement(ex, row', Judge(ex, r', text), text);
  }

  /** A row that a pass reports unchanged meets both conditions. */
  lemma QuietRowAgrees(ex: Extractors, row: Columns, text: string)
    requires Storable(row) && !SweepChanges(ex, row, text)
    ensures PassAgrees(ex, row, text) && Steady(ex, Rewritten(ex, row, text), text)
  {
    var r := Reloaded(ex, row, text);
    var q := r.(facts := Backfill(ex, r.facts, text));
    SweptRejudged(ex, row, text);
    assert Judge(ex, q, text).facts.price == row.price;
    assert Judge(ex, q, text).confidence == Some(row.confidence) && Judge(ex, q, text).reason == row.reason;
    assert q.facts.price.Some? ==> Cents(q.facts.price.value) == q.facts.price.value;
  }

  /** Batch pass idempotence, for any stored row. */
  lemma SweepIdempotent(ex: Extractors, row: Columns, text: string)
    requires Storable(row)
    ensures !SweepChanges(ex, Swept(ex, row, text), text)
      <==> PassAgrees(ex, row, text) && Steady(ex, Rewritten(ex, row, text), text)
  {
    SecondPassReports(ex, row, text);
    if !SweepChanges(ex, row, text) { QuietRowAgrees(ex, row, text); }
  }

  /** After a first pass a live row has reached its final content: no further pass writes anything new. */
  lemma LiveRowSettlesAfterOnePass(ex: Extractors, p: Parsed, text: string)
    requires Fit(ex, p, text)
    ensures var once := Rewritten(ex, LiveRow(ex, p, text), text); Rewritten(ex, once, text) == once
  {
    var row := LiveRow(ex, p, text);
    LiveRejudged(ex, p, text);
    LiveRowWellWritten(ex, p, text);
    var r := Reloaded(ex, row, text);
    assert Normalized(ex, r, text).facts == Backfill(ex, r.facts, text) by {
      var q := r.(facts := Backfill(ex, r.facts, text));
      JudgeIdempotent(ex, q, text);
    }
    assert Backfill(ex, r.facts, text).price == row.price;
    SecondPassWrites(ex, row, text);
  }

  /** The batch tool's own UPDATE of a live row is never refused. */
  lemma PassHolds(ex: Extractors, p: Parsed, text: string)
    requires Fit(ex, p, text) && ColumnsHold(LiveRow(ex, p, text))
    ensures ColumnsHold(Rewritten(ex, LiveRow(ex, p, text), text))
  {
    var row := LiveRow(ex, p, text);
    var r := Reloaded(ex, row, text);
    LiveRejudged(ex, p, text);
    LiveRowWellWritten(ex, p, text);
    ThousandthsStable(Normalized(ex, p, text).confidence.GetOr(0.0));
    ScoreInRange(ex, r.facts, text);
    RoundingKeepsRange(Confidence(ex, r.facts, text));
    assert Judge(ex, r, text).confidence in {Some(0.0), Some(row.confidence), Some(Confidence(ex, r.facts, text))};
  }

  /** A verdict, from the model or from a user, and confidence zero outlive any number of batch passes. */
  lemma VerdictSticks(ex: Extractors, row: Columns, text: string, times: nat)
    requires row.reason.Some? && row.reason.value.IsVerdict() && row.confidence == 0.0
    ensures SweptTimes(ex, row, text, times).reason == row.reason
    ensures SweptTimes(ex, row, text, times).confidence == 0.0
  {
    var pass: Columns -> Columns := r => Swept(ex, r, text);
    var hidden: Columns -> bool := (r: Columns) => r.reason == row.reason && r.confidence == 0.0;
    forall r | hidden(r) ensures hidden(pass(r)) {
      VerdictSurvivesSweep(ex, r, text);
    }
    InvariantStays(pass, hidden, row, times);
  }

  lemma VerdictSurvivesSweep(ex: Extractors, row: Columns, text: string)
    requires row.reason.Some? && row.reason.value.IsVerdict() && row.confidence == 0.0
    ensures Swept(ex, row, text).reason == row.reason && Swept(ex, row, text).confidence == 0.0
  {
    var r := Reloaded(ex, row, text);
    var q := r.(facts := Backfill(ex, r.facts, text));
    assert Normalized(ex, r, text) == Judge(ex, q, text);
    JudgeKeepsVerdict(ex, q, text);
    RoundUnitsOfInt(0);
  }

  lemma JudgeKeepsVerdict(ex: Extractors, q: Parsed, text: string)
    requires q.isListing.None? && q.reason.Some? && q.reason.value.IsVerdict()
    ensures Judge(ex, q, text).reason == q.reason && Judge(ex, q, text).confidence == Some(0.0)
  {
  }

  /** The end-to-end form: parse, normalise, store, sweep, for any answers of the models. */
  lemma PipelineAgrees(ex: Extractors, first: First, gemini: Option<Answer>, ratio: real, again: Option<Answer>,
                       text: string, sender: Option<string>)
    requires 0.0 <= ratio <= 1.0
    requires |text| < 4 ==> ex.parking(text) == 0
    ensures var p := Parse(ex, first, gemini, ratio, again, text, sender); var row := LiveRow(ex, p, text);
      && (Rewritten(ex, row, text) == row <==>
        (p.isListing == Some(false) || PriceSurvives(ex, Backfill(ex, p.facts, text))))
      && Rewritten(ex, Rewritten(ex, row, text), text) == Rewritten(ex, row, text)
  {
    var p := Parse(ex, first, gemini, ratio, again, text, sender);
    ParseFit(ex, first, gemini, ratio, again, text, sender);
    LiveRowIsFixpoint(ex, p, text);
    LiveRowSettlesAfterOnePass(ex, p, text);
  }

  // ---------------------------------------------------------------- the batch tool's loop

  /**
   A selected row of `listings`, the text of its raw message, its group's name and the name the group is monitored
   under.
   */
  datatype Row = Row(columns: Columns, text: string, group: Option<string>, monitored: Option<string>)

  /** A missing group name, or one that is a raw id, is refreshed from the monitored groups. */
  function Refreshed(rawGroupId: string -> bool, group: Option<string>, monitored: Option<string>): Option<string> {
    if (!Truthy(group) || rawGroupId(group.value)) && Truthy(monitored) then monitored else group
  }

  predicate GroupChanges(ex: Extractors, r: Row) {
    TextChanged(ex, r.group, Refreshed(ex.rawGroupId, r.group, r.monitored))
  }

  predicate RowChanges(ex: Extractors, r: Row) {
    SweepChanges(ex, r.columns, r.text) || GroupChanges(ex, r)
  }

  function SweptRow(ex: Extractors, r: Row): Row {
    if !RowChanges(ex, r) then r
    else r.(columns := Rewritten(ex, r.columns, r.text),
      group := OrNull(Refreshed(ex.rawGroupId, r.group, r.monitored)))
  }

  /** One refresh of a group name is enough. */
  lemma GroupSettles(ex: Extractors, r: Row)
    ensures !GroupChanges(ex, SweptRow(ex, r))
  {
  }

  function CountIf<T>(p: T -> bool, s: seq<T>): nat {
    if s == [] then 0 else CountIf(p, s[..|s| - 1]) + if p(s[|s| - 1]) then 1 else 0
  }

  function Mapped<T>(f: T -> T, s: seq<T>): (m: seq<T>)
    ensures |m| == |s|
    ensures forall i :: 0 <= i < |s| ==> m[i] == f(s[i])
  {
    if s == [] then [] else Mapped(f, s[..|s| - 1]) + [f(s[|s| - 1])]
  }

  lemma {:induction false} CountIfNone<T>(p: T -> bool, s: seq<T>)
    ensures CountIf(p, s) == 0 <==> forall i :: 0 <= i < |s| ==> !p(s[i])
  {
    if s != [] {
      CountIfNone(p, s[..|s| - 1]);
      assert forall i :: 0 <= i < |s| - 1 ==> s[i] == s[..|s| - 1][i];
    }
  }

  /** The rows after `k` of them were swept; a dry run leaves them all. */
  function Progress<T>(f: T -> T, s: seq<T>, k: nat, dry: bool): seq<T>
    requires k <= |s|
  {
    if dry then s else Mapped(f, s[..k]) + s[k..]
  }

  /** Replacing the first unswept row is one row more of progress, and so is leaving one that would not change. */
  lemma ProgressAdvances<T>(f: T -> T, s: seq<T>, k: nat, dry: bool)
    requires k < |s|
    ensures |Progress(f, s, k, dry)| == |s|
    ensures dry || f(s[k]) == s[k] ==> Progress(f, s, k + 1, dry) == Progress(f, s, k, dry)
    ensures !dry ==> Progress(f, s, k, dry)[k := f(s[k])] == Progress(f, s, k + 1, dry)
  {
    assert s[..k + 1][..k] == s[..k];
    assert Mapped(f, s[..k + 1]) == Mapped(f, s[..k]) + [f(s[k])];
  }

  lemma CountAdvances<T>(p: T -> bool, s: seq<T>, k: nat)
    requires k < |s|
    ensures CountIf(p, s[..k + 1]) == CountIf(p, s[..k]) + if p(s[k]) then 1 else 0
  {
    assert s[..k + 1][..k] == s[..k];
  }

  /** The rows of `listings` selected by the tool's filters. */
  class SelectedRows {
    const ex: Extractors
    var rows: seq<Row>

    constructor (ex: Extractors, rows: seq<Row>)
      ensures this.ex == ex && this.rows == rows
    {
      this.ex := ex;
      this.rows := rows;
    }

    method RederiveRow(row: Row) returns (after: Row, changed: bool)
      ensures changed == RowChanges(ex, row) && after == SweptRow(ex, row)
      ensures !changed ==> after == row
    {
      var n := Normalized(ex, Reloaded(ex, row.columns, row.text), row.text);
      var group := row.group;
      if (!Truthy(group) || ex.rawGroupId(group.value)) && Truthy(row.monitored) {
        group := row.monitored;
      }
      changed := RowChanged(ex, row.columns, n) || TextChanged(ex, row.group, group);
      after := if changed then row.(columns := Updated(row.columns, n), group := OrNull(group)) else row;
    }

    /** `runNormalize`; a dry run counts and writes nothing. */
    method RunNormalize(dryRun: bool) returns (scanned: nat, updated: nat)
      modifies this
      ensures scanned == |old(rows)|
      ensures updated == CountIf(r => RowChanges(ex, r), old(rows))
      ensures rows == if dryRun then old(rows) else Mapped(r => SweptRow(ex, r), old(rows))
    {
      var selected := rows;
      ghost var changes: Row -> bool := r => RowChanges(ex, r);
      ghost var sweep: Row -> Row := r => SweptRow(ex, r);
      scanned, updated := 0, 0;
      while scanned < |selected|
        invariant 0 <= scanned <= |selected|
        invariant updated == CountIf(changes, selected[..scanned])
        invariant rows == Progress(sweep, selected, scanned, dryRun)
      {
        var row := selected[scanned];
        var after, changed := RederiveRow(row);
        assert changed == changes(row) && after == sweep(row) && (!changed ==> after == row);
        CountAdvances(changes, selected, scanned);
        ProgressAdvances(sweep, selected, scanned, dryRun);
        if changed {
          updated := updated + 1;
          if !dryRun {
            rows := rows[scanned := after];
          }
        }
        scanned := scanned + 1;
      }
      assert selected[..scanned] == selected;
    }
  }

  /** The first pass over the row leaves nothing for a second one to report. */
  predicate Settles(ex: Extractors, r: Row) {
    PassAgrees(ex, r.columns, r.text) && Steady(ex, Rewritten(ex, r.columns, r.text), r.text)
  }

  lemma RowSettles(ex: Extractors, r: Row)
    requires Storable(r.columns)
    ensures !RowChanges(ex, SweptRow(ex, r)) <==> Settles(ex, r)
  {
    GroupSettles(ex, r);
    SecondPassReports(ex, r.columns, r.text);
    if !RowChanges(ex, r) { QuietRowAgrees(ex, r.columns, r.text); }
  }

  /** A second run of the tool reports zero changes exactly when every row settles. */
  lemma SecondRunQuiet(ex: Extractors, rows: seq<Row>)
    requires forall r :: r in rows ==> Storable(r.columns)
    ensures CountIf(r => RowChanges(ex, r), Mapped(r => SweptRow(ex, r), rows)) == 0
      <==> forall r :: r in rows ==> Settles(ex, r)
  {
    var changes: Row -> bool := r => RowChanges(ex, r);
    var sweep: Row -> Row := r => SweptRow(ex, r);
    var swept := Mapped(sweep, rows);
    CountIfNone(changes, swept);
    forall i | 0 <= i < |rows|
      ensures !changes(swept[i]) <==> Settles(ex, rows[i])
    {
      RowSettles(ex, rows[i]);
    }
    assert forall i :: 0 <= i < |rows| ==> rows[i] in rows;
  }

  // ---------------------------------------------------------------- field by field

  /** Rounding to units goes to the nearest one, and from the middle away from zero. */
  lemma RoundsToNearest(x: real)
    ensures var k := RoundUnits(x) as real;
      && x - 0.5 <= k <= x + 0.5 && (k == x + 0.5 ==> x >= 0.0) && (k == x - 0.5 ==> x <= 0.0)
  {
    assert (x + 0.5).Floor as real <= x + 0.5 < (x + 0.5).Floor as real + 1.0;
    assert (-x + 0.5).Floor as real <= -x + 0.5 < (-x + 0.5).Floor as real + 1.0;
  }

  /** A value with so many units to one is stored as the nearest of them. */
  predicate Rounded(x: real, units: real, stored: real) {
    && stored * units == (stored * units).Floor as real
    && x * units - 0.5 <= stored * units <= x * units + 0.5
    && (stored * units == x * units + 0.5 ==> x * units >= 0.0)
    && (stored * units == x * units - 0.5 ==> x * units <= 0.0)
  }

  lemma RoundedFrom(x: real, units: real, stored: real)
    requires stored * units == RoundUnits(x * units) as real
    ensures Rounded(x, units, stored)
  {
    RoundsToNearest(x * units);
  }

  lemma CentsRound(x: real)
    ensures Rounded(x, 100.0, Cents(x))
  {
    var k := RoundUnits(x * 100.0) as real;
    assert k / 100.0 * 100.0 == k;
    RoundedFrom(x, 100.0, Cents(x));
  }

  lemma ThousandthsRound(x: real)
    ensures Rounded(x, 1000.0, Thousandths(x))
  {
    var k := RoundUnits(x * 1000.0) as real;
    assert k / 1000.0 * 1000.0 == k;
    RoundedFrom(x, 1000.0, Thousandths(x));
  }

  lemma TenthsRound(x: real)
    ensures Rounded(x, 10.0, Tenths(x))
  {
    var k := RoundUnits(x * 10.0) as real;
    assert k / 10.0 * 10.0 == k;
    RoundedFrom(x, 10.0, Tenths(x));
  }

  /** The three NUMERIC columns round to cents, thousandths and tenths. */
  lemma ColumnsRound(x: real)
    ensures Rounded(x, 100.0, Cents(x)) && Rounded(x, 1000.0, Thousandths(x)) && Rounded(x, 10.0, Tenths(x))
  {
    CentsRound(x);
    ThousandthsRound(x);
    TenthsRound(x);
  }

  /** A text column takes no empty text. */
  function Filled(s: Option<string>): Option<string> {
    if s == Some("") then None else s
  }

  /** A NUMERIC column has the rounded value, or none. */
  predicate RoundedInto(x: Option<real>, units: real, stored: Option<real>) {
    stored.Some? == x.Some? && (x.Some? ==> Rounded(x.value, units, stored.value))
  }

  /** What the worker stores of a normalised record, column by column. */
  lemma LiveRowColumnByColumn(ex: Extractors, p: Parsed, text: string)
    ensures var n := Normalized(ex, p, text); var row, f := LiveRow(ex, p, text), n.facts;
      && row.intent == Filled(f.intent) && row.unitType == Filled(f.unitType) && row.areaSqft == f.areaSqft
      && row.currency == f.currency && row.rentPeriod == Filled(f.rentPeriod)
      && row.furnished == Filled(f.furnished) && row.agentPhone == Filled(f.agentPhone)
      && row.agentName == Filled(f.agentName)
      && row.areaText == Filled(if Blank(f.areaText) then f.location else f.areaText)
      && row.community == Filled(if Blank(f.community) then f.location else f.community)
      && row.amenities == (if f.amenities.Some? then f.amenities.value else [])
      && RoundedInto(f.bedrooms, 10.0, row.bedrooms) && RoundedInto(f.price, 100.0, row.price)
      && row.reason == n.reason && (n.confidence.Some? ==> Rounded(n.confidence.value, 1000.0, row.confidence))
  {
    var n := Normalized(ex, p, text);
    ColumnsRound(n.facts.bedrooms.GetOr(0.0));
    ColumnsRound(n.facts.price.GetOr(0.0));
    ColumnsRound(n.confidence.GetOr(0.0));
  }

  /** What the batch tool loads of a row; what it does not load, the unit type, is not there. */
  lemma ReloadedColumnByColumn(ex: Extractors, row: Columns, text: string)
    ensures var p := Reloaded(ex, row, text); var f := p.facts;
      && f.price == row.price && f.currency == row.currency && f.furnished == row.furnished
      && f.amenities == Some(row.amenities) && f.community == row.community && f.areaText == row.areaText
      && f.location == Filled(if Blank(row.community) then row.areaText else row.community)
      && f.bedrooms == row.bedrooms && f.areaSqft == row.areaSqft && f.agentPhone == row.agentPhone
      && f.agentName == row.agentName && f.parking == ex.parking(text) && f.intent == row.intent
      && f.rentPeriod == row.rentPeriod && f.unitType == None
      && p.confidence == Some(row.confidence) && p.reason == row.reason && p.isListing == None
  {
  }

  /** The tool's comparison: of two texts that both read as numbers the numbers, of any others the texts. */
  predicate Differs(ex: Extractors, before: Option<string>, after: Option<string>) {
    if before.None? || after.None? then before != after
    else
      var b, a := ex.asNumber(before.value), ex.asNumber(after.value);
      if b.Some? && a.Some? then b.value != a.value else before.value != after.value
  }

  /** The group name after a pass: a missing name or a raw id gives way to the monitored name. */
  function GroupAfter(ex: Extractors, r: Row): Option<string> {
    if (Blank(r.group) || ex.rawGroupId(r.group.value)) && !Blank(r.monitored) then r.monitored else r.group
  }

  /** One of the seven compared columns of the row is not what it is in the record. */
  predicate ColumnsDiffer(ex: Extractors, row: Columns, n: Parsed) {
    var f := n.facts;
    || row.price != f.price || Differs(ex, row.furnished, f.furnished)
    || multiset(row.amenities) != multiset(if f.amenities.Some? then f.amenities.value else [])
    || Differs(ex, row.community, f.community) || Differs(ex, row.areaText, f.areaText)
    || n.confidence != Some(row.confidence) || n.reason != row.reason
  }

  lemma TextChangedMeans(ex: Extractors, before: Option<string>, after: Option<string>)
    ensures TextChanged(ex, before, after) <==> Differs(ex, before, after)
  {
  }

  lemma RowChangedMeans(ex: Extractors, row: Columns, n: Parsed)
    ensures RowChanged(ex, row, n) <==> ColumnsDiffer(ex, row, n)
  {
    TextChangedMeans(ex, row.furnished, n.facts.furnished);
    TextChangedMeans(ex, row.community, n.facts.community);
    TextChangedMeans(ex, row.areaText, n.facts.areaText);
  }

  /** A row is reported exactly when a compared column or its group name differs from what normalising makes of it. */
  lemma ReportedExactlyWhenDifferent(ex: Extractors, r: Row)
    ensures RowChanges(ex, r) <==>
      || ColumnsDiffer(ex, r.columns, Normalized(ex, Reloaded(ex, r.columns, r.text), r.text))
      || Differs(ex, r.group, GroupAfter(ex, r))
  {
    RowChangedMeans(ex, r.columns, Normalized(ex, Reloaded(ex, r.columns, r.text), r.text));
    TextChangedMeans(ex, r.group, GroupAfter(ex, r));
  }

  /** What a reported row is rewritten to: nine columns, the others stay; and a row that is not reported stays. */
  lemma RewrittenColumnByColumn(ex: Extractors, r: Row)
    ensures !RowChanges(ex, r) ==> SweptRow(ex, r) == r
    ensures RowChanges(ex, r) ==>
      var n := Normalized(ex, Reloaded(ex, r.columns, r.text), r.text);
      var f, before, after := n.facts, r.columns, SweptRow(ex, r).columns;
      && RoundedInto(f.price, 100.0, after.price) && after.currency == f.currency
      && after.furnished == Filled(f.furnished) && after.areaText == Filled(f.areaText)
      && after.community == Filled(f.community) && after.reason == n.reason
      && after.amenities == (if f.amenities.Some? then f.amenities.value else [])
      && (n.confidence.Some? ==> Rounded(n.confidence.value, 1000.0, after.confidence))
      && after.intent == before.intent && after.unitType == before.unitType && after.bedrooms == before.bedrooms
      && after.areaSqft == before.areaSqft && after.rentPeriod == before.rentPeriod
      && after.agentPhone == before.agentPhone && after.agentName == before.agentName
      && SweptRow(ex, r).group == Filled(GroupAfter(ex, r))
      && SweptRow(ex, r).text == r.text && SweptRow(ex, r).monitored == r.monitored
  {
    var n := Normalized(ex, Reloaded(ex, r.columns, r.text), r.text);
    ColumnsRound(n.facts.price.GetOr(0.0));
    ColumnsRound(n.confidence.GetOr(0.0));
  }

  /** The limits of the columns: 99.9 rooms, whole square feet up to 2,147,483,647, a price under a million millions. */
  lemma ColumnLimits(row: Columns)
    requires ColumnsHold(row)
    ensures ColumnsHold(row.(bedrooms := Some(99.9))) && !ColumnsHold(row.(bedrooms := Some(100.0)))
    ensures ColumnsHold(row.(areaSqft := Some(2147483647.0))) && !ColumnsHold(row.(areaSqft := Some(2147483648.0)))
    ensures !ColumnsHold(row.(areaSqft := Some(850.5)))
    ensures ColumnsHold(row.(price := Some(999999999999.99))) && !ColumnsHold(row.(price := Some(1000000000000.0)))
    ensures ColumnsHold(row.(bedrooms := None, areaSqft := None, price := None))
  {
    assert (2147483647.0).Floor == 2147483647;
    assert (850.5).Floor == 850;
  }
}
