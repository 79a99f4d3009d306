/**
 From the answers of the language models and the rule-based parser to one record:
 src/scraper/llm-parser.js (output normaliser) and src/scraper/dual-parser.js.
 */
module Merge {
  import opened Values
  import opened Normalize

  // ---------------------------------------------------------------- the parts

  /** The JSON object a language model returns, after type checks that cannot fail. */
  datatype Answer = Answer(
    isListing: Option<bool>,
    intent: Option<string>,
    unitType: Option<string>,
    bedrooms: Option<real>,
    areaSqft: Option<real>,
    price: Option<real>,
    currency: Option<string>,
    rentPeriod: Option<string>,
    community: Option<string>,
    areaText: Option<string>,
    furnished: Option<string>,
    amenities: Option<seq<string>>,
    agentPhone: Option<string>,
    confidence: Option<real>)

  function Clamp(c: real): real {
    if c < 0.0 then 0.0 else if c > 1.0 then 1.0 else c
  }

  function LlmFacts(ex: Extractors, a: Answer, sender: Option<string>): Facts {
    Facts(a.intent, a.unitType, a.bedrooms, a.areaSqft, a.price, a.currency, a.rentPeriod,
          a.community, a.areaText, OrNull(Or(a.community, a.areaText)),
          if a.furnished.None? then None else ex.canonicalFurnished(a.furnished.value),
          Some(a.amenities.GetOr([])), a.agentPhone, OrNull(sender),
          if exists s :: s in a.amenities.GetOr([]) && ex.mentionsParking(s) then 1 else 0)
  }

  /** `_normaliseLlmOutput`. */
  function FromLlm(ex: Extractors, a: Answer, sender: Option<string>): Parsed {
    var confidence := if a.confidence.None? then 0.5 else Clamp(a.confidence.value);
    Parsed(LlmFacts(ex, a, sender), a.isListing,
           Some(if a.isListing == Some(false) then 0.0 else confidence), None)
  }

  function RegexFacts(ex: Extractors, text: string, sender: Option<string>): Facts {
    Facts(None, None, ex.bedrooms(text), ex.areaSqft(text), PriceIn(ex, text),
          Or(ex.priceCurrency(text), ex.marketCurrency(text)), None,
          None, None, ex.marketOrFuzzy(text), ex.furnished(text), Some(ex.amenities(text)),
          ex.phone(text), sender, ex.parking(text))
  }

  /** `MessageParser.parse`: also the fallback when the language model call fails. */
  function FromRegex(ex: Extractors, text: string, sender: Option<string>): Parsed {
    var f := RegexFacts(ex, text, sender);
    Parsed(f, None, Some(Confidence(ex, f, text)), None)
  }

  /** The result for links, image data and texts too short to read. */
  function Refusal(sender: Option<string>): Parsed {
    Parsed(Facts(None, None, None, None, None, None, None, None, None, None, None, Some([]), None, sender, 0),
           Some(false), Some(0.0), None)
  }

  // ---------------------------------------------------------------- conflicts

  datatype Field = CommunityField | PriceField | FurnishedField | BedroomsField | UnitTypeField

  /** Whether `max / min > 1.25` in floating point, where a zero divisor gives infinity or NaN. */
  predicate RatioOver(a: real, b: real) {
    var hi, lo := if a > b then a else b, if a > b then b else a;
    if lo > 0.0 then hi > 1.25 * lo
    else lo == 0.0 && hi > 0.0
  }

  predicate CommunityConflict(ex: Extractors, llm: Facts, regex: Facts) {
    var mine := OrNull(Or(llm.community, llm.areaText));
    && Truthy(regex.location)
    && (|| !Truthy(mine)
        || (ex.lower(mine.value) != ex.lower(regex.location.value) && !ex.knownLocation(mine.value)))
  }

  predicate PriceConflict(llm: Facts, regex: Facts) {
    && regex.price.Some? && llm.price.Some? && regex.price.value > 0.0 && llm.price.value > 0.0
    && RatioOver(regex.price.value, llm.price.value)
  }

  predicate FurnishedConflict(llm: Facts, regex: Facts) {
    Truthy(regex.furnished) && Truthy(llm.furnished) && regex.furnished != llm.furnished
  }

  function OneIf(condition: bool, field: Field): seq<Field> {
    if condition then [field] else []
  }

  /** The conflicts on fields both records carry, in push order. */
  function FieldConflicts(ex: Extractors, llm: Facts, regex: Facts): seq<Field> {
    OneIf(CommunityConflict(ex, llm, regex), CommunityField)
    + OneIf(PriceConflict(llm, regex), PriceField)
    + OneIf(FurnishedConflict(llm, regex), FurnishedField)
  }

  /** The conflicts with the room configuration read from the text. */
  function RoomConflicts(ex: Extractors, llm: Facts, text: string): seq<Field> {
    var rooms, unit := ex.bedrooms(text), ex.unitType(text);
    if rooms.None? then []
    else
      OneIf(llm.bedrooms.Some? && llm.bedrooms != rooms, BedroomsField)
      + OneIf(Truthy(unit) && Truthy(llm.unitType) && llm.unitType != unit, UnitTypeField)
      + OneIf(!TruthyNumber(llm.bedrooms), BedroomsField)
  }

  function Conflicts(ex: Extractors, llm: Facts, regex: Facts, text: string): seq<Field> {
    FieldConflicts(ex, llm, regex) + RoomConflicts(ex, llm, text)
  }

  /** `detectConflicts`. */
  method DetectConflicts(ex: Extractors, llm: Facts, regex: Facts) returns (conflicts: seq<Field>)
    ensures conflicts == FieldConflicts(ex, llm, regex)
  {
    conflicts := [];
    if Truthy(regex.location) {
      var mine := OrNull(Or(llm.community, llm.areaText));
      if !Truthy(mine) {
        conflicts := conflicts + [CommunityField];
      } else if ex.lower(mine.value) != ex.lower(regex.location.value) {
        if !ex.knownLocation(mine.value) {
          conflicts := conflicts + [CommunityField];
        }
      }
    }
    if regex.price.Some? && llm.price.Some? && regex.price.value > 0.0 && llm.price.value > 0.0 {
      if RatioOver(regex.price.value, llm.price.value) {
        conflicts := conflicts + [PriceField];
      }
    }
    if Truthy(regex.furnished) && Truthy(llm.furnished) && regex.furnished != llm.furnished {
      conflicts := conflicts + [FurnishedField];
    }
  }

  /** `detectConflictsFull`. */
  method DetectConflictsFull(ex: Extractors, llm: Facts, regex: Facts, text: string) returns (conflicts: seq<Field>)
    ensures conflicts == Conflicts(ex, llm, regex, text)
  {
    conflicts := DetectConflicts(ex, llm, regex);
    ghost var base := conflicts;
    if ex.bedrooms(text).Some? {
      if llm.bedrooms.Some? && llm.bedrooms != ex.bedrooms(text) {
        conflicts := conflicts + [BedroomsField];
      }
      if Truthy(ex.unitType(text)) && Truthy(llm.unitType) && llm.unitType != ex.unitType(text) {
        conflicts := conflicts + [UnitTypeField];
      }
      if !TruthyNumber(llm.bedrooms) {
        conflicts := conflicts + [BedroomsField];
      }
    }
    assert conflicts == base + RoomConflicts(ex, llm, text);
  }

  // ---------------------------------------------------------------- merging

  function MergePlace(ex: Extractors, f: Facts, regex: Facts, text: string): Facts {
    var place := if Truthy(regex.location) then regex.location
                 else if !Truthy(f.community) then ex.firstLine(text) else None;
    if Truthy(place) then f.(community := place, areaText := place, location := place) else f
  }

  function MergePrice(f: Facts, regex: Facts): Facts {
    if regex.price.None? then f
    else
      f.(price := if f.price.None? || RatioOver(regex.price.value, f.price.value) then regex.price else f.price,
         currency := if Truthy(regex.currency) && !Truthy(f.currency) then regex.currency else f.currency)
  }

  function MergeRooms(ex: Extractors, f: Facts, text: string): Facts {
    if ex.bedrooms(text).None? then f
    else f.(bedrooms := ex.bedrooms(text), unitType := OrNull(Or(ex.unitType(text), f.unitType)))
  }

  function MergeFittings(f: Facts, regex: Facts): Facts {
    f.(furnished := if Truthy(regex.furnished) then regex.furnished else f.furnished,
       amenities := Some(Dedupe(f.amenities.GetOr([]) + regex.amenities.GetOr([]))),
       parking := if f.parking != 0 then f.parking else regex.parking)
  }

  function MergedFacts(ex: Extractors, primary: Facts, regex: Facts, text: string): Facts {
    MergeFittings(MergeRooms(ex, MergePrice(MergePlace(ex, primary, regex, text), regex), text), regex)
  }

  predicate Agrees(ex: Extractors, out: Facts, regex: Facts, check: nat)
    requires check < 3
  {
    match check
    case 0 => out.price.Some? && out.price == regex.price
    case 1 => out.bedrooms.Some? && out.bedrooms == regex.bedrooms
    case _ =>
      out.community.Some? && regex.location.Some? && ex.lower(out.community.value) == ex.lower(regex.location.value)
  }

  function Agreements(ex: Extractors, out: Facts, regex: Facts, upTo: nat): nat
    requires upTo <= 3
  {
    if upTo == 0 then 0
    else Agreements(ex, out, regex, upTo - 1) + if Agrees(ex, out, regex, upTo - 1) then 1 else 0
  }

  function Cap(c: real): real {
    if c > 1.0 then 1.0 else c
  }

  function Merged(ex: Extractors, llm: Parsed, recheck: Option<Parsed>, regex: Facts, text: string): Parsed {
    var primary := recheck.GetOr(llm);
    var out := MergedFacts(ex, primary.facts, regex, text);
    primary.(facts := out,
             confidence := Some(Cap(primary.confidence.GetOr(0.0) + Agreements(ex, out, regex, 3) as real * 0.05)))
  }

  /** `merge`, with its agreement loop. */
  method MergeRecords(ex: Extractors, llm: Parsed, recheck: Option<Parsed>, regex: Facts, text: string)
    returns (out: Parsed)
    ensures out == Merged(ex, llm, recheck, regex, text)
  {
    out := if recheck.Some? then recheck.value else llm;
    var place := if Truthy(regex.location) then regex.location
                 else if !Truthy(out.facts.community) then ex.firstLine(text) else None;
    var f := out.facts;
    if Truthy(place) {
      f := f.(community := place, areaText := place, location := place);
    }
    f := MergePrice(f, regex);
    f := MergeRooms(ex, f, text);
    f := MergeFittings(f, regex);
    var agreements := 0;
    for check := 0 to 3
      invariant agreements == Agreements(ex, f, regex, check)
    {
      if Agrees(ex, f, regex, check) {
        agreements := agreements + 1;
      }
    }
    out := out.(facts := f, confidence := Some(Cap(out.confidence.GetOr(0.0) + agreements as real * 0.05)));
  }

  // ---------------------------------------------------------------- two models

  function PickedFacts(g: Facts, m: Facts): Facts {
    g.(intent := Coalesce(g.intent, m.intent), unitType := Coalesce(g.unitType, m.unitType),
       bedrooms := Coalesce(g.bedrooms, m.bedrooms), price := Coalesce(g.price, m.price),
       currency := Coalesce(g.currency, m.currency), rentPeriod := Coalesce(g.rentPeriod, m.rentPeriod),
       community := Coalesce(g.community, m.community), areaText := Coalesce(g.areaText, m.areaText),
       furnished := Coalesce(g.furnished, m.furnished),
       amenities := Some(Dedupe(g.amenities.GetOr([]) + m.amenities.GetOr([]))))
  }

  /** The consensus-weighted confidence. */
  function Consensus(base: real, ratio: real): real {
    Cap(base * (0.7 + 0.6 * ratio))
  }

  /** `reconcileGemini`; `ratio` is the share of the thirteen consensus fields on which both agree. */
  function Reconciled(groq: Parsed, gemini: Parsed, ratio: real): Parsed
    requires 0.0 <= ratio <= 1.0
  {
    var g, m := groq.confidence.GetOr(0.0), gemini.confidence.GetOr(0.0);
    var base := if g > m then g else m;
    Parsed(PickedFacts(groq.facts, gemini.facts),
           Some(groq.isListing == Some(true) || gemini.isListing == Some(true)),
           Some(Consensus(base, ratio)), groq.reason)
  }

  // ---------------------------------------------------------------- the pipeline

  /** What the first model call gives: its answer, the rule-based fallback, or a refusal without a call. */
  datatype First = Answered(answer: Answer) | FellBack | Skipped

  function FirstResult(ex: Extractors, first: First, text: string, sender: Option<string>): Parsed {
    match first
    case Answered(a) => FromLlm(ex, a, sender)
    case FellBack => FromRegex(ex, text, sender)
    case Skipped => Refusal(sender)
  }

  function Reading(ex: Extractors, first: First, gemini: Option<Answer>, ratio: real, text: string,
                   sender: Option<string>): Parsed
    requires 0.0 <= ratio <= 1.0
  {
    var groq := FirstResult(ex, first, text, sender);
    if gemini.None? then groq else Reconciled(groq, FromLlm(ex, gemini.value, sender), ratio)
  }

  /** `DualParser.parse`: `again` is what a second query would answer; it is asked only after a conflict. */
  function Parse(ex: Extractors, first: First, gemini: Option<Answer>, ratio: real, again: Option<Answer>,
                 text: string, sender: Option<string>): Parsed
    requires 0.0 <= ratio <= 1.0
  {
    if |text| < 4 then Refusal(sender)
    else
      var llm := Reading(ex, first, gemini, ratio, text, sender);
      var regex := RegexFacts(ex, text, sender);
      var recheck := if Conflicts(ex, llm.facts, regex, text) != [] && again.Some?
                     then Some(FromLlm(ex, again.value, sender)) else None;
      var out := Merged(ex, llm, recheck, regex, text);
      out.(facts := out.facts.(agentName := OrNull(Or(llm.facts.agentName, sender))))
  }

  // ---------------------------------------------------------------- theorems

  /** A record whose `location` is set also has the place in a column that reaches the database. */
  predicate Coherent(f: Facts) {
    Truthy(f.location) ==> Truthy(f.community) || Truthy(f.areaText)
  }

  /** What the batch pass relies on in a record that comes from the live path. */
  predicate Fit(ex: Extractors, p: Parsed, text: string) {
    && Coherent(p.facts)
    && p.facts.amenities.Some?
    && (ex.parking(text) != 0 ==> p.facts.parking != 0)
    && p.reason.None?
    && p.confidence.Some?
  }

  lemma MergeFit(ex: Extractors, llm: Parsed, recheck: Option<Parsed>, text: string, sender: Option<string>)
    requires var primary := recheck.GetOr(llm);
      primary.reason.None? && (Coherent(primary.facts) || primary.facts.location == ex.marketOrFuzzy(text))
    ensures Fit(ex, Merged(ex, llm, recheck, RegexFacts(ex, text, sender), text), text)
  {
    var primary := recheck.GetOr(llm).facts;
    var regex := RegexFacts(ex, text, sender);
    var placed := MergePlace(ex, primary, regex, text);
    assert Coherent(placed);
    var out := MergedFacts(ex, primary, regex, text);
    assert out.location == placed.location && out.community == placed.community && out.areaText == placed.areaText;
  }

  lemma ReadingFit(ex: Extractors, first: First, gemini: Option<Answer>, ratio: real, text: string,
                   sender: Option<string>)
    requires 0.0 <= ratio <= 1.0
    ensures var r := Reading(ex, first, gemini, ratio, text, sender);
      r.reason.None? && (Coherent(r.facts) || r.facts.location == ex.marketOrFuzzy(text))
  {
    var groq := FirstResult(ex, first, text, sender).facts;
    if first.Answered? {
      assert groq.location == OrNull(Or(groq.community, groq.areaText));
    }
  }

  /** Every record the live pipeline produces is fit for the batch pass, whatever the models answer. */
  lemma ParseFit(ex: Extractors, first: First, gemini: Option<Answer>, ratio: real, again: Option<Answer>,
                 text: string, sender: Option<string>)
    requires 0.0 <= ratio <= 1.0
    requires |text| < 4 ==> ex.parking(text) == 0
    ensures Fit(ex, Parse(ex, first, gemini, ratio, again, text, sender), text)
  {
    if |text| >= 4 {
      var llm := Reading(ex, first, gemini, ratio, text, sender);
      ReadingFit(ex, first, gemini, ratio, text, sender);
      var regex := RegexFacts(ex, text, sender);
      var recheck := if Conflicts(ex, llm.facts, regex, text) != [] && again.Some?
                     then Some(FromLlm(ex, again.value, sender)) else None;
      MergeFit(ex, llm, recheck, text, sender);
    }
  }

  /**
   Merging settles every disagreement with the rule-based parser, with one exception:
   a text the rules read as a studio (zero bedrooms) always looks like a conflict,
   because the detector takes the count zero for a missing count.
   */
  lemma MergeSettlesConflicts(ex: Extractors, llm: Parsed, recheck: Option<Parsed>, text: string,
                              sender: Option<string>)
    ensures var regex := RegexFacts(ex, text, sender);
      Conflicts(ex, Merged(ex, llm, recheck, regex, text).facts, regex, text)
      == if ex.bedrooms(text) == Some(0.0) then [BedroomsField] else []
  {
    var regex := RegexFacts(ex, text, sender);
    var out := MergedFacts(ex, recheck.GetOr(llm).facts, regex, text);
    assert !CommunityConflict(ex, out, regex);
    assert !PriceConflict(out, regex);
  }

  /**
   The boost for agreement is counted after the rules have overwritten the record. So it is no measure of
   agreement on the rooms and the place: the rules finding them is enough, whatever the model said. Only a
   price that the model has and that is neither far off nor equal goes without.
   */
  lemma BonusCountsWhatTheRulesFound(ex: Extractors, llm: Parsed, recheck: Option<Parsed>, text: string,
                                     sender: Option<string>)
    requires var place := ex.marketOrFuzzy(text); place.None? || place.value != ""
    ensures var regex := RegexFacts(ex, text, sender); var primary := recheck.GetOr(llm).facts;
      Agreements(ex, Merged(ex, llm, recheck, regex, text).facts, regex, 3)
      == (if regex.price.Some?
             && (|| primary.price.None? || primary.price == regex.price
                 || RatioOver(regex.price.value, primary.price.value))
          then 1 else 0)
         + (if regex.bedrooms.Some? then 1 else 0) + (if regex.location.Some? then 1 else 0)
  {
    var regex := RegexFacts(ex, text, sender);
    var out := MergedFacts(ex, recheck.GetOr(llm).facts, regex, text);
    assert Agreements(ex, out, regex, 2) == Agreements(ex, out, regex, 1) + if Agrees(ex, out, regex, 1) then 1 else 0;
    assert Agreements(ex, out, regex, 1) == if Agrees(ex, out, regex, 0) then 1 else 0;
  }

  /** Two models raise the higher of their confidences, or keep it, exactly when they agree on half of the fields. */
  lemma ConsensusPaysFromOneHalf(groq: Parsed, gemini: Parsed, ratio: real)
    requires 0.0 <= ratio <= 1.0
    requires 0.0 <= groq.confidence.GetOr(0.0) <= 1.0 && 0.0 <= gemini.confidence.GetOr(0.0) <= 1.0
    ensures var g, m := groq.confidence.GetOr(0.0), gemini.confidence.GetOr(0.0); var best := if g > m then g else m;
      var paid := Reconciled(groq, gemini, ratio).confidence.value;
      && paid == (if best * (0.7 + 0.6 * ratio) < 1.0 then best * (0.7 + 0.6 * ratio) else 1.0)
      && (paid >= best <==> best == 0.0 || ratio >= 0.5)
  {
    var g, m := groq.confidence.GetOr(0.0), gemini.confidence.GetOr(0.0);
    var best := if g > m then g else m;
    Weighted(best, ratio);
  }

  lemma Weighted(best: real, ratio: real)
    requires 0.0 <= best <= 1.0
    ensures Consensus(best, ratio) >= best <==> best == 0.0 || ratio >= 0.5
  {
    var weight := 0.7 + 0.6 * ratio;
    assert Consensus(best, ratio) == Cap(best * weight);
    Scaled(best, weight);
    assert weight >= 1.0 <==> ratio >= 0.5;
  }

  lemma Scaled(best: real, weight: real)
    requires 0.0 <= best <= 1.0
    ensures Cap(best * weight) >= best <==> best == 0.0 || weight >= 1.0
  {
    assert best * weight - best == best * (weight - 1.0);
    if best > 0.0 {
      if weight >= 1.0 { assert best * (weight - 1.0) >= 0.0; } else { assert best * (weight - 1.0) < 0.0; }
    }
  }

  /** The first one if it is there, else the second. */
  predicate FirstOf<T(==)>(x: Option<T>, first: Option<T>, second: Option<T>) {
    if first.Some? then x == first else x == second
  }

  /**
   Every field that the two models are reconciled on is the first model's when it has one, and else the second's; so it
   is empty only when both left it empty. Amenities are united, the first model's before the others. All other fields
   stay the first model's.
   */
  lemma ReconcileLosesNothing(groq: Parsed, gemini: Parsed, ratio: real)
    requires 0.0 <= ratio <= 1.0
    ensures var r := Reconciled(groq, gemini, ratio); var f, g, m := r.facts, groq.facts, gemini.facts;
      && FirstOf(f.intent, g.intent, m.intent) && FirstOf(f.unitType, g.unitType, m.unitType)
      && FirstOf(f.bedrooms, g.bedrooms, m.bedrooms) && FirstOf(f.price, g.price, m.price)
      && FirstOf(f.currency, g.currency, m.currency) && FirstOf(f.rentPeriod, g.rentPeriod, m.rentPeriod)
      && FirstOf(f.community, g.community, m.community) && FirstOf(f.areaText, g.areaText, m.areaText)
      && FirstOf(f.furnished, g.furnished, m.furnished)
      && f.areaSqft == g.areaSqft && f.location == g.location && f.agentPhone == g.agentPhone
      && f.agentName == g.agentName && f.parking == g.parking
    ensures var r := Reconciled(groq, gemini, ratio);
      var own, others := groq.facts.amenities.GetOr([]), gemini.facts.amenities.GetOr([]);
      && r.facts.amenities.Some? && Dedupe(own) <= r.facts.amenities.value
      && (forall a :: a in r.facts.amenities.value <==> a in own || a in others)
      && r.isListing == Some(groq.isListing == Some(true) || gemini.isListing == Some(true)) && r.reason == groq.reason
  {
    DedupeGrows(groq.facts.amenities.GetOr([]), gemini.facts.amenities.GetOr([]));
  }

  // ---------------------------------------------------------------- field by field

  /** The two values are more than a quarter apart; zero is that far from everything above it. */
  predicate FarApart(a: real, b: real) {
    || (a > 0.0 && b > 0.0 && (a > 1.25 * b || b > 1.25 * a))
    || (a == 0.0 && b > 0.0) || (b == 0.0 && a > 0.0)
  }

  lemma RatioMeansFarApart(a: real, b: real)
    ensures RatioOver(a, b) <==> FarApart(a, b)
  {
  }

  /** What the rules read as the price. */
  function ReadPrice(ex: Extractors, text: string): Option<real> {
    if text == "" then None else ex.price(text)
  }

  predicate PlacesDisagree(ex: Extractors, llm: Facts, text: string) {
    var read := ex.marketOrFuzzy(text);
    var mine := if Blank(llm.community) then llm.areaText else llm.community;
    && !Blank(read)
    && (Blank(mine) || (ex.lower(mine.value) != ex.lower(read.value) && !ex.knownLocation(mine.value)))
  }

  predicate PricesDisagree(ex: Extractors, llm: Facts, text: string) {
    var read := ReadPrice(ex, text);
    && read.Some? && llm.price.Some? && read.value > 0.0 && llm.price.value > 0.0
    && (read.value > 1.25 * llm.price.value || llm.price.value > 1.25 * read.value)
  }

  predicate FurnishingsDisagree(ex: Extractors, llm: Facts, text: string) {
    !Blank(ex.furnished(text)) && !Blank(llm.furnished) && ex.furnished(text) != llm.furnished
  }

  /** A count of rooms in the text that the record lacks or contradicts; zero rooms count as lacking. */
  predicate RoomsDisagree(ex: Extractors, llm: Facts, text: string) {
    ex.bedrooms(text).Some? && (llm.bedrooms != ex.bedrooms(text) || llm.bedrooms == Some(0.0))
  }

  predicate UnitsDisagree(ex: Extractors, llm: Facts, text: string) {
    && ex.bedrooms(text).Some? && !Blank(ex.unitType(text)) && !Blank(llm.unitType)
    && ex.unitType(text) != llm.unitType
  }

  /** The place of a field in the list of conflicts; the two room fields share the last one. */
  function RankOf(field: Field): nat {
    match field
    case CommunityField => 0
    case PriceField => 1
    case FurnishedField => 2
    case _ => 3
  }

  predicate InRankOrder(c: seq<Field>) {
    forall i, j :: 0 <= i < j < |c| ==> RankOf(c[i]) <= RankOf(c[j])
  }

  lemma FieldConflictsMean(ex: Extractors, llm: Facts, text: string, sender: Option<string>)
    ensures var c := FieldConflicts(ex, llm, RegexFacts(ex, text, sender));
      && (CommunityField in c <==> PlacesDisagree(ex, llm, text))
      && (PriceField in c <==> PricesDisagree(ex, llm, text))
      && (FurnishedField in c <==> FurnishingsDisagree(ex, llm, text))
      && BedroomsField !in c && UnitTypeField !in c && InRankOrder(c)
  {
    var regex := RegexFacts(ex, text, sender);
    assert CommunityConflict(ex, llm, regex) <==> PlacesDisagree(ex, llm, text);
    assert FurnishedConflict(llm, regex) <==> FurnishingsDisagree(ex, llm, text);
    assert PriceConflict(llm, regex) <==> PricesDisagree(ex, llm, text) by {
      if regex.price.Some? && llm.price.Some? { RatioMeansFarApart(regex.price.value, llm.price.value); }
    }
  }

  lemma RoomConflictsMean(ex: Extractors, llm: Facts, text: string)
    ensures var c := RoomConflicts(ex, llm, text);
      && (BedroomsField in c <==> RoomsDisagree(ex, llm, text))
      && (UnitTypeField in c <==> UnitsDisagree(ex, llm, text))
      && forall field :: field in c ==> RankOf(field) == 3
  {
  }

  /** Exactly the disagreements are conflicts, those about the place first, then price, furnishing and rooms. */
  lemma ConflictsAreDisagreements(ex: Extractors, llm: Facts, text: string, sender: Option<string>)
    ensures var c := Conflicts(ex, llm, RegexFacts(ex, text, sender), text);
      && (CommunityField in c <==> PlacesDisagree(ex, llm, text))
      && (PriceField in c <==> PricesDisagree(ex, llm, text))
      && (FurnishedField in c <==> FurnishingsDisagree(ex, llm, text))
      && (BedroomsField in c <==> RoomsDisagree(ex, llm, text))
      && (UnitTypeField in c <==> UnitsDisagree(ex, llm, text))
      && InRankOrder(c)
  {
    FieldConflictsMean(ex, llm, text, sender);
    RoomConflictsMean(ex, llm, text);
    Behind(FieldConflicts(ex, llm, RegexFacts(ex, text, sender)), RoomConflicts(ex, llm, text));
  }

  lemma Behind(a: seq<Field>, b: seq<Field>)
    requires InRankOrder(a) && forall field :: field in b ==> RankOf(field) == 3
    ensures InRankOrder(a + b) && forall field :: field in a + b <==> field in a || field in b
  {
    var c := a + b;
    forall i, j | 0 <= i < j < |c| ensures RankOf(c[i]) <= RankOf(c[j]) {
      if j >= |a| { assert c[j] in b; }
    }
  }

  /** The place that is merged: the rules' if they have one, else the record's, else the first line's. */
  predicate PlaceMerged(ex: Extractors, g: Facts, text: string, f: Facts) {
    var read, line := ex.marketOrFuzzy(text), ex.firstLine(text);
    if !Blank(read) then PlacedAt(f, read)
    else if Blank(g.community) && !Blank(line) then PlacedAt(f, line)
    else f.community == g.community && f.areaText == g.areaText && f.location == g.location
  }

  /**
   The price that is merged: the rules' if the record has none or one far from it; the currency only if it has none.
   */
  predicate PriceMerged(ex: Extractors, g: Facts, text: string, f: Facts) {
    var read := ReadPrice(ex, text);
    var currency := if Blank(ex.priceCurrency(text)) then ex.marketCurrency(text) else ex.priceCurrency(text);
    && f.price == (if read.Some? && (g.price.None? || FarApart(read.value, g.price.value)) then read else g.price)
    && f.currency == (if read.Some? && Blank(g.currency) && !Blank(currency) then currency else g.currency)
  }

  /** Rooms, furnishing and parking: the rules win where they found something; amenities are united. */
  ghost predicate FittingsMerged(ex: Extractors, g: Facts, text: string, f: Facts) {
    && f.bedrooms == (if ex.bedrooms(text).Some? then ex.bedrooms(text) else g.bedrooms)
    && f.unitType == (if ex.bedrooms(text).None? then g.unitType
                      else if !Blank(ex.unitType(text)) then ex.unitType(text)
                      else if Blank(g.unitType) then None else g.unitType)
    && f.furnished == (if Blank(ex.furnished(text)) then g.furnished else ex.furnished(text))
    && f.parking == (if g.parking != 0 then g.parking else ex.parking(text))
    && f.amenities.Some? && Dedupe(g.amenities.GetOr([])) <= f.amenities.value
    && (forall a :: a in f.amenities.value <==> a in g.amenities.GetOr([]) || a in ex.amenities(text))
  }

  /** What the rules have no say in. */
  predicate RestUnmerged(g: Facts, f: Facts) {
    && f.intent == g.intent && f.areaSqft == g.areaSqft && f.rentPeriod == g.rentPeriod
    && f.agentPhone == g.agentPhone
  }

  lemma MergedPlace(ex: Extractors, g: Facts, text: string, sender: Option<string>)
    ensures PlaceMerged(ex, g, text, MergedFacts(ex, g, RegexFacts(ex, text, sender), text))
  {
    var regex := RegexFacts(ex, text, sender);
    var placed := MergePlace(ex, g, regex, text);
    assert PlaceMerged(ex, g, text, placed);
    var out := MergedFacts(ex, g, regex, text);
    assert out.location == placed.location && out.community == placed.community && out.areaText == placed.areaText;
  }

  lemma MergedPrice(ex: Extractors, g: Facts, text: string, sender: Option<string>)
    ensures PriceMerged(ex, g, text, MergedFacts(ex, g, RegexFacts(ex, text, sender), text))
  {
    var regex := RegexFacts(ex, text, sender);
    if regex.price.Some? && g.price.Some? { RatioMeansFarApart(regex.price.value, g.price.value); }
    var placed := MergePlace(ex, g, regex, text);
    assert placed.price == g.price && placed.currency == g.currency;
  }

  lemma MergedFittings(ex: Extractors, g: Facts, text: string, sender: Option<string>)
    ensures FittingsMerged(ex, g, text, MergedFacts(ex, g, RegexFacts(ex, text, sender), text))
    ensures RestUnmerged(g, MergedFacts(ex, g, RegexFacts(ex, text, sender), text))
  {
    var regex := RegexFacts(ex, text, sender);
    var priced := MergePrice(MergePlace(ex, g, regex, text), regex);
    assert RestUnmerged(g, priced) && priced.bedrooms == g.bedrooms && priced.unitType == g.unitType;
    assert priced.furnished == g.furnished && priced.amenities == g.amenities && priced.parking == g.parking;
    DedupeGrows(g.amenities.GetOr([]), ex.amenities(text));
  }

  /** The record that is merged with the rules: the second answer if the first reading disagrees and there is one. */
  function Primary(ex: Extractors, reading: Parsed, again: Option<Answer>, text: string,
                   sender: Option<string>): Parsed {
    var disagrees :=
      || PlacesDisagree(ex, reading.facts, text) || PricesDisagree(ex, reading.facts, text)
      || FurnishingsDisagree(ex, reading.facts, text) || RoomsDisagree(ex, reading.facts, text)
      || UnitsDisagree(ex, reading.facts, text);
    if disagrees && again.Some? then FromLlm(ex, again.value, sender) else reading
  }

  lemma ConflictsDecide(ex: Extractors, llm: Facts, text: string, sender: Option<string>)
    ensures Conflicts(ex, llm, RegexFacts(ex, text, sender), text) != [] <==>
      || PlacesDisagree(ex, llm, text) || PricesDisagree(ex, llm, text) || FurnishingsDisagree(ex, llm, text)
      || RoomsDisagree(ex, llm, text) || UnitsDisagree(ex, llm, text)
  {
    ConflictsAreDisagreements(ex, llm, text, sender);
    var c := Conflicts(ex, llm, RegexFacts(ex, text, sender), text);
    if c != [] { assert c[0] in c; }
  }

  lemma ParseMergesPrimary(ex: Extractors, first: First, gemini: Option<Answer>, ratio: real, again: Option<Answer>,
                           text: string, sender: Option<string>)
    requires 0.0 <= ratio <= 1.0 && |text| >= 4
    ensures var reading := Reading(ex, first, gemini, ratio, text, sender);
      var primary := Primary(ex, reading, again, text, sender);
      var p := Parse(ex, first, gemini, ratio, again, text, sender);
      && p.facts == MergedFacts(ex, primary.facts, RegexFacts(ex, text, sender), text).(
           agentName := OrNull(Or(reading.facts.agentName, sender)))
      && p.isListing == primary.isListing && p.reason == primary.reason
  {
    ConflictsDecide(ex, Reading(ex, first, gemini, ratio, text, sender).facts, text, sender);
  }

  /**
   What comes out of `parse` for a text of at least four characters, field by field: the second answer counts
   exactly when the first reading disagrees with the text; the rules overrule place, price, rooms and fittings as
   stated; the rest, the refusal included, is the primary record's; the agent is the first reading's.
   */
  lemma ParseFieldByField(ex: Extractors, first: First, gemini: Option<Answer>, ratio: real, again: Option<Answer>,
                          text: string, sender: Option<string>)
    requires 0.0 <= ratio <= 1.0 && |text| >= 4
    ensures var reading := Reading(ex, first, gemini, ratio, text, sender);
      var primary := Primary(ex, reading, again, text, sender);
      var p := Parse(ex, first, gemini, ratio, again, text, sender); var f, g := p.facts, primary.facts;
      && PlaceMerged(ex, g, text, f) && PriceMerged(ex, g, text, f) && FittingsMerged(ex, g, text, f)
      && RestUnmerged(g, f)
      && f.agentName == (if !Blank(reading.facts.agentName) then reading.facts.agentName
                         else if Blank(sender) then None else sender)
      && p.isListing == primary.isListing && p.reason == primary.reason
  {
    var reading := Reading(ex, first, gemini, ratio, text, sender);
    var g := Primary(ex, reading, again, text, sender).facts;
    ParseMergesPrimary(ex, first, gemini, ratio, again, text, sender);
    MergedPlace(ex, g, text, sender);
    MergedPrice(ex, g, text, sender);
    MergedFittings(ex, g, text, sender);
  }

  /** What the output normaliser makes of a model's answer. */
  lemma AnswerFieldByField(ex: Extractors, a: Answer, sender: Option<string>)
    ensures var p := FromLlm(ex, a, sender); var f := p.facts;
      && f.intent == a.intent && f.unitType == a.unitType && f.bedrooms == a.bedrooms && f.areaSqft == a.areaSqft
      && f.price == a.price && f.currency == a.currency && f.rentPeriod == a.rentPeriod
      && f.community == a.community && f.areaText == a.areaText && f.agentPhone == a.agentPhone
      && f.location == (if !Blank(a.community) then a.community else if Blank(a.areaText) then None else a.areaText)
      && f.furnished == (if a.furnished.None? then None else ex.canonicalFurnished(a.furnished.value))
      && f.amenities == Some(if a.amenities.None? then [] else a.amenities.value)
      && f.agentName == (if Blank(sender) then None else sender)
      && (f.parking != 0 <==> a.amenities.Some? && exists s :: s in a.amenities.value && ex.mentionsParking(s))
    ensures var p := FromLlm(ex, a, sender); var c := if a.confidence.None? then 0.5 else a.confidence.value;
      && p.isListing == a.isListing && p.reason == None
      && p.confidence == Some(if a.isListing == Some(false) || c < 0.0 then 0.0 else if c > 1.0 then 1.0 else c)
  {
  }

  /** The confidence after the merge: a twentieth more for each agreement that is counted, and at most one. */
  lemma MergedConfidence(ex: Extractors, llm: Parsed, recheck: Option<Parsed>, regex: Facts, text: string)
    ensures var out := Merged(ex, llm, recheck, regex, text);
      var boosted := recheck.GetOr(llm).confidence.GetOr(0.0) + Agreements(ex, out.facts, regex, 3) as real / 20.0;
      out.confidence == Some(if boosted < 1.0 then boosted else 1.0)
  {
  }

  /**
   A text under four characters, and a first model call that was not made, refuse the message and know nothing of
   it.
   */
  predicate RefusedUnread(p: Parsed, sender: Option<string>) {
    var f := p.facts;
    && p.isListing == Some(false) && p.confidence == Some(0.0) && p.reason == None
    && f.intent == None && f.unitType == None && f.bedrooms == None && f.areaSqft == None && f.price == None
    && f.currency == None && f.rentPeriod == None && f.community == None && f.areaText == None && f.location == None
    && f.furnished == None && f.amenities == Some([]) && f.agentPhone == None && f.agentName == sender && f.parking == 0
  }

  /** What the rules alone read, which is the first reading when the first model call fails. */
  predicate ReadByRules(ex: Extractors, p: Parsed, text: string, sender: Option<string>) {
    var f := p.facts;
    && p.isListing == None && p.reason == None && p.confidence == Some(Confidence(ex, f, text))
    && f.intent == None && f.unitType == None && f.rentPeriod == None && f.community == None && f.areaText == None
    && f.bedrooms == ex.bedrooms(text) && f.areaSqft == ex.areaSqft(text) && f.price == ReadPrice(ex, text)
    && f.currency == (if Blank(ex.priceCurrency(text)) then ex.marketCurrency(text) else ex.priceCurrency(text))
    && f.location == ex.marketOrFuzzy(text) && f.furnished == ex.furnished(text)
    && f.amenities == Some(ex.amenities(text)) && f.agentPhone == ex.phone(text) && f.agentName == sender
    && f.parking == ex.parking(text)
  }

  /**
   The first reading: the answer, the rules or a refusal, reconciled with the second model's answer if it gave one.
   */
  lemma ReadingIsThatOfItsSource(ex: Extractors, first: First, gemini: Option<Answer>, ratio: real, text: string,
                                 sender: Option<string>)
    requires 0.0 <= ratio <= 1.0
    ensures var own := Reading(ex, first, None, ratio, text, sender);
      && (first.Answered? ==> own == FromLlm(ex, first.answer, sender))
      && (first.FellBack? ==> ReadByRules(ex, own, text, sender))
      && (first.Skipped? ==> RefusedUnread(own, sender))
      && (gemini.Some? ==>
            Reading(ex, first, gemini, ratio, text, sender) == Reconciled(own, FromLlm(ex, gemini.value, sender),
              ratio))
  {
  }

  lemma ShortTextsAreRefused(ex: Extractors, first: First, gemini: Option<Answer>, ratio: real, again: Option<Answer>,
                             text: string, sender: Option<string>)
    requires 0.0 <= ratio <= 1.0 && |text| < 4
    ensures RefusedUnread(Parse(ex, first, gemini, ratio, again, text, sender), sender)
  {
  }
}
