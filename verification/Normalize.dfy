/**
 The deterministic pass that runs after the language models: location repair,
 price / furnished / amenity backfill, the raise-only confidence and the
 plausibility guardrail (src/scraper/message-parser.js).
 The regular expressions are arbitrary functions of the text.
 */
module Normalize {
  import opened Values
  import Doubles

  // ---------------------------------------------------------------- data

  /** Why a row is hidden. The first two are verdicts, the others are price bands. */
  datatype Reason =
    | NotAListing
    | UserFlagged(note: string)
    | PriceLow(price: real)
    | RentHigh(price: real, currency: string)
  {
    predicate IsVerdict() { NotAListing? || UserFlagged? }
  }

  /** The extracted facts about a property: what the backfill reads and writes. */
  datatype Facts = Facts(
    intent: Option<string>,
    unitType: Option<string>,
    bedrooms: Option<real>,
    areaSqft: Option<real>,
    price: Option<real>,
    currency: Option<string>,
    rentPeriod: Option<string>,
    community: Option<string>,
    areaText: Option<string>,
    location: Option<string>,
    furnished: Option<string>,
    amenities: Option<seq<string>>,
    agentPhone: Option<string>,
    agentName: Option<string>,
    parking: int)

  /** The JavaScript object `parsed`: the facts and the judgement on them. */
  datatype Parsed = Parsed(facts: Facts, isListing: Option<bool>, confidence: Option<real>, reason: Option<Reason>)

  /** Everything that is a regular expression or a table lookup in the source. */
  datatype Extractors = Extractors(
    nonLocation: string -> bool,
    location: string -> Option<string>,
    firstLine: string -> Option<string>,
    marketOrFuzzy: string -> Option<string>,
    price: string -> Option<real>,
    priceCurrency: string -> Option<string>,
    marketCurrency: string -> Option<string>,
    furnished: string -> Option<string>,
    amenities: string -> seq<string>,
    parking: string -> int,
    rentalSignal: string -> bool,
    bedrooms: string -> Option<real>,
    unitType: string -> Option<string>,
    areaSqft: string -> Option<real>,
    phone: string -> Option<string>,
    knownLocation: string -> bool,
    canonicalFurnished: string -> Option<string>,
    mentionsParking: string -> bool,
    upper: string -> string,
    lower: string -> string,
    asNumber: string -> Option<real>,
    rawGroupId: string -> bool)

  const PRICE_FLOOR: real := 100.0

  function RentCeiling(currency: string): real {
    if currency == "USD" then 100000.0 else 2000000.0
  }

  // ---------------------------------------------------------------- the pass, step by step

  predicate NonLocation(ex: Extractors, s: Option<string>) {
    Truthy(s) && ex.nonLocation(s.value)
  }

  function SanitizeLocation(ex: Extractors, candidate: Option<string>, text: string): Option<string> {
    if Truthy(candidate) && !NonLocation(ex, candidate) then candidate else OrNull(ex.location(text))
  }

  function RepairLocation(ex: Extractors, f: Facts, text: string): Facts {
    var candidate := OrNull(Or(Or(f.community, f.areaText), f.location));
    var loc := SanitizeLocation(ex, candidate, text);
    if Truthy(loc) then
      f.(community := loc, areaText := loc, location := loc)
    else if NonLocation(ex, f.community) || NonLocation(ex, f.areaText) then
      f.(community := None, areaText := None, location := None)
    else f
  }

  /** `extractPrice` on the empty text finds nothing, whatever the patterns are. */
  function PriceIn(ex: Extractors, text: string): Option<real> {
    if text == "" then None else ex.price(text)
  }

  function BackfillPrice(ex: Extractors, f: Facts, text: string): Facts {
    if f.price.Some? || PriceIn(ex, text).None? then f
    else
      f.(price := ex.price(text),
         currency := if !Truthy(f.currency) && Truthy(ex.priceCurrency(text))
                     then ex.priceCurrency(text) else f.currency)
  }

  function BackfillFurnished(ex: Extractors, f: Facts, text: string): Facts {
    if !Truthy(f.furnished) && Truthy(ex.furnished(text)) then f.(furnished := ex.furnished(text)) else f
  }

  /** `[...new Set(s)]`: the first occurrence of each element, in order. */
  function Dedupe(s: seq<string>): (d: seq<string>)
    ensures forall x :: x in d <==> x in s
    ensures forall i, j :: 0 <= i < j < |d| ==> d[i] != d[j]
  {
    if s == [] then []
    else
      var front := Dedupe(s[..|s| - 1]);
      assert s == s[..|s| - 1] + [s[|s| - 1]];
      if s[|s| - 1] in front then front else front + [s[|s| - 1]]
  }

  function UnionAmenities(ex: Extractors, f: Facts, text: string): Facts {
    if ex.amenities(text) == [] then f
    else f.(amenities := Some(Dedupe(f.amenities.GetOr([]) + ex.amenities(text))))
  }

  /** The four repairs that `normalize` makes before it looks at confidence. */
  function Backfill(ex: Extractors, f: Facts, text: string): Facts {
    UnionAmenities(ex,
      BackfillFurnished(ex,
        BackfillPrice(ex,
          RepairLocation(ex, f, text), text), text), text)
  }

  function If(present: bool, weight: nat): nat {
    if present then weight else 0
  }

  /** The fields that count for the confidence, in the order of the code. */
  datatype Present = Present(price: bool, place: bool, phone: bool, rooms: bool, area: bool, name: bool,
                             furnished: bool,
                             parking: bool, wording: bool)

  function PresentIn(ex: Extractors, f: Facts, text: string): Present {
    Present(TruthyNumber(f.price), Truthy(f.location), Truthy(f.agentPhone), TruthyNumber(f.bedrooms),
      TruthyNumber(f.areaSqft),
            Truthy(f.agentName), f.furnished.Some?, f.parking != 0,
            text != "" && ex.rentalSignal(text) && (TruthyNumber(f.bedrooms) || TruthyNumber(f.price)))
  }

  /** The weights that `calculateConfidence` adds, in hundredths; zero for a missing field. */
  function Weights(h: Present): seq<nat> {
    [If(h.price, 25), If(h.place, 20), If(h.phone, 20), If(h.rooms, 15), If(h.area, 7), If(h.name, 3),
      If(h.furnished, 5),
     If(h.parking, 2), If(h.wording, 10)]
  }

  /** The sum is one of IEEE doubles, so it need not be a hundredth. */
  function Confidence(ex: Extractors, f: Facts, text: string): real {
    Doubles.Score(Weights(PresentIn(ex, f, text)))
  }

  /** Raise-only: a score already present is never lowered. */
  function Raise(confidence: Option<real>, recomputed: real): real {
    if confidence.None? || recomputed > confidence.value then recomputed else confidence.value
  }

  predicate IsRent(f: Facts) {
    f.intent == Some("rent") || Truthy(f.rentPeriod)
  }

  function RentCurrency(ex: Extractors, f: Facts): string {
    ex.upper(Or(f.currency, Some("INR")).value)
  }

  /** The price band the facts fall out of, if any. */
  function PriceVerdict(ex: Extractors, f: Facts): Option<Reason> {
    if f.price.None? then None
    else if 0.0 < f.price.value <= PRICE_FLOOR then Some(PriceLow(f.price.value))
    else if IsRent(f) && f.price.value > RentCeiling(RentCurrency(ex, f))
    then Some(RentHigh(f.price.value, RentCurrency(ex, f)))
    else None
  }

  function SanityCheck(ex: Extractors, p: Parsed): Parsed {
    if p.isListing == Some(false) then p.(reason := Some(NotAListing), confidence := Some(0.0))
    else if p.reason.Some? && p.reason.value.IsVerdict() then p.(confidence := Some(0.0))
    else
      match PriceVerdict(ex, p.facts)
      case Some(reason) => p.(reason := Some(reason), confidence := Some(0.0))
      case None => p.(reason := None)
  }

  /** `normalize` once the facts are repaired: confidence, then the guardrail. */
  function Judge(ex: Extractors, p: Parsed, text: string): Parsed {
    SanityCheck(ex, p.(confidence := Some(Raise(p.confidence, Confidence(ex, p.facts, text)))))
  }

  function Normalized(ex: Extractors, p: Parsed, text: string): Parsed {
    Judge(ex, p.(facts := Backfill(ex, p.facts, text)), text)
  }

  // ---------------------------------------------------------------- the imperative form

  /** The mutable object `parsed`. */
  class Extraction {
    var isListing: Option<bool>
    var intent: Option<string>
    var unitType: Option<string>
    var bedrooms: Option<real>
    var areaSqft: Option<real>
    var price: Option<real>
    var currency: Option<string>
    var rentPeriod: Option<string>
    var community: Option<string>
    var areaText: Option<string>
    var location: Option<string>
    var furnished: Option<string>
    var amenities: Option<seq<string>>
    var agentPhone: Option<string>
    var agentName: Option<string>
    var confidence: Option<real>
    var parking: int
    var reason: Option<Reason>

    function Known(): Facts
      reads this
    {
      Facts(intent, unitType, bedrooms, areaSqft, price, currency, rentPeriod, community, areaText, location,
                  furnished, amenities, agentPhone, agentName, parking)
    }

    function Value(): Parsed
      reads this
    {
      Parsed(Known(), isListing, confidence, reason)
    }

    constructor (p: Parsed)
      ensures Value() == p
    {
      var f := p.facts;
      isListing, confidence, reason := p.isListing, p.confidence, p.reason;
      intent, unitType, bedrooms, areaSqft, price, currency, rentPeriod :=
        f.intent, f.unitType, f.bedrooms, f.areaSqft, f.price, f.currency, f.rentPeriod;
      community, areaText, location, furnished, amenities := f.community, f.areaText, f.location, f.furnished,
        f.amenities;
      agentPhone, agentName, parking := f.agentPhone, f.agentName, f.parking;
    }
  }

  class MessageParser {
    const ex: Extractors
    var lastCurrency: Option<string>

    constructor (ex: Extractors)
      ensures this.ex == ex && lastCurrency == None
    {
      this.ex := ex;
      lastCurrency := None;
    }

    /** Also records the explicit currency, except on the empty text, which leaves the old one. */
    method ExtractPrice(text: string) returns (price: Option<real>)
      modifies this
      ensures price == PriceIn(ex, text)
      ensures lastCurrency == if text == "" then old(lastCurrency) else ex.priceCurrency(text)
    {
      if text == "" {
        return None;
      }
      lastCurrency := ex.priceCurrency(text);
      price := ex.price(text);
    }

    /** The whole pass, in place. The stale `lastCurrency` of an earlier call never leaks in. */
    method Normalize(x: Extraction, text: string)
      modifies x, this
      ensures x.Value() == Normalized(ex, old(x.Value()), text)
    {
      RepairInPlace(x, text);
      RaiseInPlace(x, text);
      CheckSanity(x);
    }

    method RepairInPlace(x: Extraction, text: string)
      modifies x`community, x`areaText, x`location, x`price, x`currency, x`furnished, x`amenities, this
      ensures x.Known() == Backfill(ex, old(x.Known()), text)
    {
      LocateInPlace(x, text);
      PriceInPlace(x, text);
      FurnishInPlace(x, text);
      EquipInPlace(x, text);
    }

    method FurnishInPlace(x: Extraction, text: string)
      modifies x`furnished
      ensures x.Known() == BackfillFurnished(ex, old(x.Known()), text)
    {
      if !Truthy(x.furnished) && Truthy(ex.furnished(text)) {
        x.furnished := ex.furnished(text);
      }
    }

    method EquipInPlace(x: Extraction, text: string)
      modifies x`amenities
      ensures x.Known() == UnionAmenities(ex, old(x.Known()), text)
    {
      if ex.amenities(text) != [] {
        x.amenities := Some(Dedupe(x.amenities.GetOr([]) + ex.amenities(text)));
      }
    }

    method RaiseInPlace(x: Extraction, text: string)
      modifies x`confidence
      ensures x.confidence == Some(Raise(old(x.confidence), Confidence(ex, old(x.Known()), text)))
    {
      var recomputed := Confidence(ex, x.Known(), text);
      if x.confidence.None? || recomputed > x.confidence.value {
        x.confidence := Some(recomputed);
      }
    }

    method LocateInPlace(x: Extraction, text: string)
      modifies x`community, x`areaText, x`location
      ensures x.Known() == RepairLocation(ex, old(x.Known()), text)
    {
      var candidate := OrNull(Or(Or(x.community, x.areaText), x.location));
      var loc := SanitizeLocation(ex, candidate, text);
      if Truthy(loc) {
        x.community, x.areaText, x.location := loc, loc, loc;
      } else if NonLocation(ex, x.community) || NonLocation(ex, x.areaText) {
        x.community, x.areaText, x.location := None, None, None;
      }
    }

    method PriceInPlace(x: Extraction, text: string)
      modifies x`price, x`currency, this
      ensures x.Known() == BackfillPrice(ex, old(x.Known()), text)
    {
      if x.price.None? {
        var found := ExtractPrice(text);
        if found.Some? {
          x.price := found;
          if !Truthy(x.currency) && Truthy(lastCurrency) {
            x.currency := lastCurrency;
          }
        }
      }
    }

    method CheckSanity(x: Extraction)
      modifies x`reason, x`confidence
      ensures x.Value() == SanityCheck(ex, old(x.Value()))
    {
      if x.isListing == Some(false) {
        x.reason, x.confidence := Some(NotAListing), Some(0.0);
        return;
      }
      if x.reason.Some? && x.reason.value.IsVerdict() {
        x.confidence := Some(0.0);
        return;
      }
      x.reason := None;
      if x.price.None? {
        return;
      }
      var price := x.price.value;
      if 0.0 < price <= PRICE_FLOOR {
        x.reason, x.confidence := Some(PriceLow(price)), Some(0.0);
        return;
      }
      if IsRent(x.Known()) {
        var currency := RentCurrency(ex, x.Known());
        if price > RentCeiling(currency) {
          x.reason, x.confidence := Some(RentHigh(price, currency)), Some(0.0);
        }
      }
    }
  }

  // ---------------------------------------------------------------- theorems

  /** De-duplicating a list that already holds everything on its right changes nothing. */
  lemma {:induction false} DedupeAbsorbs(a: seq<string>, b: seq<string>)
    requires forall i, j :: 0 <= i < j < |a| ==> a[i] != a[j]
    requires forall x :: x in b ==> x in a
    ensures Dedupe(a + b) == a
  {
    if b != [] {
      var front := b[..|b| - 1];
      assert (a + b)[..|a + b| - 1] == a + front;
      DedupeAbsorbs(a, front);
    } else if a != [] {
      var front := a[..|a| - 1];
      DedupeAbsorbs(front, []);
      assert a + b == a && front + [] == front;
      assert a == front + [a[|a| - 1]];
    } else {
      assert a + b == [];
    }
  }

  /** Each of the four repairs has nothing left to do after all four have run once. */
  lemma BackfillSettled(ex: Extractors, f: Facts, text: string)
    ensures var g := Backfill(ex, f, text);
      RepairLocation(ex, g, text) == BackfillPrice(ex, g, text) == BackfillFurnished(ex, g, text)
      == UnionAmenities(ex, g, text) == g
  {
    var g := Backfill(ex, f, text);
    if ex.amenities(text) != [] {
      DedupeAbsorbs(g.amenities.value, ex.amenities(text));
    }
  }

  /** The pass reaches its fixed point in one application, for every record and every text. */
  lemma NormalizeIdempotent(ex: Extractors, p: Parsed, text: string)
    ensures Normalized(ex, Normalized(ex, p, text), text) == Normalized(ex, p, text)
  {
    var q := p.(facts := Backfill(ex, p.facts, text));
    BackfillSettled(ex, p.facts, text);
    assert Backfill(ex, q.facts, text) == q.facts;
    JudgeIdempotent(ex, q, text);
    var n := Judge(ex, q, text);
    assert n.(facts := Backfill(ex, n.facts, text)) == n;
  }

  lemma JudgeIdempotent(ex: Extractors, p: Parsed, text: string)
    ensures Judge(ex, Judge(ex, p, text), text) == Judge(ex, p, text)
    ensures Judge(ex, p, text).facts == p.facts
  {
  }

  /**
   A row that stays visible was not refused and its price is inside every band;
   a hidden row has a reason, and it has one exactly when it should.
   */
  lemma QuarantineSound(ex: Extractors, p: Parsed, text: string)
    ensures var n := Normalized(ex, p, text);
      && n.confidence.Some?
      && (n.confidence.value > 0.0 ==>
            && p.isListing != Some(false)
            && (n.facts.price.Some? ==> !(0.0 < n.facts.price.value <= PRICE_FLOOR))
            && (n.facts.price.Some? && IsRent(n.facts) ==>
                  n.facts.price.value <= RentCeiling(RentCurrency(ex, n.facts))))
      && (n.reason.Some? ==> n.confidence == Some(0.0))
      && (n.reason.Some? <==>
            || p.isListing == Some(false)
            || (p.reason.Some? && p.reason.value.IsVerdict())
            || PriceVerdict(ex, n.facts).Some?)
  {
    var q := p.(facts := Backfill(ex, p.facts, text));
    assert Judge(ex, q, text).facts == q.facts;
  }

  lemma ScoreInRange(ex: Extractors, f: Facts, text: string)
    ensures 0.0 <= Confidence(ex, f, text) <= 1.0
  {
    Doubles.ScoreInRange(Weights(PresentIn(ex, f, text)));
  }

  /** A row that stays visible never loses confidence, and gains exactly up to the score of its repaired facts. */
  lemma RaiseOnly(ex: Extractors, p: Parsed, text: string)
    ensures var n := Normalized(ex, p, text); var score := Confidence(ex, n.facts, text);
      && 0.0 <= score <= 1.0
      && (n.reason.None? ==>
            && n.confidence.value >= score && (p.confidence.Some? ==> n.confidence.value >= p.confidence.value)
            && (n.confidence.value == score || n.confidence == p.confidence))
  {
    ScoreInRange(ex, Normalized(ex, p, text).facts, text);
    var q := p.(facts := Backfill(ex, p.facts, text));
    assert Judge(ex, q, text).facts == q.facts;
  }

  /**
   After the pass a row that has a place has the same place in all three fields, and a property
   attribute survives as a place only when the text itself is read that way.
   */
  lemma LocationRepaired(ex: Extractors, p: Parsed, text: string)
    ensures var f := Normalized(ex, p, text).facts;
      (Truthy(f.community) || Truthy(f.areaText)) ==>
        && f.community == f.areaText == f.location
        && (NonLocation(ex, f.community) ==> f.community == ex.location(text))
  {
    var q := p.(facts := Backfill(ex, p.facts, text));
    assert Judge(ex, q, text).facts == q.facts;
    var l := RepairLocation(ex, p.facts, text);
    assert q.facts.community == l.community && q.facts.areaText == l.areaText && q.facts.location == l.location;
  }

  // ---------------------------------------------------------------- field by field

  lemma NormalizedFacts(ex: Extractors, p: Parsed, text: string)
    ensures Normalized(ex, p, text).facts == Backfill(ex, p.facts, text)
    ensures Normalized(ex, p, text).isListing == p.isListing
  {
    JudgeIdempotent(ex, p.(facts := Backfill(ex, p.facts, text)), text);
  }

  /** All three place fields have this value. */
  predicate PlacedAt(f: Facts, place: Option<string>) {
    f.community == place && f.areaText == place && f.location == place
  }

  /** The first place that is given, if any: a non-empty community or area text, else the location. */
  function Given(f: Facts): Option<string> {
    if f.community.Some? && f.community.value != "" then f.community
    else if f.areaText.Some? && f.areaText.value != "" then f.areaText
    else f.location
  }

  /** A text that names a property attribute. */
  predicate IsAttribute(ex: Extractors, s: Option<string>) {
    s.Some? && s.value != "" && ex.nonLocation(s.value)
  }

  /** What becomes of the place fields. */
  predicate PlaceRule(ex: Extractors, f: Facts, text: string, n: Facts) {
    var given, own := Given(f), ex.location(text);
    if given.Some? && given.value != "" && !ex.nonLocation(given.value) then PlacedAt(n, given)
    else if own.Some? && own.value != "" then PlacedAt(n, own)
    else if IsAttribute(ex, f.community) || IsAttribute(ex, f.areaText) then PlacedAt(n, None)
    else n.community == f.community && n.areaText == f.areaText && n.location == f.location
  }

  lemma RepairFollowsRule(ex: Extractors, f: Facts, text: string)
    ensures PlaceRule(ex, f, text, RepairLocation(ex, f, text))
  {
  }

  /** The four repairs are about different fields, so that each is as if it were alone. */
  lemma RepairsAreApart(ex: Extractors, f: Facts, text: string)
    ensures var b, l, p := Backfill(ex, f, text), RepairLocation(ex, f, text), BackfillPrice(ex, f, text);
      && b.community == l.community && b.areaText == l.areaText && b.location == l.location
      && b.price == p.price && b.currency == p.currency
      && b.furnished == BackfillFurnished(ex, f, text).furnished && b.amenities == UnionAmenities(ex, f, text).amenities
  {
  }

  /**
   The place: the first one given is kept unless it is a property attribute; a missing one or an attribute gives way
   to what the text reads; an attribute that nothing replaces is cleared.
   */
  lemma PlaceChosen(ex: Extractors, p: Parsed, text: string)
    ensures PlaceRule(ex, p.facts, text, Normalized(ex, p, text).facts)
  {
    NormalizedFacts(ex, p, text);
    RepairFollowsRule(ex, p.facts, text);
    RepairsAreApart(ex, p.facts, text);
  }

  predicate Blank(s: Option<string>) {
    s.None? || s.value == ""
  }

  /** What becomes of price and currency. */
  predicate PriceRule(ex: Extractors, f: Facts, text: string, n: Facts) {
    if f.price.Some? || text == "" || ex.price(text).None? then n.price == f.price && n.currency == f.currency
    else
      && n.price == ex.price(text)
      && n.currency ==
           if Blank(f.currency) && !Blank(ex.priceCurrency(text)) then ex.priceCurrency(text) else f.currency
  }

  lemma BackfillFollowsRule(ex: Extractors, f: Facts, text: string)
    ensures PriceRule(ex, f, text, BackfillPrice(ex, f, text))
  {
  }

  /**
   A price that is there is kept, with its currency; a missing one is read from the text, and a missing currency
   with it. A furnishing that is there is kept, a missing one is read from the text.
   */
  lemma PriceAndFurnishingFilled(ex: Extractors, p: Parsed, text: string)
    ensures var f, n := p.facts, Normalized(ex, p, text).facts;
      && PriceRule(ex, f, text, n)
      && n.furnished == if Blank(f.furnished) && !Blank(ex.furnished(text)) then ex.furnished(text) else f.furnished
  {
    NormalizedFacts(ex, p, text);
    RepairsAreApart(ex, p.facts, text);
    BackfillFollowsRule(ex, p.facts, text);
  }

  /** The union starts with what it is a union of: nothing found later moves an earlier element. */
  lemma {:induction false} DedupeGrows(a: seq<string>, b: seq<string>)
    ensures Dedupe(a) <= Dedupe(a + b)
  {
    if b == [] {
      assert a + b == a;
    } else {
      var front := b[..|b| - 1];
      DedupeGrows(a, front);
      assert (a + b)[..|a + b| - 1] == a + front;
    }
  }

  /** No amenity is lost, those of the text are added behind, each once. */
  lemma AmenitiesUnited(ex: Extractors, p: Parsed, text: string)
    ensures var f, n := p.facts, Normalized(ex, p, text).facts;
      var own, found := f.amenities.GetOr([]), ex.amenities(text);
      if found == [] then n.amenities == f.amenities
      else
        && n.amenities.Some? && Dedupe(own) <= n.amenities.value
        && (forall a :: a in n.amenities.value <==> a in own || a in found)
        && (forall i, j :: 0 <= i < j < |n.amenities.value| ==> n.amenities.value[i] != n.amenities.value[j])
  {
    NormalizedFacts(ex, p, text);
    RepairsAreApart(ex, p.facts, text);
    DedupeGrows(p.facts.amenities.GetOr([]), ex.amenities(text));
  }

  /** Everything that no repair is about stays as it was. */
  lemma RestKept(ex: Extractors, p: Parsed, text: string)
    ensures var f, n := p.facts, Normalized(ex, p, text).facts;
      && n.intent == f.intent && n.unitType == f.unitType && n.bedrooms == f.bedrooms && n.areaSqft == f.areaSqft
      && n.rentPeriod == f.rentPeriod && n.agentPhone == f.agentPhone && n.agentName == f.agentName
      && n.parking == f.parking && Normalized(ex, p, text).isListing == p.isListing
  {
    NormalizedFacts(ex, p, text);
  }

  /**
   The reason of a normalised record, in the order of the checks: refused by the model, an earlier verdict, a price
   of at most 100, a rent above 2,000,000, or above 100,000 in US dollars.
   */
  lemma ReasonExact(ex: Extractors, p: Parsed, text: string)
    ensures var n := Normalized(ex, p, text); var f := n.facts;
      var currency := ex.upper(if f.currency.Some? && f.currency.value != "" then f.currency.value else "INR");
      var rent := f.intent == Some("rent") || (f.rentPeriod.Some? && f.rentPeriod.value != "");
      n.reason ==
        if p.isListing == Some(false) then Some(NotAListing)
        else if p.reason.Some? && (p.reason.value.NotAListing? || p.reason.value.UserFlagged?) then p.reason
        else if f.price.None? then None
        else if 0.0 < f.price.value <= 100.0 then Some(PriceLow(f.price.value))
        else if rent && f.price.value > (if currency == "USD" then 100000.0 else 2000000.0)
        then Some(RentHigh(f.price.value, currency))
        else None
  {
    NormalizedFacts(ex, p, text);
  }

  /** The sum of the weights that the present fields have, in hundredths. */
  function DecimalSum(ex: Extractors, f: Facts, text: string): nat {
    var price := f.price.Some? && f.price.value != 0.0;
    var rooms := f.bedrooms.Some? && f.bedrooms.value != 0.0;
    (if price then 25 else 0) + (if Blank(f.location) then 0 else 20) + (if Blank(f.agentPhone) then 0 else 20)
    + (if rooms then 15 else 0) + (if f.areaSqft.Some? && f.areaSqft.value != 0.0 then 7 else 0)
    + (if Blank(f.agentName) then 0 else 3) + (if f.furnished.Some? then 5 else 0) + (if f.parking != 0 then 2 else 0)
    + (if text != "" && ex.rentalSignal(text) && (rooms || price) then 10 else 0)
  }

  lemma WeightsAddUp(ex: Extractors, f: Facts, text: string)
    ensures |Weights(PresentIn(ex, f, text))| == 9
    ensures Doubles.Total(Weights(PresentIn(ex, f, text))) == DecimalSum(ex, f, text)
  {
    NineWeights(Weights(PresentIn(ex, f, text)));
  }

  /** The score is the decimal sum, at most 1, up to rounding errors far below any column's precision. */
  lemma ScoreIsDecimalSum(ex: Extractors, f: Facts, text: string)
    ensures var sum := DecimalSum(ex, f, text) as real / 100.0; var capped := if sum < 1.0 then sum else 1.0;
      capped - 0.000000000001 <= Confidence(ex, f, text) <= capped + 0.000000000001
  {
    WeightsAddUp(ex, f, text);
    Doubles.ScoreNear(Weights(PresentIn(ex, f, text)));
  }

  lemma FirstFive(w: seq<nat>)
    requires |w| == 9
    ensures Doubles.Total(w[..5]) == w[0] + w[1] + w[2] + w[3] + w[4]
  {
    assert w[..0] == [];
    Doubles.TotalOne(w, 0);
    Doubles.TotalOne(w, 1);
    Doubles.TotalOne(w, 2);
    Doubles.TotalOne(w, 3);
    Doubles.TotalOne(w, 4);
  }

  lemma NineWeights(w: seq<nat>)
    requires |w| == 9
    ensures Doubles.Total(w) == w[0] + w[1] + w[2] + w[3] + w[4] + w[5] + w[6] + w[7] + w[8]
  {
    FirstFive(w);
    Doubles.TotalOne(w, 5);
    Doubles.TotalOne(w, 6);
    Doubles.TotalOne(w, 7);
    Doubles.TotalOne(w, 8);
    assert w[..9] == w;
  }
}
