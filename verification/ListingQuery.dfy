/**
 GET /api/listings/today (src/api/server.js): the request's filters become a parameterised WHERE, shared by
 the page query and the count query, with an outer filter on how often a message was reposted.
 */
module ListingQuery {
  import opened Values

  // ---------------------------------------------------------------- rows and requests

  datatype Column = PropertyType | AgentPhone | Furnished | Intent | UnitType | RentPeriod

  /**
   A listing joined with its raw message. `nonProperty` is the outcome of the pattern condition; every column
   but the user, the time and that may be NULL.
   */
  datatype Row = Row(user: nat, listedAt: int, nonProperty: bool, confidence: Option<real>, community: Option<string>,
                     price: Option<real>, bedrooms: Option<real>, text: Column -> Option<string>,
                     sender: Option<string>, hash: Option<string>)

  /** A JavaScript number; PostgreSQL compares NaN as above every other number, and the infinities as one expects. */
  datatype Num = NaN | Infinite(positive: bool) | Finite(value: real)

  predicate Reaches(x: real, bound: Num) {
    match bound
    case NaN => false
    case Infinite(positive) => !positive
    case Finite(value) => x >= value
  }

  predicate StaysUnder(x: real, bound: Num) {
    match bound
    case NaN => true
    case Infinite(positive) => positive
    case Finite(value) => x <= value
  }

  /** JavaScript's `a > b`. */
  predicate Greater(a: Num, b: Num) {
    match (a, b)
    case (Finite(x), Finite(y)) => x > y
    case (Infinite(p), Infinite(q)) => p && !q
    case (Infinite(p), Finite(_)) => p
    case (Finite(_), Infinite(q)) => !q
    case _ => false
  }

  /** A price bound as it arrives: what `Number` makes of the text, and what `parseInt` makes of it. */
  datatype NumText = Absent | Given(number: Num, whole: Num)

  /** The query string. An empty text and a missing one are the same to the code; numbers are already parsed. */
  datatype Query = Query(location: string, minPrice: NumText, maxPrice: NumText, minConfidence: Num,
                         text: Column -> string, bedrooms: Option<Num>, minReposts: Option<int>,
                         limit: Option<int>, offset: Option<int>, includeNonProperty: bool)

  datatype Param = Id(id: nat) | Text(text: string) | Number(num: Num) | Whole(n: int)

  const FOUR_DAYS: int := 345_600_000

  /** What a statement runs with: ILIKE, uninterpreted, on the pattern and the text, and its own NOW(). */
  datatype Env = Env(like: (string, string) -> bool, now: int)

  /** SQL's three truth values. */
  datatype Truth = IsTrue | IsFalse | IsNull

  function Known(b: bool): Truth {
    if b then IsTrue else IsFalse
  }

  function AtLeast(x: Option<real>, bound: Num): Truth {
    if x.None? then IsNull else Known(Reaches(x.value, bound))
  }

  function AtMost(x: Option<real>, bound: Num): Truth {
    if x.None? then IsNull else Known(StaysUnder(x.value, bound))
  }

  function Same<T(==)>(x: Option<T>, y: T): Truth {
    if x.None? then IsNull else Known(x.value == y)
  }

  // ---------------------------------------------------------------- the generated SQL

  /** One conjunct of the WHERE; the number is that of its placeholder. */
  datatype Condition =
    | UserIs(k: nat)
    | IsRecent
    | ConfidenceAtLeast(k: nat)
    | CommunityLike(k: nat)
    | PriceAtLeast(k: nat)
    | PriceAtMost(k: nat)
    | ColumnIs(column: Column, k: nat)
    | BedroomsAre(k: nat)
    | LooksLikeProperty

  predicate Bound(params: seq<Param>, k: nat) {
    1 <= k <= |params|
  }

  /** Three-valued evaluation: a placeholder of the wrong type, which PostgreSQL refuses, is NULL here. */
  function Eval(c: Condition, params: seq<Param>, row: Row, env: Env): Truth {
    match c
    case IsRecent => Known(row.listedAt >= env.now - FOUR_DAYS)
    case LooksLikeProperty => Known(!row.nonProperty)
    case UserIs(k) => if Bound(params, k) && params[k - 1].Id? then Known(row.user == params[k - 1].id) else IsNull
    case ConfidenceAtLeast(k) =>
      if row.confidence.None? then IsTrue
      else if Bound(params, k) && params[k - 1].Number? then AtLeast(row.confidence, params[k - 1].num) else IsNull
    case CommunityLike(k) =>
      if Bound(params, k) && params[k - 1].Text? && row.community.Some?
      then Known(env.like(params[k - 1].text, row.community.value)) else IsNull
    case PriceAtLeast(k) =>
      if Bound(params, k) && params[k - 1].Number? then AtLeast(row.price, params[k - 1].num) else IsNull
    case PriceAtMost(k) =>
      if Bound(params, k) && params[k - 1].Number? then AtMost(row.price, params[k - 1].num) else IsNull
    case ColumnIs(column, k) =>
      if Bound(params, k) && params[k - 1].Text? then Same(row.text(column), params[k - 1].text) else IsNull
    case BedroomsAre(k) =>
      if Bound(params, k) && params[k - 1].Number?
      then (if row.bedrooms.None? then IsNull else Known(params[k - 1].num == Finite(row.bedrooms.value))) else IsNull
  }

  function And(a: Truth, b: Truth): Truth {
    if a.IsFalse? || b.IsFalse? then IsFalse
    else if a.IsNull? || b.IsNull? then IsNull
    else IsTrue
  }

  /** The conditions joined with AND; a row is kept when this is true, not when it is NULL. */
  function Conjunction(conditions: seq<Condition>, params: seq<Param>, row: Row, env: Env): Truth {
    if conditions == [] then IsTrue
    else And(Conjunction(conditions[..|conditions| - 1], params, row, env),
      Eval(conditions[|conditions| - 1], params, row, env))
  }

  // ---------------------------------------------------------------- filters

  /** A filter with its value, before it is split into a condition and a parameter. */
  datatype Filter =
    | OfUser(user: nat)
    | Recent
    | Confident(least: Num)
    | Near(location: string)
    | CostsAtLeast(num: Num)
    | CostsAtMost(num: Num)
    | Has(column: Column, text: string)
    | WithBedrooms(count: Num)
    | OnlyProperty

  function ParamOf(f: Filter): seq<Param> {
    match f
    case OfUser(user) => [Id(user)]
    case Recent => []
    case Confident(least) => [Number(least)]
    case Near(location) => [Text("%" + location + "%")]
    case CostsAtLeast(num) => [Number(num)]
    case CostsAtMost(num) => [Number(num)]
    case Has(_, text) => [Text(text)]
    case WithBedrooms(count) => [Number(count)]
    case OnlyProperty => []
  }

  function ConditionOf(f: Filter, k: nat): Condition {
    match f
    case OfUser(_) => UserIs(k)
    case Recent => IsRecent
    case Confident(_) => ConfidenceAtLeast(k)
    case Near(_) => CommunityLike(k)
    case CostsAtLeast(_) => PriceAtLeast(k)
    case CostsAtMost(_) => PriceAtMost(k)
    case Has(column, _) => ColumnIs(column, k)
    case WithBedrooms(_) => BedroomsAre(k)
    case OnlyProperty => LooksLikeProperty
  }

  /** What the filter asks of a row: a row without the value does not match, except on confidence. */
  predicate Wants(f: Filter, row: Row, env: Env) {
    match f
    case OfUser(user) => row.user == user
    case Recent => row.listedAt >= env.now - FOUR_DAYS
    case Confident(least) => row.confidence.Some? ==> Reaches(row.confidence.value, least)
    case Near(location) => row.community.Some? && env.like("%" + location + "%", row.community.value)
    case CostsAtLeast(num) => row.price.Some? && Reaches(row.price.value, num)
    case CostsAtMost(num) => row.price.Some? && StaysUnder(row.price.value, num)
    case Has(column, text) => row.text(column) == Some(text)
    case WithBedrooms(count) => row.bedrooms.Some? && count == Finite(row.bedrooms.value)
    case OnlyProperty => !row.nonProperty
  }

  /** The parameters of some filters. */
  function Params(filters: seq<Filter>): seq<Param> {
    if filters == [] then [] else Params(filters[..|filters| - 1]) + ParamOf(filters[|filters| - 1])
  }

  /** Their conditions: each takes the next free placeholder if it needs one. */
  function Conditions(filters: seq<Filter>): seq<Condition> {
    if filters == [] then []
    else
      var front := filters[..|filters| - 1];
      Conditions(front) + [ConditionOf(filters[|filters| - 1], |Params(front)| + 1)]
  }

  lemma EncodeOneMore(filters: seq<Filter>, f: Filter)
    ensures Params(filters + [f]) == Params(filters) + ParamOf(f)
    ensures Conditions(filters + [f]) == Conditions(filters) + [ConditionOf(f, |Params(filters)| + 1)]
  {
    assert (filters + [f])[..|filters|] == filters;
  }

  /** Whatever stands behind it in the parameter list, a condition means its filter. */
  lemma ConditionMeansFilter(f: Filter, before: seq<Param>, behind: seq<Param>, row: Row, env: Env)
    ensures Eval(ConditionOf(f, |before| + 1), before + ParamOf(f) + behind, row, env) == IsTrue <==> Wants(f, row, env)
  {
    var params := before + ParamOf(f) + behind;
    if ParamOf(f) != [] { assert params[|before|] == ParamOf(f)[0]; }
  }

  ghost predicate AllWant(filters: seq<Filter>, row: Row, env: Env) {
    forall f :: f in filters ==> Wants(f, row, env)
  }

  lemma BothWant(a: seq<Filter>, b: seq<Filter>, row: Row, env: Env)
    ensures AllWant(a + b, row, env) <==> AllWant(a, row, env) && AllWant(b, row, env)
  {
    forall f ensures f in a + b <==> f in a || f in b {
    }
  }

  lemma OneWants(f: Filter, row: Row, env: Env)
    ensures AllWant([f], row, env) <==> Wants(f, row, env)
  {
    assert f in [f];
  }

  predicate Keeps(conditions: seq<Condition>, params: seq<Param>, row: Row, env: Env) {
    Conjunction(conditions, params, row, env) == IsTrue
  }

  lemma KeepsOneMore(conditions: seq<Condition>, c: Condition, params: seq<Param>, row: Row, env: Env)
    ensures Keeps(conditions + [c], params, row, env) <==>
      Keeps(conditions, params, row, env) && Eval(c, params, row, env) == IsTrue
  {
    assert (conditions + [c])[..|conditions|] == conditions;
  }

  lemma OneMoreMeans(front: seq<Filter>, f: Filter, behind: seq<Param>, row: Row, env: Env)
    requires Keeps(Conditions(front), Params(front) + (ParamOf(f) + behind), row, env) <==> AllWant(front, row, env)
    ensures Keeps(Conditions(front + [f]), Params(front + [f]) + behind, row, env) <==> AllWant(front + [f], row, env)
  {
    var params := Params(front) + ParamOf(f) + behind;
    EncodeOneMore(front, f);
    assert Params(front) + (ParamOf(f) + behind) == params;
    ConditionMeansFilter(f, Params(front), behind, row, env);
    KeepsOneMore(Conditions(front), ConditionOf(f, |Params(front)| + 1), params, row, env);
    BothWant(front, [f], row, env);
    OneWants(f, row, env);
  }

  /** The generated WHERE keeps exactly the rows that every filter wants, also with more parameters behind its own. */
  lemma {:induction false} WhereMeansFilters(filters: seq<Filter>, behind: seq<Param>, row: Row, env: Env)
    ensures Keeps(Conditions(filters), Params(filters) + behind, row, env) <==> AllWant(filters, row, env)
  {
    if filters != [] {
      var front, f := filters[..|filters| - 1], filters[|filters| - 1];
      WhereMeansFilters(front, ParamOf(f) + behind, row, env);
      OneMoreMeans(front, f, behind, row, env);
      assert filters == front + [f];
    }
  }

  function PlaceholderOf(c: Condition): seq<nat> {
    match c
    case IsRecent => []
    case LooksLikeProperty => []
    case UserIs(k) => [k]
    case ConfidenceAtLeast(k) => [k]
    case CommunityLike(k) => [k]
    case PriceAtLeast(k) => [k]
    case PriceAtMost(k) => [k]
    case ColumnIs(_, k) => [k]
    case BedroomsAre(k) => [k]
  }

  /** The placeholders of some conditions, from left to right. */
  function Placeholders(conditions: seq<Condition>): seq<nat> {
    if conditions == [] then []
    else Placeholders(conditions[..|conditions| - 1]) + PlaceholderOf(conditions[|conditions| - 1])
  }

  lemma PlaceholdersOneMore(conditions: seq<Condition>, c: Condition)
    ensures Placeholders(conditions + [c]) == Placeholders(conditions) + PlaceholderOf(c)
  {
    assert (conditions + [c])[..|conditions|] == conditions;
  }

  function UpTo(n: nat): seq<nat> {
    seq(n, i => i + 1)
  }

  lemma FilterTakesNextPlace(f: Filter, n: nat)
    ensures UpTo(n) + PlaceholderOf(ConditionOf(f, n + 1)) == UpTo(n + |ParamOf(f)|)
  {
    if ParamOf(f) == [] { assert UpTo(n) + [] == UpTo(n); }
  }

  lemma OneMorePlace(conditions: seq<Condition>, n: nat, f: Filter)
    requires Placeholders(conditions) == UpTo(n)
    ensures Placeholders(conditions + [ConditionOf(f, n + 1)]) == UpTo(n + |ParamOf(f)|)
  {
    PlaceholdersOneMore(conditions, ConditionOf(f, n + 1));
    FilterTakesNextPlace(f, n);
  }

  /** The placeholders are $1, $2, ... in order, one for each parameter: none is shared, skipped or left unbound. */
  lemma {:induction false} EveryPlaceholderHasItsParameter(filters: seq<Filter>)
    ensures Placeholders(Conditions(filters)) == UpTo(|Params(filters)|)
  {
    if filters != [] {
      var front, f := filters[..|filters| - 1], filters[|filters| - 1];
      EveryPlaceholderHasItsParameter(front);
      OneMorePlace(Conditions(front), |Params(front)|, f);
    }
  }

  // ---------------------------------------------------------------- the request's filters

  function Add(filters: seq<Filter>, given: bool, f: Filter): seq<Filter> {
    if given then filters + [f] else filters
  }

  function AddText(filters: seq<Filter>, q: Query, column: Column): seq<Filter> {
    Add(filters, q.text(column) != "", Has(column, q.text(column)))
  }

  function WholeOf(bound: NumText): Num {
    if bound.Given? then bound.whole else NaN
  }

  /** A number of bedrooms is asked for when the text is there and is a number. */
  predicate AsksForBedrooms(q: Query) {
    q.bedrooms.Some? && !q.bedrooms.value.NaN?
  }

  function BedroomsOf(q: Query): Num {
    if AsksForBedrooms(q) then q.bedrooms.value else NaN
  }

  /** The filters of a request, in the order of the code. */
  function Base(q: Query, user: nat): seq<Filter> {
    [OfUser(user), Recent, Confident(q.minConfidence)]
  }

  function AddRanges(filters: seq<Filter>, q: Query): seq<Filter> {
    var near := Add(filters, q.location != "", Near(q.location));
    var least := Add(near, q.minPrice.Given?, CostsAtLeast(WholeOf(q.minPrice)));
    Add(least, q.maxPrice.Given?, CostsAtMost(WholeOf(q.maxPrice)))
  }

  function AddTexts(filters: seq<Filter>, q: Query): seq<Filter> {
    AddText(AddText(AddText(AddText(AddText(filters, q, PropertyType), q, AgentPhone), q, Furnished), q, Intent), q,
      UnitType)
  }

  function AddRest(filters: seq<Filter>, q: Query): seq<Filter> {
    var rooms := Add(filters, AsksForBedrooms(q), WithBedrooms(BedroomsOf(q)));
    Add(AddText(rooms, q, RentPeriod), !q.includeNonProperty, OnlyProperty)
  }

  function Requested(q: Query, user: nat): seq<Filter> {
    AddRest(AddTexts(AddRanges(Base(q, user), q), q), q)
  }

  /** The filter on a text column. */
  predicate ColumnOk(q: Query, row: Row, column: Column) {
    q.text(column) != "" ==> row.text(column) == Some(q.text(column))
  }

  /** The value is at least the bound: below a number, or not above minus infinity; never for NaN. */
  predicate NotBelow(x: real, bound: Num) {
    (bound.Finite? && bound.value <= x) || bound == Infinite(false)
  }

  /** The value is at most the bound; always for NaN, which PostgreSQL sorts last. */
  predicate NotAbove(x: real, bound: Num) {
    (bound.Finite? && x <= bound.value) || bound == Infinite(true) || bound == NaN
  }

  /** In plain terms, the rows that a request is about. */
  ghost predicate Visible(q: Query, user: nat, row: Row, env: Env) {
    && row.user == user && row.listedAt >= env.now - 4 * 24 * 60 * 60 * 1000
    && (row.confidence.Some? ==> NotBelow(row.confidence.value, q.minConfidence))
    && (q.location != "" ==> row.community.Some? && env.like("%" + q.location + "%", row.community.value))
    && (q.minPrice.Given? ==> row.price.Some? && NotBelow(row.price.value, q.minPrice.whole))
    && (q.maxPrice.Given? ==> row.price.Some? && NotAbove(row.price.value, q.maxPrice.whole))
    && ColumnOk(q, row, PropertyType) && ColumnOk(q, row, AgentPhone) && ColumnOk(q, row, Furnished)
    && ColumnOk(q, row, Intent) && ColumnOk(q, row, UnitType) && ColumnOk(q, row, RentPeriod)
    && (q.bedrooms.Some? && q.bedrooms.value != NaN ==>
          row.bedrooms.Some? && q.bedrooms.value == Finite(row.bedrooms.value))
    && (q.includeNonProperty || !row.nonProperty)
  }

  class WhereBuilder {
    var conditions: seq<Condition>
    var params: seq<Param>
    var p: nat
    ghost var filters: seq<Filter>

    ghost predicate Valid()
      reads this
    {
      conditions == Conditions(filters) && params == Params(filters) && p == |params|
    }

    /** The clause scoped to the user, with its two parameters. */
    constructor (user: nat, minConfidence: Num)
      ensures Valid() && filters == [OfUser(user), Recent, Confident(minConfidence)]
    {
      conditions := [UserIs(1), IsRecent, ConfidenceAtLeast(2)];
      params := [Id(user), Number(minConfidence)];
      p := 2;
      filters := [OfUser(user), Recent, Confident(minConfidence)];
      new;
      EncodeOneMore([], OfUser(user));
      EncodeOneMore([] + [OfUser(user)], Recent);
      EncodeOneMore([] + [OfUser(user)] + [Recent], Confident(minConfidence));
      assert [] + [OfUser(user)] + [Recent] + [Confident(minConfidence)] == filters;
    }

    /** `conditions.push(... $${++p})` and `params.push(value)`, when the request has the value. */
    method Push(given: bool, f: Filter)
      requires Valid()
      modifies this
      ensures Valid() && filters == Add(old(filters), given, f)
    {
      if given {
        EncodeOneMore(filters, f);
        if ParamOf(f) == [] {
          conditions := conditions + [ConditionOf(f, p + 1)];
        } else {
          p := p + 1;
          conditions := conditions + [ConditionOf(f, p)];
          params := params + ParamOf(f);
        }
        filters := filters + [f];
      }
    }
  }

  // ---------------------------------------------------------------- the two queries

  /** The outer part of the page query and of the count query; the placeholders behind the shared WHERE. */
  datatype PageSql = PageSql(conditions: seq<Condition>, reposts: Option<nat>, limit: nat, offset: nat)
  datatype CountSql = CountSql(conditions: seq<Condition>, reposts: Option<nat>)

  datatype Plan = Plan(page: PageSql, pageParams: seq<Param>, count: CountSql, countParams: seq<Param>)

  datatype Refusal = MinNotANumber | MaxNotANumber | MinAboveMax

  datatype Answer = Refused(error: Refusal) | Planned(plan: Plan)

  /** Why a request is answered with status 400. */
  function Check(q: Query): Option<Refusal> {
    if q.minPrice.Given? && q.minPrice.number.NaN? then Some(MinNotANumber)
    else if q.maxPrice.Given? && q.maxPrice.number.NaN? then Some(MaxNotANumber)
    else if q.minPrice.Given? && q.maxPrice.Given? && Greater(q.minPrice.number, q.maxPrice.number)
    then Some(MinAboveMax)
    else None
  }

  function Limit(q: Query): (limit: nat)
    ensures 1 <= limit <= 500
  {
    if q.limit.Some? && q.limit.value > 0 then (if q.limit.value < 500 then q.limit.value else 500) else 250
  }

  function Offset(q: Query): nat {
    if q.offset.Some? && q.offset.value >= 0 then q.offset.value else 0
  }

  /** The least number of reposts, when it asks for anything. */
  function Threshold(q: Query): Option<int> {
    if q.minReposts.Some? && q.minReposts.value > 1 then q.minReposts else None
  }

  function RepostParams(q: Query): seq<Param> {
    if Threshold(q).Some? then [Whole(Threshold(q).value)] else []
  }

  /** The plan over the shared WHERE: each placeholder is the place of its value in its own parameter list. */
  function PlanOf(q: Query, conditions: seq<Condition>, params: seq<Param>): Plan {
    var n := |params|;
    var r := |RepostParams(q)|;
    var reposts := if r == 1 then Some(n + 1) else None;
    Plan(PageSql(conditions, reposts, n + r + 1, n + r + 2),
      params + RepostParams(q) + [Whole(Limit(q)), Whole(Offset(q))],
         CountSql(conditions, reposts), params + RepostParams(q))
  }

  /** The part of the handler between the query string and the database. */
  method BuildQueries(q: Query, user: nat) returns (answer: Answer)
    ensures answer == if Check(q).Some? then Refused(Check(q).value)
      else Planned(PlanOf(q, Conditions(Requested(q, user)), Params(Requested(q, user))))
  {
    if q.minPrice.Given? && q.minPrice.number.NaN? {
      return Refused(MinNotANumber);
    }
    if q.maxPrice.Given? && q.maxPrice.number.NaN? {
      return Refused(MaxNotANumber);
    }
    if q.minPrice.Given? && q.maxPrice.Given? && Greater(q.minPrice.number, q.maxPrice.number) {
      return Refused(MinAboveMax);
    }
    var b := BuildWhere(q, user);
    var plan := BuildPlan(q, b.conditions, b.params, b.p);
    return Planned(plan);
  }

  method BuildPlan(q: Query, conditions: seq<Condition>, params: seq<Param>, last: nat) returns (plan: Plan)
    requires last == |params|
    ensures plan == PlanOf(q, conditions, params)
  {
    var pageParams, countParams := params, params;
    var reposts: Option<nat> := None;
    var p := last;
    if q.minReposts.Some? && q.minReposts.value > 1 {
      p := p + 1;
      reposts := Some(p);
      pageParams := pageParams + [Whole(q.minReposts.value)];
      countParams := countParams + [Whole(q.minReposts.value)];
    }
    p := p + 1;
    var limitPlace := p;
    pageParams := pageParams + [Whole(Limit(q))];
    p := p + 1;
    var offsetPlace := p;
    pageParams := pageParams + [Whole(Offset(q))];
    assert pageParams == params + RepostParams(q) + [Whole(Limit(q)), Whole(Offset(q))];
    assert countParams == params + RepostParams(q);
    return Plan(PageSql(conditions, reposts, limitPlace, offsetPlace), pageParams, CountSql(conditions, reposts),
      countParams);
  }

  method BuildWhere(q: Query, user: nat) returns (b: WhereBuilder)
    ensures fresh(b) && b.Valid() && b.filters == Requested(q, user)
  {
    b := new WhereBuilder(user, q.minConfidence);
    PushRanges(b, q);
    PushTexts(b, q);
    PushRest(b, q);
  }

  method PushRanges(b: WhereBuilder, q: Query)
    requires b.Valid()
    modifies b
    ensures b.Valid() && b.filters == AddRanges(old(b.filters), q)
  {
    b.Push(q.location != "", Near(q.location));
    b.Push(q.minPrice.Given?, CostsAtLeast(WholeOf(q.minPrice)));
    b.Push(q.maxPrice.Given?, CostsAtMost(WholeOf(q.maxPrice)));
  }

  method PushTexts(b: WhereBuilder, q: Query)
    requires b.Valid()
    modifies b
    ensures b.Valid() && b.filters == AddTexts(old(b.filters), q)
  {
    PushText(b, q, PropertyType);
    PushText(b, q, AgentPhone);
    PushText(b, q, Furnished);
    PushText(b, q, Intent);
    PushText(b, q, UnitType);
  }

  method PushText(b: WhereBuilder, q: Query, column: Column)
    requires b.Valid()
    modifies b
    ensures b.Valid() && b.filters == AddText(old(b.filters), q, column)
  {
    b.Push(q.text(column) != "", Has(column, q.text(column)));
  }

  method PushRest(b: WhereBuilder, q: Query)
    requires b.Valid()
    modifies b
    ensures b.Valid() && b.filters == AddRest(old(b.filters), q)
  {
    b.Push(AsksForBedrooms(q), WithBedrooms(BedroomsOf(q)));
    PushText(b, q, RentPeriod);
    b.Push(!q.includeNonProperty, OnlyProperty);
  }

  // ---------------------------------------------------------------- what PostgreSQL makes of them

  function Where(table: seq<Row>, conditions: seq<Condition>, params: seq<Param>, env: Env): seq<Row> {
    if table == [] then []
    else
      Where(table[..|table| - 1], conditions, params, env)
      + (if Keeps(conditions, params, table[|table| - 1], env) then [table[|table| - 1]] else [])
  }

  /** COUNT(*) OVER (PARTITION BY sender, content hash): NULLs fall into one partition. */
  function Reposts(rows: seq<Row>, row: Row): nat {
    if rows == [] then 0
    else
      var last := rows[|rows| - 1];
      Reposts(rows[..|rows| - 1], row) + (if last.sender == row.sender && last.hash == row.hash then 1 else 0)
  }

  /** The rows of `rows` that occur at least `least` times within `all`. */
  function OftenReposted(rows: seq<Row>, all: seq<Row>, least: int): seq<Row> {
    if rows == [] then []
    else
      OftenReposted(rows[..|rows| - 1], all, least)
      + (if Reposts(all, rows[|rows| - 1]) >= least then [rows[|rows| - 1]] else [])
  }

  function WholeAt(params: seq<Param>, k: nat): int {
    if Bound(params, k) && params[k - 1].Whole? then params[k - 1].n else 0
  }

  function Survivors(table: seq<Row>, conditions: seq<Condition>, reposts: Option<nat>, params: seq<Param>,
                     env: Env): seq<Row> {
    var rows := Where(table, conditions, params, env);
    if reposts.Some? then OftenReposted(rows, rows, WholeAt(params, reposts.value)) else rows
  }

  /** LIMIT and OFFSET over rows in the query's order. */
  function Slice(rows: seq<Row>, limit: int, offset: int): seq<Row>
    requires limit >= 0 && offset >= 0
  {
    var from := if offset < |rows| then offset else |rows|;
    var to := if offset + limit < |rows| then offset + limit else |rows|;
    rows[from..to]
  }

  /** The table is given in the query's order; ties under created_at are taken to break the same way each time. */
  function RunPage(sql: PageSql, params: seq<Param>, table: seq<Row>, env: Env): seq<Row>
    requires WholeAt(params, sql.limit) >= 0 && WholeAt(params, sql.offset) >= 0
  {
    Slice(Survivors(table, sql.conditions, sql.reposts, params, env), WholeAt(params, sql.limit),
      WholeAt(params, sql.offset))
  }

  function RunCount(sql: CountSql, params: seq<Param>, table: seq<Row>, env: Env): nat {
    |Survivors(table, sql.conditions, sql.reposts, params, env)|
  }

  // ---------------------------------------------------------------- what the request means

  /** The visible rows. */
  ghost function VisibleRows(q: Query, user: nat, table: seq<Row>, env: Env): seq<Row> {
    if table == [] then []
    else
      VisibleRows(q, user, table[..|table| - 1], env)
      + (if Visible(q, user, table[|table| - 1], env) then [table[|table| - 1]] else [])
  }

  /** How many of the rows are the same message of the same sender. */
  ghost function SameMessage(rows: seq<Row>, row: Row): nat {
    |set i | 0 <= i < |rows| && rows[i].sender == row.sender && rows[i].hash == row.hash|
  }

  /** The rows whose message occurs at least so often among all. */
  ghost function Frequent(rows: seq<Row>, all: seq<Row>, least: int): seq<Row> {
    if rows == [] then []
    else
      var last := rows[|rows| - 1];
      Frequent(rows[..|rows| - 1], all, least) + (if SameMessage(all, last) >= least then [last] else [])
  }

  /** The whole list that the request pages through: with a number of reposts above one, only what occurs as often. */
  ghost function Listed(q: Query, user: nat, table: seq<Row>, env: Env): seq<Row> {
    var rows := VisibleRows(q, user, table, env);
    if q.minReposts.Some? && q.minReposts.value > 1 then Frequent(rows, rows, q.minReposts.value) else rows
  }

  lemma {:induction false} RepostsCountTheMessage(rows: seq<Row>, row: Row)
    ensures Reposts(rows, row) == SameMessage(rows, row)
  {
    if rows != [] {
      var last := |rows| - 1;
      var front := rows[..last];
      RepostsCountTheMessage(front, row);
      var same := set i | 0 <= i < |rows| && rows[i].sender == row.sender && rows[i].hash == row.hash;
      var before := set i | 0 <= i < |front| && front[i].sender == row.sender && front[i].hash == row.hash;
      assert same == if rows[last].sender == row.sender && rows[last].hash == row.hash then before + {last} else before;
    }
  }

  lemma {:induction false} OftenIsFrequent(rows: seq<Row>, all: seq<Row>, least: int)
    ensures OftenReposted(rows, all, least) == Frequent(rows, all, least)
  {
    if rows != [] {
      OftenIsFrequent(rows[..|rows| - 1], all, least);
      RepostsCountTheMessage(all, rows[|rows| - 1]);
    }
  }

  lemma AddWants(filters: seq<Filter>, given: bool, f: Filter, row: Row, env: Env)
    ensures AllWant(Add(filters, given, f), row, env) <==> AllWant(filters, row, env) && (given ==> Wants(f, row, env))
  {
    BothWant(filters, [f], row, env);
    OneWants(f, row, env);
  }

  lemma AddTextWants(filters: seq<Filter>, q: Query, column: Column, row: Row, env: Env)
    ensures AllWant(AddText(filters, q, column), row, env) <==> AllWant(filters, row, env) && ColumnOk(q, row, column)
  {
    AddWants(filters, q.text(column) != "", Has(column, q.text(column)), row, env);
  }

  lemma BaseWants(q: Query, user: nat, row: Row, env: Env)
    ensures AllWant(Base(q, user), row, env) <==>
      Wants(OfUser(user), row, env) && Wants(Recent, row, env) && Wants(Confident(q.minConfidence), row, env)
  {
    var base := Base(q, user);
    assert base[0] in base && base[1] in base && base[2] in base;
  }

  lemma RangesWant(filters: seq<Filter>, q: Query, row: Row, env: Env)
    ensures AllWant(AddRanges(filters, q), row, env) <==>
      && AllWant(filters, row, env)
      && (q.location != "" ==> Wants(Near(q.location), row, env))
      && (q.minPrice.Given? ==> Wants(CostsAtLeast(q.minPrice.whole), row, env))
      && (q.maxPrice.Given? ==> Wants(CostsAtMost(q.maxPrice.whole), row, env))
  {
    var near := Add(filters, q.location != "", Near(q.location));
    var least := Add(near, q.minPrice.Given?, CostsAtLeast(WholeOf(q.minPrice)));
    AddWants(filters, q.location != "", Near(q.location), row, env);
    AddWants(near, q.minPrice.Given?, CostsAtLeast(WholeOf(q.minPrice)), row, env);
    AddWants(least, q.maxPrice.Given?, CostsAtMost(WholeOf(q.maxPrice)), row, env);
  }

  lemma TextsWant(filters: seq<Filter>, q: Query, row: Row, env: Env)
    ensures AllWant(AddTexts(filters, q), row, env) <==>
      && AllWant(filters, row, env)
      && ColumnOk(q, row, PropertyType) && ColumnOk(q, row, AgentPhone) && ColumnOk(q, row, Furnished)
      && ColumnOk(q, row, Intent) && ColumnOk(q, row, UnitType)
  {
    var f1 := AddText(filters, q, PropertyType);
    var f2 := AddText(f1, q, AgentPhone);
    var f3 := AddText(f2, q, Furnished);
    var f4 := AddText(f3, q, Intent);
    AddTextWants(filters, q, PropertyType, row, env);
    AddTextWants(f1, q, AgentPhone, row, env);
    AddTextWants(f2, q, Furnished, row, env);
    AddTextWants(f3, q, Intent, row, env);
    AddTextWants(f4, q, UnitType, row, env);
  }

  lemma RestWants(filters: seq<Filter>, q: Query, row: Row, env: Env)
    ensures AllWant(AddRest(filters, q), row, env) <==>
      && AllWant(filters, row, env)
      && (AsksForBedrooms(q) ==> Wants(WithBedrooms(q.bedrooms.value), row, env))
      && ColumnOk(q, row, RentPeriod) && (q.includeNonProperty || Wants(OnlyProperty, row, env))
  {
    var rooms := Add(filters, AsksForBedrooms(q), WithBedrooms(BedroomsOf(q)));
    AddWants(filters, AsksForBedrooms(q), WithBedrooms(BedroomsOf(q)), row, env);
    AddTextWants(rooms, q, RentPeriod, row, env);
    AddWants(AddText(rooms, q, RentPeriod), !q.includeNonProperty, OnlyProperty, row, env);
  }

  /** The request's filters together ask for exactly the visible rows. */
  lemma RequestedMeansVisible(q: Query, user: nat, row: Row, env: Env)
    ensures AllWant(Requested(q, user), row, env) <==> Visible(q, user, row, env)
  {
    BaseWants(q, user, row, env);
    RangesWant(Base(q, user), q, row, env);
    TextsWant(AddRanges(Base(q, user), q), q, row, env);
    RestWants(AddTexts(AddRanges(Base(q, user), q), q), q, row, env);
  }

  lemma {:induction false} WhereIsVisible(q: Query, user: nat, behind: seq<Param>, table: seq<Row>, env: Env)
    ensures var filters := Requested(q, user);
      Where(table, Conditions(filters), Params(filters) + behind, env) == VisibleRows(q, user, table, env)
  {
    if table != [] {
      var row := table[|table| - 1];
      WhereIsVisible(q, user, behind, table[..|table| - 1], env);
      WhereMeansFilters(Requested(q, user), behind, row, env);
      RequestedMeansVisible(q, user, row, env);
    }
  }

  /**
   For every combination of filters: the page query returns exactly the requested stretch of the list the
   request means, and the count query its whole length, with or without the repost filter, each at the moment
   that it runs.
   */
  lemma QueriesMeanTheRequest(q: Query, user: nat, table: seq<Row>, page: Env, count: Env)
    ensures var plan := PlanOf(q, Conditions(Requested(q, user)), Params(Requested(q, user)));
      && WholeAt(plan.pageParams, plan.page.limit) == Limit(q)
        && WholeAt(plan.pageParams, plan.page.offset) == Offset(q)
      && RunPage(plan.page, plan.pageParams, table, page) == Slice(Listed(q, user, table, page), Limit(q), Offset(q))
      && RunCount(plan.count, plan.countParams, table, count) == |Listed(q, user, table, count)|
  {
    var params := Params(Requested(q, user));
    var paging := [Whole(Limit(q)), Whole(Offset(q))];
    WhereIsVisible(q, user, RepostParams(q) + paging, table, page);
    WhereIsVisible(q, user, RepostParams(q), table, count);
    if q.minReposts.Some? && q.minReposts.value > 1 {
      var now, later := VisibleRows(q, user, table, page), VisibleRows(q, user, table, count);
      OftenIsFrequent(now, now, q.minReposts.value);
      OftenIsFrequent(later, later, q.minReposts.value);
    }
    assert params + (RepostParams(q) + paging) == params + RepostParams(q) + paging;
  }

  /** No row grows four days old between the two statements. */
  ghost predicate SameAge(table: seq<Row>, page: Env, count: Env) {
    page.like == count.like
    && forall i :: 0 <= i < |table| ==>
      (table[i].listedAt >= page.now - FOUR_DAYS <==> table[i].listedAt >= count.now - FOUR_DAYS)
  }

  lemma {:induction false} SameVisible(q: Query, user: nat, table: seq<Row>, page: Env, count: Env)
    requires SameAge(table, page, count)
    ensures VisibleRows(q, user, table, page) == VisibleRows(q, user, table, count)
  {
    if table != [] {
      var front := table[..|table| - 1];
      assert forall i :: 0 <= i < |front| ==> front[i] == table[i];
      SameVisible(q, user, front, page, count);
    }
  }

  /**
   Then the total that is answered is that of the list the page is from, and `hasMore` says whether the next page
   has rows.
   */
  lemma TotalFitsPage(q: Query, user: nat, table: seq<Row>, page: Env, count: Env)
    requires SameAge(table, page, count)
    ensures var listed := Listed(q, user, table, page);
      var plan := PlanOf(q, Conditions(Requested(q, user)), Params(Requested(q, user)));
      var total := RunCount(plan.count, plan.countParams, table, count);
      total == |listed|
        && (HasMore(total, Limit(q), Offset(q)) <==> Slice(listed, Limit(q), Offset(q) + Limit(q)) != [])
  {
    QueriesMeanTheRequest(q, user, table, page, count);
    SameVisible(q, user, table, page, count);
    PagesPartitionTheList(Listed(q, user, table, page), Limit(q), Offset(q));
  }

  // ---------------------------------------------------------------- paging

  predicate HasMore(total: nat, limit: nat, offset: nat) {
    offset + limit < total
  }

  /** What a client collects that follows `hasMore` from an offset on. */
  function Follow(rows: seq<Row>, limit: nat, offset: nat): seq<Row>
    requires limit > 0
    decreases if offset < |rows| then |rows| - offset else 0
  {
    Slice(rows, limit, offset) + (if HasMore(|rows|, limit, offset) then Follow(rows, limit, offset + limit) else [])
  }

  /** Consecutive pages partition the list: no row twice, none missing; `hasMore` says whether the next page has any. */
  lemma {:induction false} PagesPartitionTheList(rows: seq<Row>, limit: nat, offset: nat)
    requires limit > 0
    ensures Follow(rows, limit, offset) == if offset < |rows| then rows[offset..] else []
    ensures HasMore(|rows|, limit, offset) <==> Slice(rows, limit, offset + limit) != []
    decreases if offset < |rows| then |rows| - offset else 0
  {
    if HasMore(|rows|, limit, offset) {
      PagesPartitionTheList(rows, limit, offset + limit);
    }
  }

  // ---------------------------------------------------------------- what the numbers of a request come to

  /**
   A page size from 1 to 500 is taken as it is, a larger one as 500, anything else as 250; an offset must not be
   negative.
   */
  lemma PagingIsClamped(q: Query)
    ensures Limit(q) ==
      if q.limit.None? || q.limit.value <= 0 then 250 else if q.limit.value > 500 then 500 else q.limit.value
    ensures Offset(q) == if q.offset.None? || q.offset.value < 0 then 0 else q.offset.value
  {
  }

  /** A page has the rows from its offset on, as many as the limit allows and the list has. */
  lemma SliceIsTheStretch(rows: seq<Row>, limit: nat, offset: nat)
    ensures var page := Slice(rows, limit, offset);
      && (offset >= |rows| ==> page == [])
      && (offset < |rows| ==> |page| == if limit < |rows| - offset then limit else |rows| - offset)
      && forall i :: 0 <= i < |page| ==> page[i] == rows[offset + i]
  {
  }

  /** The first number is above the second, infinities included; nothing is above or below NaN. */
  predicate Above(a: Num, b: Num) {
    && a != NaN && b != NaN && a != b && a != Infinite(false) && b != Infinite(true)
    && (a.Finite? && b.Finite? ==> a.value > b.value)
  }

  /** A request is refused when a price bound is not a number, or else when the lower one is above the upper one. */
  lemma RefusedWhenBoundsAreBad(q: Query)
    ensures Check(q) ==
      if q.minPrice.Given? && q.minPrice.number == NaN then Some(MinNotANumber)
      else if q.maxPrice.Given? && q.maxPrice.number == NaN then Some(MaxNotANumber)
      else if q.minPrice.Given? && q.maxPrice.Given? && Above(q.minPrice.number, q.maxPrice.number)
      then Some(MinAboveMax)
      else None
  {
  }
}
