/**
 * The restaurant API: the parameterised statement that `/recommend` builds
 * from its optional filters, the fixed `/restaurants` statement, and the way a
 * query outcome becomes an HTTP response. The database is a parameter
 * (`execute`), never modelled.
 */
module Api {
  import opened Wrappers
  import opened Js
  import opened Restaurants

  /** The query-string filters of `/recommend`; a missing key is `None`. */
  datatype Filter = Filter(cuisine: Option<string>, city: Option<string>, minRating: Option<string>)

  /**
   * A bound parameter. `Like` carries a LIKE pattern; `NumberOf` stands for
   * `Number(raw)`, kept as the raw text because the coercion is floating point.
   */
  datatype Param = Like(pattern: string) | NumberOf(raw: string)

  datatype Column = CuisineColumn | CityColumn | RatingColumn

  /** One conjunct of the WHERE clause together with the value bound to its `?`. */
  datatype Predicate = Predicate(column: Column, param: Param)

  /** A statement text and its bound parameters, as handed to the database. */
  datatype Query = Query(sql: string, params: seq<Param>)

  datatype Body = RowsBody(rows: seq<Restaurant>) | ErrorBody(error: string)

  datatype Response = Response(status: nat, body: Body)

  const SelectAll := "SELECT * FROM restaurant"
  const Base := "SELECT * FROM restaurant WHERE 1=1"
  const OrderByRating := " ORDER BY rating DESC"
  const CuisineText := PredicateText(CuisineColumn)
  const CityText := PredicateText(CityColumn)
  const RatingText := PredicateText(RatingColumn)
  const InternalServerError := "Internal Server Error"

  // ---------------------------------------------------------------------------
  // Placeholders

  /** The number of `?` placeholders in a statement text. */
  function Placeholders(s: string): (n: nat)
  {
    if s == [] then 0 else (if s[0] == '?' then 1 else 0) + Placeholders(s[1..])
  }

  lemma {:induction false} PlaceholdersAppend(a: string, b: string)
    ensures Placeholders(a + b) == Placeholders(a) + Placeholders(b)
  {
    if a != [] {
      assert (a + b)[0] == a[0] && (a + b)[1..] == a[1..] + b;
      PlaceholdersAppend(a[1..], b);
    } else {
      assert a + b == b;
    }
  }

  lemma AppendAssociative(a: string, b: string, c: string)
    ensures a + b + c == a + (b + c)
  {
  }

  lemma AppendEmpty(a: string)
    ensures a + "" == a
  {
  }

  predicate PlaceholderFree(s: string) {
    forall i :: 0 <= i < |s| ==> s[i] != '?'
  }

  lemma {:induction false} NoPlaceholders(s: string)
    requires PlaceholderFree(s)
    ensures Placeholders(s) == 0
  {
    if s != [] {
      NoPlaceholders(s[1..]);
    }
  }

  // ---------------------------------------------------------------------------
  // The typed predicate list and the statement it folds into

  /** Position of a column in the fixed filter order cuisine, city, min_rating. */
  function Rank(c: Column): (r: nat) {
    match c
    case CuisineColumn => 0
    case CityColumn => 1
    case RatingColumn => 2
  }

  /** The text before a conjunct's placeholder. */
  function Stem(c: Column): (stem: string) {
    match c
    case CuisineColumn => " AND cuisine LIKE "
    case CityColumn => " AND city LIKE "
    case RatingColumn => " AND rating >= "
  }

  lemma StemsArePlaceholderFree(c: Column)
    ensures PlaceholderFree(Stem(c))
  {
  }

  /** The text a column's conjunct appends: its stem, then its placeholder. */
  function PredicateText(c: Column): (t: string)
    ensures |t| > 0 && t[|t| - 1] == '?'
  {
    Stem(c) + "?"
  }

  /** Each conjunct holds exactly one placeholder. */
  lemma OnePlaceholderPerPredicate(c: Column)
    ensures Placeholders(PredicateText(c)) == 1
  {
    StemsArePlaceholderFree(c);
    NoPlaceholders(Stem(c));
    PlaceholdersAppend(Stem(c), "?");
  }

  /** The LIKE pattern bound for a substring filter. */
  function Wrap(v: string): (pattern: string) {
    "%" + v + "%"
  }

  /** Which filters are truthy, in the fixed order cuisine, city, min_rating. */
  function Presence(f: Filter): (present: (bool, bool, bool)) {
    (OptionalTruthy(f.cuisine), OptionalTruthy(f.city), OptionalTruthy(f.minRating))
  }

  /** The conjuncts a filter contributes, in the fixed order. */
  function Predicates(f: Filter): (ps: seq<Predicate>)
    ensures forall i, j :: 0 <= i < j < |ps| ==> Rank(ps[i].column) < Rank(ps[j].column)
    ensures (exists i :: 0 <= i < |ps| && ps[i].column == CuisineColumn) <==> OptionalTruthy(f.cuisine)
    ensures (exists i :: 0 <= i < |ps| && ps[i].column == CityColumn) <==> OptionalTruthy(f.city)
    ensures (exists i :: 0 <= i < |ps| && ps[i].column == RatingColumn) <==> OptionalTruthy(f.minRating)
    ensures forall i :: 0 <= i < |ps| ==> ps[i].param == match ps[i].column
      case CuisineColumn => Like(Wrap(f.cuisine.value))
      case CityColumn => Like(Wrap(f.city.value))
      case RatingColumn => NumberOf(f.minRating.value)
  {
    var c := if OptionalTruthy(f.cuisine) then [Predicate(CuisineColumn, Like(Wrap(f.cuisine.value)))] else [];
    var t := if OptionalTruthy(f.city) then [Predicate(CityColumn, Like(Wrap(f.city.value)))] else [];
    var r := if OptionalTruthy(f.minRating) then [Predicate(RatingColumn, NumberOf(f.minRating.value))] else [];
    var ps := c + t + r;
    assert forall i :: 0 <= i < |ps| ==> ps[i] == if i < |c| then c[i] else if i < |c| + |t| then t[i - |c|] else r[i - |c| - |t|];
    assert c != [] ==> ps[0] == c[0];
    assert t != [] ==> ps[|c|] == t[0];
    assert r != [] ==> ps[|c| + |t|] == r[0];
    ps
  }

  /** The conjuncts' texts, appended one after another. */
  function PredicatesText(ps: seq<Predicate>): (text: string)
  {
    if ps == [] then "" else PredicatesText(ps[..|ps| - 1]) + PredicateText(ps[|ps| - 1].column)
  }

  /** The values bound to the conjuncts' placeholders, in the same order. */
  function Bind(ps: seq<Predicate>): (params: seq<Param>)
  {
    seq(|ps|, i requires 0 <= i < |ps| => ps[i].param)
  }

  /** The `/recommend` statement: the base, the filters' conjuncts, the sort. */
  function BuildQuery(f: Filter): (q: Query) {
    var ps := Predicates(f);
    Query(Base + PredicatesText(ps) + OrderByRating, Bind(ps))
  }

  /**
   * The conjuncts a set of present filters selects, written without any filter
   * value: the statement text cannot contain user input.
   */
  function Conjuncts(present: (bool, bool, bool)): (text: string) {
    (if present.0 then CuisineText else "")
    + (if present.1 then CityText else "")
    + (if present.2 then RatingText else "")
  }

  /** The statement text a set of present filters selects. */
  function SqlFor(present: (bool, bool, bool)): (sql: string) {
    Base + Conjuncts(present) + OrderByRating
  }

  lemma PredicatesTextSnoc(ps: seq<Predicate>, p: Predicate)
    ensures PredicatesText(ps + [p]) == PredicatesText(ps) + PredicateText(p.column)
  {
    assert (ps + [p])[..|ps|] == ps;
  }

  lemma {:induction false} PlaceholdersOfPredicates(ps: seq<Predicate>)
    ensures Placeholders(PredicatesText(ps)) == |ps|
  {
    if ps != [] {
      PlaceholdersOfPredicates(ps[..|ps| - 1]);
      OnePlaceholderPerPredicate(ps[|ps| - 1].column);
      PlaceholdersAppend(PredicatesText(ps[..|ps| - 1]), PredicateText(ps[|ps| - 1].column));
    }
  }

  lemma {:induction false} PredicatesTextPrefix(ps: seq<Predicate>, k: nat)
    requires k <= |ps|
    ensures PredicatesText(ps[..k]) <= PredicatesText(ps)
    decreases |ps|
  {
    if k < |ps| {
      assert ps[..|ps| - 1][..k] == ps[..k];
      PredicatesTextPrefix(ps[..|ps| - 1], k);
    } else {
      assert ps[..k] == ps;
    }
  }

  lemma FixedTextsArePlaceholderFree()
    ensures PlaceholderFree(Base) && PlaceholderFree(OrderByRating)
  {
  }

  lemma BaseAndOrderHaveNoPlaceholders()
    ensures Placeholders(Base) == 0 && Placeholders(OrderByRating) == 0
  {
    FixedTextsArePlaceholderFree();
    NoPlaceholders(Base);
    NoPlaceholders(OrderByRating);
  }

  // ---------------------------------------------------------------------------
  // Properties of the `/recommend` statement

  /** The statement starts with the fixed base and ends with the fixed sort. */
  lemma QueryFraming(f: Filter)
    ensures Base <= BuildQuery(f).sql
    ensures |OrderByRating| <= |BuildQuery(f).sql|
    ensures BuildQuery(f).sql[|BuildQuery(f).sql| - |OrderByRating|..] == OrderByRating
  {
  }

  /** A placeholder-free head and tail around the conjuncts add no placeholders. */
  lemma PlaceholdersAroundPredicates(head: string, ps: seq<Predicate>, tail: string)
    requires Placeholders(head) == 0 && Placeholders(tail) == 0
    ensures Placeholders(head + PredicatesText(ps) + tail) == |ps|
  {
    PlaceholdersOfPredicates(ps);
    PlaceholdersAppend(head, PredicatesText(ps));
    PlaceholdersAppend(head + PredicatesText(ps), tail);
  }

  /** There are exactly as many placeholders in the text as bound parameters. */
  lemma PlaceholdersMatchParams(f: Filter)
    ensures Placeholders(BuildQuery(f).sql) == |BuildQuery(f).params|
  {
    BaseAndOrderHaveNoPlaceholders();
    PlaceholdersAroundPredicates(Base, Predicates(f), OrderByRating);
  }

  /**
   * In any text made of a placeholder-free head, the conjuncts of `ps` and a
   * tail, the prefix that ends with the i-th conjunct holds exactly i + 1
   * placeholders and ends with one.
   */
  lemma PrefixThroughPredicate(head: string, ps: seq<Predicate>, tail: string, i: nat)
    requires Placeholders(head) == 0
    requires i < |ps|
    ensures var prefix := head + PredicatesText(ps[..i]) + PredicateText(ps[i].column);
      && prefix <= head + PredicatesText(ps) + tail
      && Placeholders(prefix) == i + 1
      && prefix[|prefix| - 1] == '?'
  {
    assert ps[..i + 1] == ps[..i] + [ps[i]];
    PredicatesTextSnoc(ps[..i], ps[i]);
    AppendAssociative(head, PredicatesText(ps[..i]), PredicateText(ps[i].column));
    PredicatesTextPrefix(ps, i + 1);
    PlaceholdersOfPredicates(ps[..i + 1]);
    PlaceholdersAppend(head, PredicatesText(ps[..i + 1]));
  }

  /**
   * The i-th parameter belongs to the i-th placeholder: the prefix of the text
   * that holds exactly i + 1 placeholders ends with the conjunct of the i-th
   * predicate's column, and the i-th parameter is that predicate's value.
   */
  lemma PlaceholderBindsParam(f: Filter, i: nat)
    requires i < |BuildQuery(f).params|
    ensures var ps := Predicates(f);
      var prefix := Base + PredicatesText(ps[..i]) + PredicateText(ps[i].column);
      && prefix <= BuildQuery(f).sql
      && Placeholders(prefix) == i + 1
      && prefix[|prefix| - 1] == '?'
      && BuildQuery(f).params[i] == ps[i].param
  {
    var ps := Predicates(f);
    assert BuildQuery(f).params == Bind(ps);
    assert Bind(ps)[i] == ps[i].param;
    BaseAndOrderHaveNoPlaceholders();
    PrefixThroughPredicate(Base, ps, OrderByRating, i);
  }

  lemma {:induction false} PredicatesTextAppend(ps: seq<Predicate>, qs: seq<Predicate>)
    ensures PredicatesText(ps + qs) == PredicatesText(ps) + PredicatesText(qs)
    decreases |qs|
  {
    if qs == [] {
      assert ps + qs == ps;
    } else {
      var init := qs[..|qs| - 1];
      var last := qs[|qs| - 1];
      assert qs == init + [last];
      assert ps + qs == (ps + init) + [last];
      PredicatesTextAppend(ps, init);
      PredicatesTextSnoc(ps + init, last);
      PredicatesTextSnoc(init, last);
      AppendAssociative(PredicatesText(ps), PredicatesText(init), PredicateText(last.column));
    }
  }

  lemma PredicatesTextSingle(p: Predicate)
    ensures PredicatesText([p]) == PredicateText(p.column)
  {
    PredicatesTextSnoc([], p);
    assert [] + [p] == [p];
  }

  /** The text is a function of which filters are present, never of their values. */
  lemma TextDependsOnlyOnPresence(f: Filter)
    ensures BuildQuery(f).sql == SqlFor(Presence(f))
  {
    var present := Presence(f);
    var c := if present.0 then [Predicate(CuisineColumn, Like(Wrap(f.cuisine.value)))] else [];
    var t := if present.1 then [Predicate(CityColumn, Like(Wrap(f.city.value)))] else [];
    var r := if present.2 then [Predicate(RatingColumn, NumberOf(f.minRating.value))] else [];
    assert Predicates(f) == c + t + r;
    PredicatesTextAppend(c + t, r);
    PredicatesTextAppend(c, t);
    if present.0 { PredicatesTextSingle(c[0]); }
    if present.1 { PredicatesTextSingle(t[0]); }
    if present.2 { PredicatesTextSingle(r[0]); }
  }

  /** Two filters with the same present fields give the same text. */
  lemma SamePresenceSameText(f: Filter, g: Filter)
    requires Presence(f) == Presence(g)
    ensures BuildQuery(f).sql == BuildQuery(g).sql
  {
    TextDependsOnlyOnPresence(f);
    TextDependsOnlyOnPresence(g);
  }

  /** An empty-string filter is the same as a missing one. */
  lemma EmptyFilterIsAbsent(f: Filter)
    ensures BuildQuery(f.(cuisine := Some(""))) == BuildQuery(f.(cuisine := None))
    ensures BuildQuery(f.(city := Some(""))) == BuildQuery(f.(city := None))
    ensures BuildQuery(f.(minRating := Some(""))) == BuildQuery(f.(minRating := None))
  {
    assert Predicates(f.(cuisine := Some(""))) == Predicates(f.(cuisine := None));
    assert Predicates(f.(city := Some(""))) == Predicates(f.(city := None));
    assert Predicates(f.(minRating := Some(""))) == Predicates(f.(minRating := None));
  }

  /** With no truthy filter the statement is the base plus the sort, with no parameters. */
  lemma NoFilterQuery(f: Filter)
    requires !OptionalTruthy(f.cuisine) && !OptionalTruthy(f.city) && !OptionalTruthy(f.minRating)
    ensures BuildQuery(f) == Query("SELECT * FROM restaurant WHERE 1=1 ORDER BY rating DESC", [])
  {
    assert Predicates(f) == [];
  }

  // ---------------------------------------------------------------------------
  // The `/recommend` handler, as the source writes it

  /** The parameters as the successive pushes of the handler produce them. */
  lemma AppendsBuildParams(f: Filter)
    ensures BuildQuery(f).params
      == (if OptionalTruthy(f.cuisine) then [Like(Wrap(f.cuisine.value))] else [])
      + (if OptionalTruthy(f.city) then [Like(Wrap(f.city.value))] else [])
      + (if OptionalTruthy(f.minRating) then [NumberOf(f.minRating.value)] else [])
  {
  }

  /** Builds the statement step by step: `sql +=` and `params.push` per truthy filter. */
  method BuildRecommendQuery(f: Filter) returns (sql: string, params: seq<Param>)
    ensures Query(sql, params) == BuildQuery(f)
  {
    TextDependsOnlyOnPresence(f);
    AppendsBuildParams(f);
    ghost var cuisinePart := if OptionalTruthy(f.cuisine) then CuisineText else "";
    ghost var cityPart := if OptionalTruthy(f.city) then CityText else "";
    ghost var ratingPart := if OptionalTruthy(f.minRating) then RatingText else "";
    ghost var cuisineParam := if OptionalTruthy(f.cuisine) then [Like(Wrap(f.cuisine.value))] else [];
    ghost var cityParam := if OptionalTruthy(f.city) then [Like(Wrap(f.city.value))] else [];
    sql := Base;
    params := [];
    if OptionalTruthy(f.cuisine) {
      sql := sql + CuisineText;
      params := params + [Like(Wrap(f.cuisine.value))];
    } else {
      AppendEmpty(sql);
    }
    assert sql == Base + cuisinePart && params == cuisineParam;
    if OptionalTruthy(f.city) {
      sql := sql + CityText;
      params := params + [Like(Wrap(f.city.value))];
    } else {
      AppendEmpty(sql);
    }
    assert sql == Base + cuisinePart + cityPart && params == cuisineParam + cityParam;
    if OptionalTruthy(f.minRating) {
      sql := sql + RatingText;
      params := params + [NumberOf(f.minRating.value)];
    } else {
      AppendEmpty(sql);
    }
    AppendAssociative(Base, cuisinePart, cityPart);
    AppendAssociative(Base, cuisinePart + cityPart, ratingPart);
    assert sql == Base + Conjuncts(Presence(f));
    sql := sql + OrderByRating;
  }

  /** A query outcome as the client sees it: rows on success, a generic 500 otherwise. */
  function Respond(outcome: Result<seq<Restaurant>, string>): (r: Response)
    ensures r.status == 200 <==> outcome.Success?
    ensures outcome.Success? ==> r.body == RowsBody(outcome.value)
    ensures outcome.Failure? ==> r == Response(500, ErrorBody(InternalServerError))
  {
    match outcome
    case Success(rows) => Response(200, RowsBody(rows))
    case Failure(_) => Response(500, ErrorBody(InternalServerError))
  }

  /** The failure response does not depend on the error, so no detail leaks. */
  lemma FailureHidesDetail(e1: string, e2: string)
    ensures Respond(Failure(e1)) == Respond(Failure(e2))
  {
  }

  /** `GET /recommend`: build the statement, run it on `execute`, answer. */
  method Recommend(f: Filter, execute: Query -> Result<seq<Restaurant>, string>) returns (r: Response)
    ensures r == Respond(execute(BuildQuery(f)))
    ensures r.status == 500 ==> r.body == ErrorBody(InternalServerError)
  {
    var sql, params := BuildRecommendQuery(f);
    r := Respond(execute(Query(sql, params)));
  }

  /** `GET /restaurants`: the fixed unfiltered statement, with no parameters. */
  method AllRestaurants(execute: Query -> Result<seq<Restaurant>, string>) returns (r: Response)
    ensures r == Respond(execute(Query(SelectAll, [])))
    ensures r.status == 500 ==> r.body == ErrorBody(InternalServerError)
  {
    r := Respond(execute(Query(SelectAll, [])));
  }
}
