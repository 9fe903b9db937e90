/**
 * The page's search request as the API reads it: the query parameters the
 * page sends become the API's filter, and so decide the statement's conjuncts.
 * Percent-encoding and decoding are taken to cancel out.
 */
module Flow {
  import opened Wrappers
  import opened Js
  import Api
  import SearchPage

  /** The value of the first parameter named `key`, if any. */
  function Lookup(query: seq<(string, string)>, key: string): (v: Option<string>)
    ensures v.Some? <==> exists i :: 0 <= i < |query| && query[i].0 == key
  {
    if query == [] then None
    else if query[0].0 == key then Some(query[0].1)
    else
      var rest := Lookup(query[1..], key);
      assert forall i :: 1 <= i < |query| ==> query[i] == query[1..][i - 1];
      rest
  }

  /** The filter `req.query` yields for a query string. */
  function FilterOf(query: seq<(string, string)>): (f: Api.Filter) {
    Api.Filter(
      Lookup(query, SearchPage.CuisineKey),
      Lookup(query, SearchPage.CityKey),
      Lookup(query, SearchPage.MinRatingKey))
  }

  /** A missing key reads as missing; a key sent once reads as its value. */
  lemma {:induction false} LookupSent(query: seq<(string, string)>, key: string, value: string)
    requires forall i :: 0 <= i < |query| ==> query[i].0 == key ==> query[i].1 == value
    ensures Lookup(query, key) == if exists i :: 0 <= i < |query| && query[i].0 == key then Some(value) else None
  {
    if query != [] && query[0].0 != key {
      LookupSent(query[1..], key, value);
    }
  }

  /**
   * Each filter the API receives from a page search is present exactly when
   * the page's input is truthy, and then carries the input's text.
   */
  lemma SearchBecomesFilter(cuisine: string, city: string, minRating: SearchPage.RatingInput)
    ensures var f := FilterOf(SearchPage.SearchQuery(cuisine, city, minRating));
      && f.cuisine == (if StringTruthy(cuisine) then Some(cuisine) else None)
      && f.city == (if StringTruthy(city) then Some(city) else None)
      && f.minRating == (if SearchPage.RatingTruthy(minRating) then Some(SearchPage.RatingValue(minRating)) else None)
  {
    var q := SearchPage.SearchQuery(cuisine, city, minRating);
    LookupSent(q, SearchPage.CuisineKey, cuisine);
    LookupSent(q, SearchPage.CityKey, city);
    LookupSent(q, SearchPage.MinRatingKey, SearchPage.RatingValue(minRating));
  }

  /** The statement the API builds for a page search has a conjunct for each truthy input. */
  lemma SearchSelectsConjuncts(cuisine: string, city: string, minRating: SearchPage.RatingInput)
    ensures Api.BuildQuery(FilterOf(SearchPage.SearchQuery(cuisine, city, minRating))).sql
      == Api.SqlFor((StringTruthy(cuisine), StringTruthy(city), SearchPage.RatingTruthy(minRating)))
  {
    var f := FilterOf(SearchPage.SearchQuery(cuisine, city, minRating));
    SearchBecomesFilter(cuisine, city, minRating);
    assert SearchPage.RatingTruthy(minRating) ==> SearchPage.RatingValue(minRating) != "";
    Api.TextDependsOnlyOnPresence(f);
  }
}
