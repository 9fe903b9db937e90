/**
 * The restaurant search page: its state (rows, loading flag, error message and
 * the three filter inputs), the fetch lifecycle that updates that state, the
 * query parameters a search sends, and the choice of what the page shows.
 * The network is a parameter (`respond`); each fetch is run to completion.
 */
module SearchPage {
  import opened Wrappers
  import opened Js
  import opened Restaurants

  /** The min-rating input: the number 4 until its first edit, then the input's text. */
  datatype RatingInput = NumberInput(n: int) | TextInput(text: string)

  /** A request to the API: a path and its query parameters, before percent-encoding. */
  datatype Request = Request(path: string, query: seq<(string, string)>)

  /**
   * How a fetch ends: the response was ok and its body decoded (`null` is
   * `None`), the response was not ok, or `fetch` or the decoding threw with
   * the given message.
   */
  datatype FetchOutcome = Decoded(data: Option<seq<Restaurant>>) | NotOk | Threw(message: string)

  /** The part of the page's state that a fetch changes. */
  datatype FetchState = FetchState(rows: Option<seq<Restaurant>>, loading: bool, error: Option<string>)

  /** What the page renders. */
  datatype View = LoadingView | ErrorView(message: string) | EmptyView | ListView(items: seq<Restaurant>)

  const RestaurantsPath := "/restaurants"
  const RecommendPath := "/recommend"
  const CuisineKey := "cuisine"
  const CityKey := "city"
  const MinRatingKey := "min_rating"
  const FetchFailed := "Failed to fetch"
  const InitialMinRating := 4

  predicate RatingTruthy(m: RatingInput) {
    match m
    case NumberInput(n) => NumberTruthy(n)
    case TextInput(t) => StringTruthy(t)
  }

  /** The text `URLSearchParams.append` stores for the min-rating input. */
  function RatingValue(m: RatingInput): (text: string) {
    match m
    case NumberInput(n) => IntToString(n)
    case TextInput(t) => t
  }

  predicate ErrorTruthy(error: Option<string>) {
    error.Some? && StringTruthy(error.value)
  }

  function KeyRank(key: string): (r: nat) {
    if key == CuisineKey then 0 else if key == CityKey then 1 else 2
  }

  // ---------------------------------------------------------------------------
  // Search parameters

  /** The query parameters a search sends: one per truthy input, in the fixed order. */
  function SearchQuery(cuisine: string, city: string, minRating: RatingInput): (q: seq<(string, string)>)
    ensures (exists i :: 0 <= i < |q| && q[i] == (CuisineKey, cuisine)) <==> StringTruthy(cuisine)
    ensures (exists i :: 0 <= i < |q| && q[i] == (CityKey, city)) <==> StringTruthy(city)
    ensures (exists i :: 0 <= i < |q| && q[i] == (MinRatingKey, RatingValue(minRating))) <==> RatingTruthy(minRating)
    ensures forall i :: 0 <= i < |q| ==>
      q[i] == (CuisineKey, cuisine) || q[i] == (CityKey, city) || q[i] == (MinRatingKey, RatingValue(minRating))
    ensures forall i, j :: 0 <= i < j < |q| ==> KeyRank(q[i].0) < KeyRank(q[j].0)
    ensures q == [] <==> !StringTruthy(cuisine) && !StringTruthy(city) && !RatingTruthy(minRating)
  {
    var c := if StringTruthy(cuisine) then [(CuisineKey, cuisine)] else [];
    var t := if StringTruthy(city) then [(CityKey, city)] else [];
    var r := if RatingTruthy(minRating) then [(MinRatingKey, RatingValue(minRating))] else [];
    assert c != [] ==> (c + t + r)[0] == c[0];
    assert t != [] ==> (c + t + r)[|c|] == t[0];
    assert r != [] ==> (c + t + r)[|c| + |t|] == r[0];
    c + t + r
  }

  // ---------------------------------------------------------------------------
  // Fetch lifecycle

  /** Before the request is sent: loading, no error; rows keep their value. */
  function Start(s: FetchState): (t: FetchState) {
    s.(loading := true, error := None)
  }

  /** The request's outcome: decoded data replaces the rows, a failure sets the error. */
  function Resolve(s: FetchState, outcome: FetchOutcome): (t: FetchState) {
    match outcome
    case Decoded(data) => s.(rows := data)
    case NotOk => s.(error := Some(FetchFailed))
    case Threw(message) => s.(error := Some(message))
  }

  /** Whatever the outcome, loading ends. */
  function Finish(s: FetchState): (t: FetchState) {
    s.(loading := false)
  }

  /** A whole fetch: start, resolve, finish. */
  function Fetch(s: FetchState, outcome: FetchOutcome): (t: FetchState) {
    Finish(Resolve(Start(s), outcome))
  }

  /** What the page shows: loading first, then a truthy error, then no rows, then the list. */
  function SelectView(s: FetchState): (v: View)
    ensures v == LoadingView <==> s.loading
    ensures v.ErrorView? <==> !s.loading && ErrorTruthy(s.error)
    ensures v.ErrorView? ==> v.message == s.error.value
    ensures v == EmptyView <==> !s.loading && !ErrorTruthy(s.error) && (s.rows == None || s.rows == Some([]))
    ensures v.ListView? ==> s.rows == Some(v.items) && v.items != []
  {
    if s.loading then LoadingView
    else if ErrorTruthy(s.error) then ErrorView(s.error.value)
    else if s.rows == None || s.rows.value == [] then EmptyView
    else ListView(s.rows.value)
  }

  /** After any fetch the page is no longer loading and the outcome decides the rows and error. */
  lemma FetchOutcomes(s: FetchState, outcome: FetchOutcome)
    ensures !Fetch(s, outcome).loading
    ensures outcome.Decoded? ==> Fetch(s, outcome) == FetchState(outcome.data, false, None)
    ensures outcome.NotOk? ==> Fetch(s, outcome) == FetchState(s.rows, false, Some(FetchFailed))
    ensures outcome.Threw? ==> Fetch(s, outcome) == FetchState(s.rows, false, Some(outcome.message))
  {
  }

  /** What the page shows after a fetch, by outcome. */
  lemma ViewAfterFetch(s: FetchState, outcome: FetchOutcome)
    ensures SelectView(Start(s)) == LoadingView
    ensures outcome.Decoded? && outcome.data.Some? && outcome.data.value != [] ==>
      SelectView(Fetch(s, outcome)) == ListView(outcome.data.value)
    ensures outcome.Decoded? && (outcome.data == None || outcome.data == Some([])) ==>
      SelectView(Fetch(s, outcome)) == EmptyView
    ensures outcome.NotOk? ==> SelectView(Fetch(s, outcome)) == ErrorView(FetchFailed)
    ensures outcome.Threw? && outcome.message != "" ==> SelectView(Fetch(s, outcome)) == ErrorView(outcome.message)
    ensures outcome.Threw? && outcome.message == "" ==> SelectView(Fetch(s, outcome)) == SelectView(FetchState(s.rows, false, None))
  {
  }

  // ---------------------------------------------------------------------------
  // What the user can do

  /**
   * The filter inputs and the Search button are rendered only below the
   * loading and error early returns, so they exist only in this state.
   */
  predicate ControlsShown(s: FetchState) {
    !s.loading && !ErrorTruthy(s.error)
  }

  /** A user action: an edit of one of the filter inputs, or a search with its outcome. */
  datatype Action = Edit | Searched(outcome: FetchOutcome)

  /**
   * The fetch state after an action. An action on controls that are not
   * rendered cannot happen, so it leaves the state as it is.
   */
  function React(s: FetchState, a: Action): (t: FetchState)
  {
    if !ControlsShown(s) then s
    else match a
      case Edit => s
      case Searched(outcome) => Fetch(s, outcome)
  }

  /** The fetch state after a sequence of user actions. */
  function Replay(s: FetchState, actions: seq<Action>): (t: FetchState)
    decreases |actions|
  {
    if actions == [] then s else Replay(React(s, actions[0]), actions[1..])
  }

  /**
   * Once the page shows an error, no user action changes it: the controls
   * are gone, so neither a new search nor an edit can run. Only a reload
   * (a new `Page`) leaves the error view.
   */
  lemma {:induction false} ErrorViewIsFinal(s: FetchState, actions: seq<Action>)
    requires !s.loading && ErrorTruthy(s.error)
    ensures Replay(s, actions) == s
    ensures SelectView(Replay(s, actions)) == ErrorView(s.error.value)
    decreases |actions|
  {
    if actions != [] {
      ErrorViewIsFinal(React(s, actions[0]), actions[1..]);
    }
  }

  /** Every search that settles leaves the page not loading, whatever the actions before it. */
  lemma {:induction false} ActionsNeverStrandLoading(s: FetchState, actions: seq<Action>)
    requires !s.loading
    ensures !Replay(s, actions).loading
    decreases |actions|
  {
    if actions != [] {
      var t := React(s, actions[0]);
      if ControlsShown(s) && actions[0].Searched? {
        FetchOutcomes(s, actions[0].outcome);
      }
      ActionsNeverStrandLoading(t, actions[1..]);
    }
  }

  // ---------------------------------------------------------------------------
  // The page

  class Page {
    var rows: Option<seq<Restaurant>>
    var loading: bool
    var error: Option<string>
    var cuisine: string
    var city: string
    var minRating: RatingInput

    function State(): (s: FetchState)
      reads this
    {
      FetchState(rows, loading, error)
    }

    /** What the page renders for its current state. */
    function View(): (v: View)
      reads this
    {
      SelectView(State())
    }

    /** The filter inputs and the Search button are on screen. */
    predicate Controls()
      reads this
    {
      ControlsShown(State())
    }

    /** The initial state: no rows, loading, no error, empty text filters, rating 4. */
    constructor ()
      ensures State() == FetchState(Some([]), true, None)
      ensures cuisine == "" && city == "" && minRating == NumberInput(InitialMinRating)
    {
      rows := Some([]);
      loading := true;
      error := None;
      cuisine := "";
      city := "";
      minRating := NumberInput(InitialMinRating);
    }

    method SetCuisine(value: string)
      requires Controls()
      modifies this`cuisine
      ensures cuisine == value
    {
      cuisine := value;
    }

    method SetCity(value: string)
      requires Controls()
      modifies this`city
      ensures city == value
    {
      city := value;
    }

    /** An edit of the number input stores the input's text. */
    method SetMinRating(value: string)
      requires Controls()
      modifies this`minRating
      ensures minRating == TextInput(value)
    {
      minRating := TextInput(value);
    }

    method StartFetch()
      modifies this`loading, this`error
      ensures State() == Start(old(State()))
    {
      loading := true;
      error := None;
    }

    method ResolveOk(data: Option<seq<Restaurant>>)
      modifies this`rows
      ensures State() == Resolve(old(State()), Decoded(data))
    {
      rows := data;
    }

    method ResolveFail(message: string)
      modifies this`error
      ensures State() == old(State()).(error := Some(message))
    {
      error := Some(message);
    }

    method FinishFetch()
      modifies this`loading
      ensures State() == Finish(old(State()))
    {
      loading := false;
    }

    /** Sends `request` and applies its outcome, as `fetchRestaurants` does. */
    method FetchRestaurants(request: Request, respond: Request -> FetchOutcome)
      modifies this`rows, this`loading, this`error
      ensures State() == Fetch(old(State()), respond(request))
      ensures !loading
    {
      StartFetch();
      var outcome := respond(request);
      match outcome {
        case Decoded(data) => ResolveOk(data);
        case NotOk => ResolveFail(FetchFailed);
        case Threw(message) => ResolveFail(message);
      }
      FinishFetch();
    }

    /** The fetch made once when the page mounts: all restaurants, no filters. */
    method Mount(respond: Request -> FetchOutcome) returns (request: Request)
      modifies this`rows, this`loading, this`error
      ensures request == Request(RestaurantsPath, [])
      ensures State() == Fetch(old(State()), respond(request))
      ensures View() == SelectView(Fetch(old(State()), respond(request)))
    {
      request := Request(RestaurantsPath, []);
      FetchRestaurants(request, respond);
    }

    /** Appends one parameter per truthy input, as `onSearch` fills its `URLSearchParams`. */
    method SearchParams() returns (params: seq<(string, string)>)
      ensures params == SearchQuery(cuisine, city, minRating)
    {
      params := [];
      if StringTruthy(cuisine) {
        params := params + [(CuisineKey, cuisine)];
      }
      if StringTruthy(city) {
        params := params + [(CityKey, city)];
      }
      if RatingTruthy(minRating) {
        params := params + [(MinRatingKey, RatingValue(minRating))];
      }
    }

    /** The search action: a `/recommend` request built from the current inputs. */
    method Search(respond: Request -> FetchOutcome) returns (request: Request)
      requires Controls()
      modifies this`rows, this`loading, this`error
      ensures request == Request(RecommendPath, SearchQuery(cuisine, city, minRating))
      ensures State() == Fetch(old(State()), respond(request))
      ensures View() == SelectView(Fetch(old(State()), respond(request)))
    {
      var params := SearchParams();
      request := Request(RecommendPath, params);
      FetchRestaurants(request, respond);
    }
  }
}
