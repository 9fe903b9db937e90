# Restaurant recommender: query builder and search page

This project models the core of a small restaurant recommender in Dafny.
It has two parts:

- The API (`01_api/index.js`). `GET /recommend` turns three optional query
  parameters (`cuisine`, `city`, `min_rating`) into a parameterised SQL
  statement. The statement is the base `SELECT * FROM restaurant WHERE 1=1`,
  then one conjunct per truthy filter in the fixed order cuisine, city,
  min_rating, then ` ORDER BY rating DESC`. Each conjunct ends in a `?`
  placeholder, and the filter's value goes into the parameter list, never
  into the text. `GET /restaurants` runs the fixed `SELECT * FROM restaurant`.
  Either route answers a query failure with status 500 and the fixed body
  `{error: 'Internal Server Error'}`.
- The search page (`02_frontend/app/page.js`). It holds `rows`, `loading`,
  `error` and the three filter inputs. A fetch sets `loading` and clears
  `error`. It then replaces `rows` with the decoded data or sets `error`, and
  finally clears `loading`. A search sends one query parameter per truthy
  input. The page shows "Loading...", else the error, else "No restaurants
  found.", else the list.

Modules:

- `Wrappers`: `Option` and `Result`.
- `Js`: JavaScript truthiness. The empty string is falsy and `"0"` is truthy.
  A missing value and the number 0 are falsy. `Js` also gives the decimal text
  of an integer.
- `Restaurants`: the restaurant record.
- `Api`: the `/recommend` and `/restaurants` handlers.
- `SearchPage`: the page's state and lifecycle. The class `Page` holds the
  state and its methods change it. `FetchState`, `Start`, `Resolve`, `Finish`,
  `Fetch` and `SelectView` are the pure specification of those changes.
- `Flow`: how the page's search request becomes the API's filter.

The statement is specified twice:

- `Api.BuildQuery` is a fold over a typed predicate list, `Api.Predicates`.
  Each predicate is a column and its bound value.
- `Api.BuildRecommendQuery` follows the handler's `sql +=` and `params.push`
  steps and is proved equal to `BuildQuery`.

`Api.SqlFor` writes the text from three booleans alone. The proof that
`BuildQuery`'s text equals `SqlFor` of the filters' presence is the guarantee
that no user value reaches the statement text the handler builds. The values
travel separately, as parameters. The database driver's own handling of them
(`pool.query` escapes each value and substitutes it into the statement on the
client) is inside `execute` and is not part of this model.

The database and the network are parameters. The API handlers take
`execute: Query -> Result<seq<Restaurant>, string>`. The page's fetches take
`respond: Request -> FetchOutcome`.

Some behaviour a reader might expect of such a system is not in the code.
The model follows the code and claims none of it:

- A stale response is not discarded when a newer search was issued.
  `page.js` has no such guard. The model runs each fetch to completion and
  makes no claim about ordering.
- A non-numeric `min_rating` is not rejected. The code binds
  `Number(min_rating)` whatever it is. The model binds `NumberOf(raw)`, which
  carries the raw text.
- A failed fetch does not always show a human-readable error. A thrown error
  with an empty message leaves `error` falsy, so the page falls through to
  the rows. `SearchPage.ViewAfterFetch` states this case.
- A request that never settles leaves the page on "Loading..." for good. The
  source sets no timeout or abort on `fetch` (02_frontend/app/page.js:20), and
  while loading the controls are not rendered. The model's `respond` always
  returns an outcome, so it covers only fetches that settle.
- A failed fetch cannot be retried from the page. The inputs and the Search
  button render only below the loading and error early returns
  (02_frontend/app/page.js:44-58), so an error view stays until the page is
  reloaded. `SearchPage.ErrorViewIsFinal` states this.

## Model

| member | source | states |
|---|---|---|
| `Api.PredicateText` | 01_api/index.js:51-59 | Every conjunct text ends with its `?` placeholder. |
| `Api.OnePlaceholderPerPredicate` | 01_api/index.js:51-59 | Every conjunct text holds exactly one placeholder. |
| `Api.Predicates` | 01_api/index.js:50-61 | There is a conjunct for a column exactly when that filter is truthy. Conjuncts come in the strict order cuisine, city, min_rating. Cuisine and city bind `%value%`, min_rating binds `Number(value)`. |
| `Api.QueryFraming` | 01_api/index.js:47-63 | The statement starts with `SELECT * FROM restaurant WHERE 1=1` and ends with ` ORDER BY rating DESC`. |
| `Api.PlaceholdersMatchParams` | 01_api/index.js:47-63 | The number of `?` in the text equals the number of bound parameters. |
| `Api.PrefixThroughPredicate` | 01_api/index.js:50-61 | In any text of a placeholder-free head, the conjuncts and a tail, the prefix up to conjunct i is a prefix of the text, holds i + 1 placeholders and ends with one. |
| `Api.PlaceholderBindsParam` | 01_api/index.js:50-61 | The (i+1)-th `?` of the statement closes the conjunct of predicate i's column, and parameter i is that predicate's value. |
| `Api.TextDependsOnlyOnPresence` | 01_api/index.js:47-63 | The text equals `SqlFor` of which filters are truthy. `SqlFor` never sees a filter value. |
| `Api.SamePresenceSameText` | 01_api/index.js:47-63 | Two filters with the same truthy fields give the same text, whatever their values. |
| `Api.EmptyFilterIsAbsent` | 01_api/index.js:50-58 | An empty-string filter gives the same statement and parameters as a missing one. |
| `Api.NoFilterQuery` | 01_api/index.js:47-63 | With no truthy filter the statement is exactly `SELECT * FROM restaurant WHERE 1=1 ORDER BY rating DESC` with no parameters. |
| `Api.AppendsBuildParams` | 01_api/index.js:48-61 | The fold's parameters equal the pushes of the truthy filters' values in turn. |
| `Api.BuildRecommendQuery` | 01_api/index.js:45-63 | The handler's step-by-step appends and pushes produce exactly `BuildQuery(f)`, whose text is `SqlFor` of the filters' presence. |
| `Api.Respond` | 01_api/index.js:65-71 | A successful query answers 200 with the rows. A failure answers 500 with `{error: 'Internal Server Error'}`. |
| `Api.FailureHidesDetail` | 01_api/index.js:68-70 | The failure response is the same for every error, so no detail reaches the client. |
| `Api.Recommend` | 01_api/index.js:44-72 | `/recommend` runs exactly the built statement and parameters. Its 500 body is the generic one. |
| `Api.AllRestaurants` | 01_api/index.js:33-41 | `/restaurants` runs `SELECT * FROM restaurant` with no parameters. Its 500 body is the generic one. |
| `SearchPage.SearchQuery` | 02_frontend/app/page.js:35-41 | A parameter is present for an input exactly when the input is truthy, with the input's text. Only those three keys occur, in the order cuisine, city, min_rating. The list is empty exactly when every input is falsy. |
| `SearchPage.SelectView` | 02_frontend/app/page.js:44-58 | Loading is shown exactly when loading. Otherwise the error is shown exactly when it is truthy. Otherwise missing or empty rows give the empty view (lines 99-100), and a non-empty list is shown as is. |
| `SearchPage.FetchOutcomes` | 02_frontend/app/page.js:16-29 | After a fetch loading is false. Decoded data replaces the rows and the error stays cleared. A non-ok response sets "Failed to fetch" and keeps the rows. A thrown error sets its message and keeps the rows. |
| `SearchPage.ViewAfterFetch` | 02_frontend/app/page.js:16-29 | While a fetch is in flight the page shows Loading. Afterwards it shows the list, the empty view, or the error, by outcome. A thrown error with an empty message shows the old rows. |
| `SearchPage.ErrorViewIsFinal` | 02_frontend/app/page.js:44-97 | Once the page shows an error, no sequence of user actions changes its state or its view. |
| `SearchPage.ActionsNeverStrandLoading` | 02_frontend/app/page.js:16-97 | Every search that settles leaves the page not loading, whatever user actions came before, starting from a page that is not loading. |
| `SearchPage.Page.constructor` | 02_frontend/app/page.js:6-12 | Initially rows is `[]`, loading is true, error is null, cuisine and city are empty, and min rating is the number 4. |
| `SearchPage.Page.SetCuisine` | 02_frontend/app/page.js:74 | Only while the controls are shown (not loading, no truthy error), editing cuisine stores the input's text and changes nothing else. |
| `SearchPage.Page.SetCity` | 02_frontend/app/page.js:80 | Only while the controls are shown, editing city stores the input's text and changes nothing else. |
| `SearchPage.Page.SetMinRating` | 02_frontend/app/page.js:91 | Only while the controls are shown, editing min rating stores the input's text, not a number, and changes nothing else. |
| `SearchPage.Page.StartFetch` | 02_frontend/app/page.js:18-19 | Starting a fetch sets loading, clears error and keeps rows. |
| `SearchPage.Page.ResolveOk` | 02_frontend/app/page.js:22-23 | Decoded data replaces rows. Nothing else changes. |
| `SearchPage.Page.ResolveFail` | 02_frontend/app/page.js:24-25 | A failure sets error to its message and keeps rows. |
| `SearchPage.Page.FinishFetch` | 02_frontend/app/page.js:26-28 | Loading ends whatever the outcome. |
| `SearchPage.Page.FetchRestaurants` | 02_frontend/app/page.js:16-29 | The page state after a fetch is `Fetch` of the old state and the outcome. Loading is false afterwards. |
| `SearchPage.Page.Mount` | 02_frontend/app/page.js:31-33 | The first fetch asks for `/restaurants` with no filter parameters. The page then shows the view of `Fetch` of the previous state and the outcome. |
| `SearchPage.Page.SearchParams` | 02_frontend/app/page.js:36-39 | The step-by-step appends produce exactly `SearchQuery` of the current inputs. |
| `SearchPage.Page.Search` | 02_frontend/app/page.js:35-42 | Only while the controls are shown, a search fetches `/recommend` with `SearchQuery` of the current inputs. The new state is `Fetch` of the old state and the outcome, and the page shows the view of that fetch. |
| `Flow.Lookup` | 01_api/index.js:45 | A query parameter is found exactly when some pair carries its key. |
| `Flow.LookupSent` | 01_api/index.js:45 | A key whose pairs all carry one value reads as that value, or as missing when absent. |
| `Flow.SearchBecomesFilter` | 02_frontend/app/page.js:35-41 | The API's filter for a page search has a field exactly when the page's input is truthy, and the field holds the input's text. |
| `Flow.SearchSelectsConjuncts` | 01_api/index.js:47-63 | The statement for a page search has exactly the conjuncts of the page's truthy inputs. |

## Left out

- Express setup, CORS, body parsing, `.env` loading and `app.listen` (01_api/index.js:1-9, 74-75): server bootstrap.
- The MySQL pool and `pool.query` (01_api/index.js:11-20, 24, 35, 66) become the `execute` parameter. LIKE matching, case-insensitivity and the `ORDER BY` sort happen in the database. The model therefore proves nothing about which rows come back or their order.
- `console.error(e)` (01_api/index.js:38, 69): the server-side log of a query failure's detail is output, not modelled. `Api.Respond` drops the error value once the response is chosen.
- `/health` (01_api/index.js:22-30): a connectivity probe. Unlike the other routes, its failure body echoes `e.message` (line 28).
- `Number(min_rating)` (01_api/index.js:60): floating-point coercion, NaN included. The parameter is kept opaque as `NumberOf(raw)`.
- A query parameter given twice, or sent as `cuisine[]=x`, arrives in `req.query` as an array (or an object), which is truthy at 01_api/index.js:50, 54 and 58 and is stringified into the pattern at lines 52 and 56 (`['a','b']` binds `%a,b%`). `Api.Filter` holds string values only, so the model does not cover these inputs. `Flow.Lookup` reads the first value of a repeated key. The page never sends a key twice.
- `fetch`, `res.json()`, the `cache` option and `async`/`await` (02_frontend/app/page.js:20-22): network I/O. They become the `respond` parameter, which always returns an outcome, so the model covers only fetches that settle; a `fetch` or `res.json()` that never settles (the source has no timeout) is not modelled. Each fetch runs start to finish without interleaving. There is no stale-response guard in the source, so none is claimed.
- `useEffect` scheduling and React re-rendering (02_frontend/app/page.js:31-33): the mount fetch is the explicit call `Page.Mount`.
- The API host prefix (`NEXT_PUBLIC_API_HOST`) and `URLSearchParams` percent-encoding: a request is a path plus a list of (key, value) pairs.
- The number input's decimal step and its bounds (02_frontend/app/page.js:84-92): the browser does not enforce them on the text the page stores.
- `rows` holding a JSON value that is neither an array nor null: the model's decoded data is a list or null.
- JSX markup, CSS classes, and the image and detail conditionals (02_frontend/app/page.js:60-136). The empty-versus-list choice (lines 99-100) is kept. The input handlers and the Search button (lines 69-97) are kept as `Page.SetCuisine`, `Page.SetCity`, `Page.SetMinRating` and `Page.Search`, which require `Page.Controls()`: they exist only when the page is neither loading nor showing an error.
