# Star Wars blog: the pages' state, data shaping and favorites, in Dafny

This project models the core of a small React single-page application
that browses the Star Wars API. The application has five kinds of page
and one store:

- **Favorites store** (`FavoritesProvider`): one shared state cell holding
  the ordered list of favorite records. `addFavorite` appends to it.
  `removeFavorite` drops every favorite with the same `name`.
- **Four list pages** (characters, starships, species, planets):
  - each fetches one page of a swapi.tech list once;
  - each derives an id per entry from its `uid` or from the last non-empty
    segment of its `url`;
  - each links the entry to `/<category>/<id>`;
  - each adds a flattened record to the favorites.
- **Generic detail page** (`DetailView`):
  - takes its category from the last `/`-separated part of its endpoint;
  - fetches one record and checks the status and the `result` envelope;
  - flattens the envelope into one record;
  - renders a spinner, an error panel or a card. The card rows are
    `formatKey`-ed keys and displayed values.
- **Vehicles list** (`VehiclesList`): fetches swapi.dev's vehicle list and
  links every vehicle to `/vehicles/<slug>`. The slug is the name with
  every white-space run replaced by `-`, then lower-cased.
- **Vehicle detail page** (`VehicleDetail`):
  - turns the slug back into a search term by replacing `-` with a space;
  - keeps the first search result;
  - shows its loading, error and data blocks, each under its own condition.

Module layout, one file each:

- `Wrappers`: `Option`.
- `JsStrings`: `split`, `join`, ASCII case mapping, the `\s` class,
  one-character `replace` and decimal rendering, over `seq<char>`.
- `JsValues`: JavaScript values, truthiness, `String(v)`, `Array.join` and
  React's text rendering.
- `Records`: plain objects as ordered entry lists. It covers spread and
  key assignment. A `Record` is any list of entries; distinct keys
  (`WellFormed`) are a hypothesis of the lemmas that need them
  (`Records.GetAt`, `DetailView.FlattenKeys`, `ListPages.FavoriteRecordKeys`),
  and `Records.SetWellFormed` shows assignment keeps them.
- `Fetching`: what a `fetch` settles with, given as input, the HTTP
  error message, and the image host the pages share.
- One module per core source file: `FavoriteContext`, `ListPages` (the
  four list pages are one parameterised model), `DetailView`,
  `VehiclesList` and `VehicleDetail`.

The state holders are modelled as classes with `modifies` clauses:

- the favorites store;
- every page's `useState` cells.

A detail page's fetch effect is split at its `await`:

- `BeginFetch` sets loading and clears the error, and returns the URL
  requested.
- `Settle(outcome)` stores the value or the caught error message, then
  clears loading.

`RunFetch` runs both halves and states the screen that results.

Derivations behind the slug round trip, composing the list's link
expression with the detail page's search expression:

- Were the slug of a single-spaced name passed to the detail page as its
  `vehicleName`, the page would search for the lower-cased name with each
  dash of the name turned into a space. So "AT-AT" would be searched for
  as "at at".
- A name with no dash would be searched for as itself, lower-cased.
- In the application as routed, the detail page never receives the slug
  under that name; see "## Left out".

## Model

| member | source | states |
|---|---|---|
| FavoriteContext.FavoritesStore.constructor | src/Context/FavoriteContext.jsx:12 | the store starts with no favorites |
| FavoriteContext.FavoritesStore.AddFavorite | src/Context/FavoriteContext.jsx:14-16 | the item is appended at the end; nothing is deduplicated |
| FavoriteContext.FavoritesStore.RemoveFavorite | src/Context/FavoriteContext.jsx:18-20 | the new list is the old one without the records named like the item |
| FavoriteContext.WithoutName | src/Context/FavoriteContext.jsx:19 | every survivor of the filter was in the list and has a different name; the list never grows |
| FavoriteContext.WithoutNameMembers | src/Context/FavoriteContext.jsx:19 | a record survives removal exactly when it was present and its name differs (both directions) |
| FavoriteContext.WithoutNameConcat | src/Context/FavoriteContext.jsx:19 | removal keeps the survivors' relative order: it distributes over concatenation |
| FavoriteContext.WithoutAbsentName | src/Context/FavoriteContext.jsx:19 | removing a name no favorite has leaves the list unchanged |
| FavoriteContext.WithoutNameIdempotent | src/Context/FavoriteContext.jsx:19 | removing the same name twice is removing it once |
| FavoriteContext.WithoutNameLength | src/Context/FavoriteContext.jsx:19 | removal never grows the list, and keeps its length exactly when no favorite has the name |
| FavoriteContext.AddThenRemove | src/Context/FavoriteContext.jsx:14-20 | adding an item then removing it by name also removes every earlier favorite of that name |
| FavoriteContext.NamesAreCaseSensitive | src/Context/FavoriteContext.jsx:19 | names are compared exactly: removing "leia" keeps "Leia" |
| FavoriteContext.AddAddRemove | src/Context/FavoriteContext.jsx:14-20 | adding a, b, b and removing b leaves exactly [a] |
| Fetching.HttpErrorMessage | src/pages/DetailView.jsx:33-35 | the message is "HTTP error! status: " followed by decimal digits, without a leading zero, whose value is the status |
| Fetching.HttpErrorMessageInjective | src/pages/VehicleDetail.jsx:86-88 | different statuses give different messages |
| JsStrings.JoinSplit | src/pages/DetailView.jsx:89-94 | joining the pieces of a split with the separator gives back the string |
| JsStrings.SplitJoin | src/pages/DetailView.jsx:89-94 | splitting a join of non-empty separator-free pieces gives back the pieces |
| JsStrings.SplitPiecesFree | src/pages/DetailView.jsx:20 | no piece of a split contains the separator |
| JsStrings.SplitAtSeparator | src/pages/CharacterList.jsx:45 | the split of a + sep + b is the split of a followed by the split of b |
| JsStrings.LastPieceIsTail | src/pages/DetailView.jsx:20 | the last piece of a split is the separator-free suffix after the last separator |
| JsStrings.NatToString | src/pages/DetailView.jsx:34 | a status renders as a non-empty digit string without a leading zero |
| JsStrings.DecimalRoundTrip | src/pages/DetailView.jsx:34 | reading the rendered digits back gives the number |
| JsStrings.ToLowerIdempotent | src/pages/VehiclesList.jsx:114 | lower-casing twice is lower-casing once |
| JsValues.JoinValuesOfStrings | src/pages/DetailView.jsx:126-127 | `join` on an array of strings is the string join of those strings |
| Records.Get | src/pages/DetailView.jsx:116 | reading a key the object does not have gives undefined |
| Records.Set | src/pages/DetailView.jsx:45-49 | after assignment the key reads the new value and every other key reads as before |
| Records.SetKeys | src/pages/DetailView.jsx:45-49 | assignment keeps the key order and appends a new key at the end |
| Records.SetNewKey | src/pages/DetailView.jsx:45-49 | assigning a missing key appends exactly one entry |
| Records.SetWellFormed | src/pages/DetailView.jsx:45-49 | assignment never duplicates a key |
| Records.WithoutKeys | src/pages/DetailView.jsx:121-122 | an entry survives the filter exactly when it was there and its key is not excluded |
| Records.WithoutKeysConcat | src/pages/DetailView.jsx:121-122 | the filter keeps the entries' order |
| DetailView.Category | src/pages/DetailView.jsx:20 | the category has no `/`, is a suffix of the endpoint, and is preceded by `/` when shorter than it |
| DetailView.CategoryAfterTrailingSlash | src/pages/DetailView.jsx:20 | an endpoint ending in `/` gives the empty category |
| DetailView.RequestUrl | src/pages/DetailView.jsx:30 | for a category and id without `/`, the request URL ends in the category, the id and a trailing `/` |
| DetailView.Flatten | src/pages/DetailView.jsx:45-49 | the record's id is the uid when truthy, else the route id; its url is the result's url; every other key comes from the properties |
| DetailView.FlattenKeys | src/pages/DetailView.jsx:45-49 | the properties keep their order, `id` then `url` are added when missing, and no key is duplicated |
| DetailView.FlattenAppends | src/pages/DetailView.jsx:45-49 | properties without `id` and `url` are followed by exactly those two entries |
| DetailView.FlattenExample | src/pages/DetailView.jsx:45-49 | the Luke Skywalker envelope flattens to name, height, id, url |
| DetailView.FetchResult | src/pages/DetailView.jsx:24-58 | loaded exactly when the response is ok, readable and has a result; a network error, bad status, unreadable body and missing result each fail with their own message |
| DetailView.JoinCapitalizedIsTitleCase | src/pages/DetailView.jsx:89-94 | capitalising the pieces of the key split at `_` and joining them with spaces is the character-wise title case of the key |
| DetailView.FormatKey | src/pages/DetailView.jsx:89-94 | `formatKey` keeps the length, turns every `_` into a space and upper-cases the first character and each one after `_` |
| DetailView.DisplayValue | src/pages/DetailView.jsx:126-128 | string arrays show joined by ", ", falsy scalars show "N/A", non-empty strings show themselves |
| DetailView.PropertyRows | src/pages/DetailView.jsx:119-131 | one row per non-excluded entry, in order, with its formatted key and displayed value |
| DetailView.Render | src/pages/DetailView.jsx:63-131 | spinner exactly when loading; error panel exactly when not loading and the error is truthy; card exactly when neither and there is an item |
| DetailView.TypedFavorite | src/pages/DetailView.jsx:137-140 | the favorite's `type` is the category and every other key is the item's |
| DetailView.DetailPage.constructor | src/pages/DetailView.jsx:15-17 | no item, loading, no error |
| DetailView.DetailPage.BeginFetch | src/pages/DetailView.jsx:26-30 | loading on, error cleared, item kept, and the URL requested is the category's record URL |
| DetailView.DetailPage.Settle | src/pages/DetailView.jsx:51-57 | loading off; a loaded record replaces the item, a failure sets the error and keeps the item |
| DetailView.DetailPage.AddToFavorites | src/pages/DetailView.jsx:137-140 | exactly the typed item is appended to the store |
| DetailView.ScreenAfterFetch | src/pages/DetailView.jsx:24-86 | after a fetch there is no spinner; success shows the card of the flattened record; a bad status or missing result shows its message; the render faults exactly when the message is empty and no item was held |
| DetailView.RunFetch | src/pages/DetailView.jsx:23-61 | one whole fetch leaves the screen that `ScreenAfterFetch` describes |
| ListPages.Page.Endpoint | src/pages/CharacterList.jsx:19 | each page requests its own swapi.tech collection, named like its category except that characters are `people` |
| ListPages.NonEmpty | src/pages/CharacterList.jsx:45 | `filter(Boolean)` keeps exactly the non-empty pieces |
| ListPages.NonEmptyConcat | src/pages/CharacterList.jsx:45 | the filter distributes over concatenation |
| ListPages.UrlId | src/pages/CharacterList.jsx:45 | the id from a url is undefined or a non-empty, `/`-free piece of the url |
| ListPages.UrlIdUndefined | src/pages/CharacterList.jsx:45 | the url gives undefined exactly when it is all `/` |
| ListPages.UrlIdTrailingSlash | src/pages/CharacterList.jsx:45 | a trailing `/` does not change the id |
| ListPages.UrlIdOfPath | src/pages/CharacterList.jsx:45 | the id of a path is its last segment, with or without a trailing `/` |
| ListPages.UrlIdExample | src/pages/CharacterList.jsx:45 | ".../people/5/" gives "5" |
| ListPages.DeriveId | src/pages/CharacterList.jsx:45 | a truthy uid wins on every page but planets; otherwise the id comes from the url |
| ListPages.PlanetIdIgnoresUid | src/pages/PlanetList.jsx:45 | the planets page ignores the uid; the other three pages agree; without a uid all four agree |
| ListPages.DetailLink | src/pages/CharacterList.jsx:63 | an id without `/` is exactly the third segment of its detail link, after the category |
| ListPages.ImageUrl | src/pages/CharacterList.jsx:51 | for an id without `/`, the image url ends in the category folder and the file `<id>.jpg` |
| ListPages.SummaryLines | src/pages/CharacterList.jsx:66-68 | one line per fact of the page: its caption, the property's text and its unit |
| ListPages.SummaryWithoutProperties | src/pages/StarshipList.jsx:66-68 | an entry without properties shows each caption and unit with an empty value |
| ListPages.FavoriteRecord | src/pages/CharacterList.jsx:74-79 | the favorite has the entry's url, name and derived id, and every other key from its properties |
| ListPages.FavoriteRecordKeys | src/pages/CharacterList.jsx:74-79 | properties keep their order, `url`, `name` and `id` are added when missing, and no key is duplicated |
| ListPages.ListPage.constructor | src/pages/CharacterList.jsx:9 | the list starts empty |
| ListPages.ListPage.FetchData | src/pages/CharacterList.jsx:16-28 | the page requests its own endpoint; the list becomes the parsed results whatever the status; a rejected fetch or unreadable body keeps it |
| ListPages.ListPage.AddToFavorites | src/pages/CharacterList.jsx:72-80 | exactly the entry's favorite record, with its derived id, is appended |
| ListPages.PeopleScenario | src/pages/CharacterList.jsx:14-80 | the characters page requests `/api/people/`, two fetched people are listed, and adding Luke stores one favorite with id "5" |
| VehiclesList.DropLeading | src/pages/VehiclesList.jsx:114 | the leading run is dropped: the rest is a suffix that does not start with the class, and everything dropped is in the class |
| VehiclesList.DashRuns | src/pages/VehiclesList.jsx:114 | the result is no longer than the input and holds no white space |
| VehiclesList.DashRunsAtRun | src/pages/VehiclesList.jsx:114 | a maximal run of white space becomes exactly one `-` |
| VehiclesList.DashRunsIdentity | src/pages/VehiclesList.jsx:114 | a string without white space is unchanged |
| VehiclesList.Slug | src/pages/VehiclesList.jsx:114 | the slug has no white space and no capital, and is no longer than the name |
| VehiclesList.SlugIdempotent | src/pages/VehiclesList.jsx:114 | slugging a slug changes nothing |
| VehiclesList.RenderList | src/pages/VehiclesList.jsx:104-122 | the loading message exactly while loading; otherwise one card per vehicle, or a render fault exactly when some name is not a string |
| VehiclesList.VehicleLink | src/pages/VehiclesList.jsx:113-115 | the link is `/vehicles/` followed by at most as many characters as the name, none of them white space or a capital |
| VehiclesList.Card | src/pages/VehiclesList.jsx:108-118 | the card is titled with the name and links to its slug route; a string model or class shows after its caption, a missing one shows nothing |
| VehiclesList.VehiclesPage.constructor | src/pages/VehiclesList.jsx:14-15 | no vehicles, loading |
| VehiclesList.VehiclesPage.FetchVehicles | src/pages/VehiclesList.jsx:78-92 | loading off; the list becomes the parsed results whatever the status, or is kept on failure |
| VehiclesList.FirstFetch | src/pages/VehiclesList.jsx:78-104 | after the first fetch the loading message is gone, and a failed fetch shows an empty grid |
| VehicleDetail.SearchName | src/pages/VehicleDetail.jsx:81 | same length, no dash left, and every other character kept |
| VehicleDetail.SearchUrl | src/pages/VehicleDetail.jsx:81-84 | the URL is the search endpoint followed by the route parameter with each dash a space and every other character kept |
| VehicleDetail.DashSingleRuns | src/pages/VehiclesList.jsx:114 | when every white-space run is one space, dashing runs is replacing each space with `-` |
| VehicleDetail.SearchNameOfSlug | src/pages/VehicleDetail.jsx:81 | were the slug of a single-spaced name passed as `vehicleName`, the search term would be the lower-cased name with its own dashes turned into spaces |
| VehicleDetail.SearchNameOfDashFreeSlug | src/pages/VehicleDetail.jsx:81 | were the slug of a single-spaced name without dashes passed as `vehicleName`, the search term would be the name itself, lower-cased |
| VehicleDetail.SearchNameLosesDashes | src/pages/VehicleDetail.jsx:81 | a dash of the name comes back as a space in the search term |
| VehicleDetail.FetchResult | src/pages/VehicleDetail.jsx:75-102 | loaded exactly when the response is ok, readable and has a match, and then with the first match; a network error, bad status, unreadable body and empty result each fail with their own message |
| VehicleDetail.HttpFailureIsNotNotFound | src/pages/VehicleDetail.jsx:86-93 | an HTTP failure message is never "Vehicle not found" |
| VehicleDetail.FieldText | src/pages/VehicleDetail.jsx:147 | a falsy field shows "Unknown", a non-empty string shows itself |
| VehicleDetail.Info | src/pages/VehicleDetail.jsx:140-172 | a string name is the title; each of the six cards shows "Unknown" when its field is falsy and a non-empty string as itself, followed by its unit |
| VehicleDetail.InfoWithoutFields | src/pages/VehicleDetail.jsx:140-172 | any record without the seven keys the block reads, whatever else it carries, shows an empty title and "Unknown" on every card, units included |
| VehicleDetail.Render | src/pages/VehicleDetail.jsx:121-176 | loading block exactly while loading; error block exactly when the error is truthy; data block exactly when there is a vehicle, not loading and no truthy error |
| VehicleDetail.DataAndErrorExclusive | src/pages/VehicleDetail.jsx:129-140 | the data and error blocks are never shown together |
| VehicleDetail.VehicleDetailPage.constructor | src/pages/VehicleDetail.jsx:14-17 | no vehicle, loading, no error |
| VehicleDetail.VehicleDetailPage.BeginFetch | src/pages/VehicleDetail.jsx:77-84 | loading on, error cleared, vehicle kept, and the URL requested is the search URL of the route parameter |
| VehicleDetail.VehicleDetailPage.Settle | src/pages/VehicleDetail.jsx:96-101 | loading off; a match replaces the vehicle, a failure sets the error and keeps the vehicle |
| VehicleDetail.ScreenAfterFetch | src/pages/VehicleDetail.jsx:75-176 | after a fetch the loading block is gone; a match shows its data; an empty result shows "Vehicle not found"; a bad status shows the HTTP error; an empty message shows only the vehicle held before |
| VehicleDetail.RunFetch | src/pages/VehicleDetail.jsx:74-105 | one whole fetch requests the search URL and leaves the screen that `ScreenAfterFetch` describes |

## Left out

- Network and JSON parsing are not modelled; their outcome is an input. A
  fetch settles with a network error, or with a response's `ok` flag,
  status and parsed or unreadable body. Error messages thrown by the
  runtime are inputs too.
- Concurrency is not modelled. Each fetch effect is modelled as one begin
  and one settle in that order. Out-of-order settling of overlapping
  fetches, unmounting and React's batching of state updates are left out.
- The starfield canvas animations of the vehicle pages are not modelled:
  they are drawing code with no effect on the state.
- Only the text the pages show is modelled, plus the structure that
  carries it. Styling, CSS, the Bootstrap components and the `alt`
  attributes are left out.
- The image `onError` fallbacks are left out. They replace a broken image
  with a placeholder in the browser.
- Routing is left out: the route table, the back links, "Try Again" and
  `window.location.reload()`. The detail pages take their route parameter
  as a constructor argument. `DetailView` is given its endpoint the same
  way.
- The per-category detail pages (`CharacterDetail` and the others) are
  not part of this model.
- `toLowerCase` and `toUpperCase` are modelled on the ASCII letters only.
  Other letters are left unchanged rather than mapped by Unicode rules.
- Records keep their keys in insertion order. JavaScript lists
  integer-like keys first; that ordering is not modelled.
- Numbers are integers. Floating point, `NaN` and number formatting
  beyond integers are not modelled.
- Nested plain objects as property values are not modelled. Values are
  strings, numbers, booleans, `null`, `undefined` and arrays.
- FavoriteContext.WithoutName: compares names by value. JavaScript `!==`
  compares arrays by reference, so two distinct arrays with equal
  elements count as equal here.
- A list response whose body has no `results` is not modelled. The pages
  would store `undefined` and then fail on `map`.
- The same goes for a vehicle search body without `results`. Reading
  `.length` would throw a TypeError, whose message the model would need as
  an input.
- Request URLs are modelled as strings. The vehicle search term goes into
  the query unencoded, as in the source. What the server matches is not
  modelled.
- VehiclesList.RenderList: a vehicle whose `name` is not a string is
  modelled as a render fault. The model does not give its error text.
- Logging with `console.error` is left out.
- The route table (src/routes.jsx:36) names the vehicle detail parameter
  `id`, while the page reads `vehicleName` (src/pages/VehicleDetail.jsx:14).
  In the application `vehicleName` is therefore undefined, `replace`
  throws a TypeError inside the `try`, and every visit shows that message
  in the error block without sending a request. `VehicleDetailPage` takes
  `vehicleName` as a string and cannot express the undefined parameter;
  the slug lemmas state what the page would search for if it received the
  slug.
- A list entry without `url` is not modelled: `ListEntry.url` is a string.
  In the source `entry.url.split('/')` would throw and break the whole list
  render on the three uid pages when `uid` is falsy, and on every planet.
  The list endpoints always send `url`.
