# openFDA infographic container, modelled in Dafny

This project models the logic of `InfographicContainer`. This React container
drives the "explorer" chart widget on the openFDA API pages. It holds the
widget's view state: which explorer (dataset view) is current, the staged and
the committed search text and count field, the captured total and matching
record counts, the last payload and the chart type. It reacts to user
events by staging parameters and launching a fetch. A fetch runs in three
stages: the download manifest, then a query string derived from the explorer's
date constraint and the search text, then two parallel API requests whose
results are committed into the state.

Layout, one module per concern of the container:

- `wrappers.dfy` (`Wrappers`) is the `Option` type, for JavaScript's missing values.
- `explorers.dfy` (`Explorers`) holds the explorer configuration and the registry.
  The registry maps each explorer's `short` name to the explorer
  (`_getInfographicMap`). The method is proved against `RegistryOf`. The
  lemmas give last-write-wins for duplicate names.
- `query.dfy` (`Query`) is the pure string logic:
  - the manifest date with its dashes stripped;
  - the date range (`_getFilterRange`);
  - the four-way `search=` clause (`_getFilterSearch`);
  - the base URL and the full query URL.
- `records.dfy` (`Records`) is `_getCurrRecords`. The seedless `reduce` is
  proved equal to a reference sum.
- `container.dfy` (`Container`) is the class `InfographicContainer`. Its
  fields mirror the component's state, and it has one method per handler. The
  success and failure branches of `_fetchQueryAndUpdate` are the methods
  `Commit` and `CommitFailure`. The rule that a total, once captured, is kept
  is also proved over any sequence of commits. Two client methods,
  `MountThenSearch` and `SwitchTab`, replay typical sessions.

How the asynchronous pieces are modelled:

- Each `setState` is an immediate merge into the fields.
- A handler that fetches returns the `Request` (search text, count field)
  that `_fetchQueryAndUpdate` would be called with.
- `PlanFetch` and `Query.FetchUrls` build the two URLs from the manifest's
  `last_updated`.
- The network's answers are parameters of `Commit` and `CommitFailure`: the
  base query's total, the payload, or the error body. `Commit` also takes, as
  ghost parameters, the explorer and manifest date the query URL was built
  from. Its precondition ties the committed query to those and to the
  committed search text and count field.

Where the code and a reader's expectations differ, the model follows the code:

- `_tabToggle` does not reset `recordsTotal`. After a tab switch the total shown
  is still the first explorer's total (src/containers/InfographicContainer.jsx:316-332).
  `SwitchTab` exhibits this.
- `_tabToggle` does nothing only for a missing choice. A choice whose `short` is
  not registered, or whose explorer has no filters, makes the source throw at
  line 329. It is not a no-op. `TabToggle` therefore requires a registered
  choice with a filter. Menu choices always come from the registry.
- `_onCountChangeAndUpdate` fetches with the committed `searchParam`, not the
  staged `nextSearchParam` (line 241).
- `_update` falls back to `countParam`, not `nextCountParam`, when no count
  is given. An event passed as the search argument is ignored in favour of the
  staged text (lines 274-288).
- The manifest date is read from the top-level `meta.last_updated`, whatever the
  dataset (line 139).
- Commits are not sequenced. Whichever response arrives last is committed.

Naming: the state key `type` is the field `chartType`, and a filter's `label`
is `caption` (both words are reserved in Dafny). JavaScript truthiness of a
string is modelled as "not empty". A missing `dateConstraint`, or a missing
chart type in `fieldsFlattened`, is `""`. A missing `keyCode` is 0.

## Model

| member | source | states |
|---|---|---|
| Explorers.InfographicMap | src/containers/InfographicContainer.jsx:94-104 | a missing list gives the empty map; otherwise the map is the registry of the list, every element written under its `short` in list order |
| Explorers.RegistryLookup | src/containers/InfographicContainer.jsx:94-104 | a name is a key exactly when some element carries it, and it maps to the last element carrying it (last write wins) |
| Explorers.RegistryWellFormed | src/containers/InfographicContainer.jsx:97-101 | every registry entry is stored under its own `short` |
| Explorers.RegistryFindsLast | src/containers/InfographicContainer.jsx:98-100 | an element that no later element shadows is what its name looks up |
| Query.StripDashes | src/containers/InfographicContainer.jsx:139 | the stripped date contains no `-` and is no longer than the manifest date |
| Query.StripDashesKeeps | src/containers/InfographicContainer.jsx:139 | every non-dash character survives stripping and no other appears |
| Query.StripDashesAppend | src/containers/InfographicContainer.jsx:139 | stripping a concatenation is the concatenation of the stripped parts |
| Query.StripDashesNoDash | src/containers/InfographicContainer.jsx:139 | a date without dashes is left unchanged |
| Query.StripDashesIdempotent | src/containers/InfographicContainer.jsx:139 | stripping twice is stripping once |
| Query.StripManifestDate | src/containers/InfographicContainer.jsx:139 | the manifest date `2020-03-01` becomes `20200301` |
| Query.FilterRange | src/containers/InfographicContainer.jsx:134-145 | the range is empty exactly when the explorer has no date constraint |
| Query.RangeShape | src/containers/InfographicContainer.jsx:134-145 | a range opens with `field:[start+TO+`, closes with the dash-free manifest date and `]`, and has nothing else in it |
| Query.FilterSearch | src/containers/InfographicContainer.jsx:112-125 | the clause is empty exactly when there is neither a date constraint nor search text |
| Query.SearchShape | src/containers/InfographicContainer.jsx:112-125 | a non-empty clause is framed by `search=` and `&`; the text is its last term; the range is its only term, or is parenthesised and joined to the text by `+AND+` |
| Query.DatedSearchClause | src/containers/InfographicContainer.jsx:166-167 | with a date constraint and search text, range and clause compose to `search=(field:[start+TO+end])+AND+text&` |
| Query.BaseUrl | src/containers/InfographicContainer.jsx:171 | the base URL is the API link, then the API path and `.json?`, then the search clause, with nothing else in it |
| Query.QueryUrl | src/containers/InfographicContainer.jsx:168 | the query URL extends the base URL by exactly `count=` and the count field |
| Query.FetchUrls | src/containers/InfographicContainer.jsx:166-173 | the base URL is a prefix of the query URL, which adds exactly `count=` and the count field; without a date constraint the base is the API link, path and `.json?`, then nothing or `search=text&`; with one it is the API link, path and `.json?` followed directly by the range search clause |
| Records.Counts | src/containers/InfographicContainer.jsx:307 | one count per result, in order |
| Records.ReduceAddIsSum | src/containers/InfographicContainer.jsx:306-308 | reducing a non-empty list with `+` and no seed gives its sum |
| Records.CurrRecords | src/containers/InfographicContainer.jsx:303-309 | nothing for missing results, otherwise the sum of the counts; an empty list is not accepted |
| Records.CountWithinTotal | src/containers/InfographicContainer.jsx:303-309 | with non-negative counts, no bucket exceeds the total shown |
| Container.DecideKey | src/containers/InfographicContainer.jsx:249-266 | only Enter (13) updates; space (32) and Enter suppress the default; other keys are inert; `which` is used when `keyCode` is missing |
| Container.ChartTypeFor | src/containers/InfographicContainer.jsx:200 | the count field's configured chart type when set, otherwise the explorer's own type |
| Container.TotalIsFirstNonZero | src/containers/InfographicContainer.jsx:177-183 | after any sequence of successful commits the total is the first non-zero total seen |
| Container.TotalIsSticky | src/containers/InfographicContainer.jsx:179-183 | a captured non-zero total survives every later commit |
| Container.InfographicContainer.constructor | src/containers/InfographicContainer.jsx:33-82 | the first explorer is current and selected, its count field is committed and staged, the search text is empty, the registry is built, the counts are 0, there is no payload, and the chart type is `Line` |
| Container.InfographicContainer.Mount | src/containers/InfographicContainer.jsx:84-87 | the first fetch uses no search text and the staged count field |
| Container.InfographicContainer.OnSearchChange | src/containers/InfographicContainer.jsx:215-221 | only the staged search text changes, to the string or the event's value |
| Container.InfographicContainer.OnCountChange | src/containers/InfographicContainer.jsx:228-232 | only `countParam` changes, to the event's value |
| Container.InfographicContainer.Update | src/containers/InfographicContainer.jsx:274-296 | stages and fetches the string argument or the staged text, and the count argument's string or event value or else `countParam`; nothing else changes |
| Container.InfographicContainer.OnCountChangeAndUpdate | src/containers/InfographicContainer.jsx:239-242 | echoes and stages the new count field and fetches it with the committed search text |
| Container.InfographicContainer.OnKeyPress | src/containers/InfographicContainer.jsx:249-266 | reports the key decision; Enter stages `countParam` and fetches it with the staged text; other keys change nothing |
| Container.InfographicContainer.TabToggle | src/containers/InfographicContainer.jsx:316-332 | a missing choice changes nothing; otherwise the chosen explorer becomes current and selected and is fetched with its first filter and count field; the total is not reset; the registry invariant is kept |
| Container.InfographicContainer.Commit | src/containers/InfographicContainer.jsx:166-201 | the total is captured only while 0; the matching count, search text, count field, query and payload take the new values; the committed query is the URL built for the committed search text and count field, so it starts with the API path and ends with `count=` and the count field; the chart type follows the count field; nothing else changes |
| Container.InfographicContainer.CommitFailure | src/containers/InfographicContainer.jsx:202-204 | only the payload slot changes, to the error body or to nothing |

## Left out

- Network I/O is not modelled: `fetch`, `$.getJSON`, `Promise.all`, `res.json()`.
  Their results are parameters: the manifest date, the base total, the payload
  and the error body.
- Request ordering is not modelled. The model does not capture overlapping
  fetches committing in any interleaving.
- React's batching of `setState` is not modelled. The model treats every update
  as immediate.
- A malformed base response is not modelled. If `results[0].meta` or
  `meta.results` is missing, line 175 throws. The throw lands in the `catch`
  at line 202, which is `CommitFailure` with no body. If only `total` is
  missing, nothing throws. The commit then stores `undefined` as the matching
  count, and as the total while it is still 0. Since `undefined === 0` is
  false, no later total is ever captured after that. `Commit` takes the base
  total as an integer, so it does not cover this case.
- A failure at the manifest stage commits nothing, not even `data`. This
  covers the download fetch failing, `res.json()` failing, and a missing
  `meta.last_updated`. That last one throws at line 139 even for an explorer
  without a date constraint. The only `catch` (line 202) is attached to the
  inner `Promise.all`, so such a failure leaves the state as it was and is not
  `CommitFailure`. The model has no operation for it.
- `render` and the `Infographic` wiring are UI and are left out.
- Which browser mechanism suppresses the default is left out.
  `preventDefault` versus `returnValue = false` is event plumbing; only the
  decision is modelled.
- The three documentation pages under `src/pages/apis/drug/imprint/` are not part of
  this model. They render static YAML and JSON.
- `API_LINK` comes from `src/constants/api`, which is not part of this model. It is the constructor
  parameter `apiLink`.
- Counts and totals are unbounded integers. JavaScript's floating-point numbers
  are not modelled.
- The regular expression `/-+/g` is modelled by its effect: every dash removed.
- JSON payloads are opaque strings.
- The unused state key `dateContraint` is not modelled. It is misspelt and never read.
- Records.CurrRecords: an empty result list is excluded by the precondition. The source's
  seedless `reduce` throws on it instead of returning.
- Container.InfographicContainer.constructor: an empty explorer list is excluded by the
  precondition. The source then has `current` undefined (line 65), and line 69 throws
  reading `current.countParam`.
- Container.InfographicContainer.TabToggle: an unregistered choice, or a choice without
  filters, is excluded by the precondition. The source throws on it.
