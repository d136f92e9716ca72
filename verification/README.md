# Countries front end: login validation and home-screen state machine

A Dafny model of the two pieces of logic in a two-screen React front end.

- **Login screen** (`src/login.jsx`):
  - The form state is the `formData` object, with properties `username`, `password` and `remember`.
  - `handleChange` writes one property of it.
  - `validatePassword` is the regular expression `/^(?=.*[A-Z])(?=.*\d).{8,}$/`.
  - `handleSubmit` checks the required fields first, then the password's shape. On success it clears the alert and navigates to `/home`.
- **Home screen** (`src/home.jsx`):
  - The six `useState` values are `countries`, `visible`, `loading`, `region`, `featured` and `sliderCountry`. Next to them is the browser's session marker (the `"user"` key of local storage) and the router history.
  - The events are: the fetch's success and failure, the three region links, "Load more", a click on a card, and logout.
  - The derived views are `filteredCountries`, the grid `filteredCountries.slice(0, visible)` and the condition under which "Load more" is shown.

Modules:

| file | module | contents |
|---|---|---|
| optional.dfy | `Optional` | `Option`, standing for `null`/`undefined` |
| browser.dfy | `Browser` | the session marker and the router history, with `navigate` (a push) and `removeItem("user")` |
| password.dfy | `Password` | JavaScript strings as UTF-16 code units; the pattern as the ECMAScript backtracking matcher (ECMA-262, section 22.2); the declarative rule it expresses; their equivalence |
| login.dfy | `Login` | `formData` as a map from property name to value; `handleChange`; JavaScript truthiness; `handleSubmit` |
| countries.dfy | `Countries` | the country record; `filter` by region, `find` by name, `slice(0, n)` |
| home.dfy | `Home` | the screen state, each transition, the derived views, the event-driven `Step`/`Run` and the invariant every reachable state keeps |

The pattern is modelled the way ECMAScript runs it:
- `test` tries every start index, and `^` fails at every index but 0.
- Each lookahead `(?=.*C)` runs a greedy `.*` that backtracks until `C` matches.
- `.{8,}$` must take eight `.` atoms, then prefers one more over `$`.
- `.` is any code unit except LF, CR, U+2028 and U+2029.

`Password.ExecMeaning` proves that this matcher accepts exactly the passwords of `PasswordRule`:
- at least eight code units;
- a code unit in `A`–`Z`;
- a code unit in `0`–`9`;
- no line terminator.

`Login.HandleSubmit` states its contract through `PasswordRule`, not through the matcher.

Two consequences of the code are worth stating:
- The comment at `src/login.jsx:32` names only a length, an uppercase letter and a digit. Because `.` does not match a line terminator, a line terminator anywhere still rejects the password (see `Password.LineTerminatorRejected`).
- `loadMore` never clamps `visible`: after `N` presses it is `6 + 6N`. Only the grid's length is clamped (see `Home.LoadMoreRepeated`).

## Model

| member | source | states |
|---|---|---|
| Password.ValidatePassword | src/login.jsx:31-34 | `validatePassword` holds iff the password has at least 8 code units, an ASCII uppercase letter, an ASCII digit and no line terminator |
| Password.ExecMeaning | src/login.jsx:32-33 | running the pattern from index 0 accepts exactly the passwords of that rule, in both directions |
| Password.DotStarThenClassMeaning | src/login.jsx:32 | a lookahead `(?=.*C)` succeeds iff some code unit of class `C` occurs with no line terminator before it |
| Password.DotRepeatThenEndMeaning | src/login.jsx:32 | `.{8,}$` succeeds iff at least 8 code units are consumed, none is a line terminator, and the input ends there |
| Password.ExecOnlyAtStart | src/login.jsx:32-33 | because of `^` without the `m` flag, `test` can match at no start index other than 0 |
| Password.EightUnitsAccepted | src/login.jsx:32 | the length bound is inclusive: 8 code units with an uppercase letter, a digit and no line terminator are accepted |
| Password.ShortRejected | src/login.jsx:32 | every password shorter than 8 code units is rejected, whatever it contains |
| Password.LineTerminatorRejected | src/login.jsx:32 | a line terminator at any position rejects the password |
| Password.SurrogatePairsCountTwice | src/login.jsx:32 | the length counts UTF-16 code units: "A1" plus three astral characters (5 characters, 8 code units) passes |
| Login.Present | src/login.jsx:39 | JavaScript truthiness of a form property: a missing property is falsy, text is truthy iff non-empty, a flag iff set; a truthy value converts to a non-empty string |
| Login.AsString | src/login.jsx:33 | the string conversion `test` applies: text is passed as is; a flag becomes "true" or "false", which never meets the password rule |
| Login.HandleChange | src/login.jsx:23-29 | only the named property changes; it becomes `checked` for a checkbox and `value` otherwise; every other property, the alert and the browser are unchanged |
| Login.HandleSubmit | src/login.jsx:36-54 | a missing username or password gives the required-fields message; otherwise a password breaking the rule gives the weak-password message; the alert is empty iff the form is acceptable, iff "/home" was pushed |
| Login.SubmitSuccessNavigatesOnce | src/login.jsx:51-53 | an acceptable form clears the alert and pushes "/home" exactly once, so it becomes the location |
| Login.SubmitFailureStays | src/login.jsx:39-49 | every rejected form leaves a non-empty alert and the browser untouched |
| Login.EmptyPasswordIsMissing | src/login.jsx:39-42 | an empty password always gives the required-fields message and never the weak-password one, because that check runs first |
| Login.RememberIrrelevant | src/login.jsx:36-54 | whatever `remember` holds, submit produces the same alert and the same navigation |
| Login.BlankUsernameCounts | src/login.jsx:39 | the username check is emptiness only, so a username of one space passes it |
| Login.ShortPasswordIsWeak | src/login.jsx:44-48 | typing a username and "abc" and submitting gives the weak-password message and no navigation |
| Login.RenderedInputsKeepShape | src/login.jsx:76-108 | changes from the three rendered inputs keep username and password text and remember a flag, with no new properties |
| Countries.FilterByRegion | src/home.jsx:52 | every record kept has the region; nothing is dropped iff every record has the region |
| Countries.FilterMembership | src/home.jsx:52 | a record is in the filtered list iff it is in the collection and has the region |
| Countries.FilterMultiplicity | src/home.jsx:52 | each record of the region occurs as often as in the collection; records of other regions do not occur |
| Countries.FilterIsSubsequence | src/home.jsx:52 | the filtered list keeps the collection's relative order |
| Countries.FilterKeepsWholeRegion | src/home.jsx:52 | when every record has the region, filtering returns the collection unchanged |
| Countries.FindIndexFrom | src/home.jsx:35 | `find` stops at the first record with the name; no earlier record has it |
| Countries.FindByName | src/home.jsx:35 | `find` gives nothing iff no record has the name, and otherwise the first record that has it |
| Countries.Take | src/home.jsx:198 | `slice(0, n)` is the prefix of length `min(n, length)` |
| Home.FilteredCountries | src/home.jsx:49-52 | under "All" the list is the collection itself; otherwise it holds each record of the region as many times as the collection does, no other record, in the collection's order |
| Home.Grid | src/home.jsx:198 | the grid is the prefix of the filtered list of length `min(visible, length)` |
| Home.ShowLoadMore | src/home.jsx:231 | "Load more" is shown iff loading is over and the grid hides some filtered records |
| Home.OnFetchSuccess | src/home.jsx:31-38 | the collection becomes `data` and loading ends; the slider is the first "India" record, else `data[0]`, and is absent for empty data; the featured record is a record of `data` iff `data` is non-empty |
| Home.OnFetchFailure | src/home.jsx:39-42 | loading ends and nothing else changes, so the collection stays as it was |
| Home.LoadMore | src/home.jsx:45-47 | the cursor grows by 6 and nothing else changes; the grid keeps its cards and grows to `min(visible + 6, length)` |
| Home.SelectRegion | src/home.jsx:82-108 | the region becomes the link's label and the cursor resets to 6, even when the region is already selected; the collection and both selections are untouched |
| Home.ShowInSlider | src/home.jsx:54-56 | only the slider selection changes; the grid and "Load more" are unaffected |
| Home.HandleLogout | src/home.jsx:58-61 | the session marker is removed and "/" is pushed and becomes the location; the view state is untouched |
| Browser.Navigate | src/login.jsx:53 | a navigation pushes exactly one entry, keeps the earlier history and the session marker, and makes the path the location |
| Browser.RemoveUser | src/home.jsx:59 | removing the "user" key clears the marker, also when it was already absent, and leaves the history and location alone |
| Home.Step | src/home.jsx:28-61 | an event the screen cannot receive changes nothing; only the fetch changes the collection, the featured record and loading; only logout touches the browser; only a region link changes the region, resetting the cursor; "Load more" adds 6; a card click selects that card |
| Home.LogoutIdempotent | src/home.jsx:58-61 | a second logout changes neither the marker, the location nor the view |
| Home.InitialSatisfiesInv | src/home.jsx:17-22 | the mounted state satisfies the invariant, with an empty grid and no "Load more" |
| Home.StepPreservesInv | src/home.jsx:17-61 | every event keeps the invariant: the cursor is a positive multiple of 6, the region is one a link sets, nothing is selected while loading, both selections are records of the collection and exist after loading iff it is non-empty |
| Home.RunPreservesInv | src/home.jsx:17-61 | every state reached by a sequence of events from a state satisfying the invariant satisfies it too |
| Home.LoadMoreRepeated | src/home.jsx:45-47 | after `n` presses from the initial cursor, `visible` is `6(n+1)` and the grid shows `min(length, 6(n+1))` cards |
| Home.RegionResetsPaging | src/home.jsx:83-86 | choosing a region after any number of presses brings the cursor back to 6 |
| Home.CardClickSelectsFilteredRecord | src/home.jsx:198-202 | clicking a rendered card puts a record of the filtered list in the slider and changes neither the featured record, the region nor the cursor |
| Home.ThreeCountriesSlider | src/home.jsx:35-36 | for [France, India, Japan] the slider starts on India, though India is not first |
| Home.ThreeCountriesFilters | src/home.jsx:49-52 | for [France, India, Japan], "Asia" gives [India, Japan] and "Europe" gives [France] |
| Home.TenRecordsOnePress | src/home.jsx:231 | with 10 filtered records, one press shows all 10 and hides the button |
| Home.FailedFetchShowsNothing | src/home.jsx:39-42 | a failed fetch leaves an empty grid, no selections and no button |

## Left out

- Rendering: the JSX layout, the react-bootstrap, react-slick and react-icons components, the slider `settings`, styling, the alert markup and the footer. These are presentation only.
- The network: `fetch`, `res.json()` and the configured endpoint address. The fetch is modelled as two events, success with a sequence of records or failure.
- A response that is not an array: it would be stored with `setCountries` before `data.find` throws. This depends on what the JSON decoder returns, which is outside the model.
- `Math.random`: replaced by a caller-supplied index `pick` with `0 <= pick < |data|`.
- `console.error`: the failure branch only logs. `e.preventDefault()` is also left out.
- `localStorage` and `useNavigate`: kept only as a session-marker bit and a history of pushed paths.
- React's batching of state updates and a fetch that settles after the screen unmounts. These are framework and concurrency concerns.
- Names, regions, form keys, paths and messages are Dafny strings (Unicode scalar values), while passwords and typed text are UTF-16 code units. So a country name or region cannot hold an unpaired surrogate. For well-formed strings, `===` agrees with equality here.
- Home.Step: events the screen cannot receive in a state leave it unchanged. These are a fetch outcome after the fetch has settled, "Load more" while its button is hidden, and a click outside the rendered cards.
