# Film catalogue: filters, session, profile and server responses in Dafny

This project models the core of the film catalogue:

- **Films page.** The filter record, which is kept in sync with the URL query string. It covers:
  - selection toggles and the name filter of the genre and actor lists;
  - parsing the location into filters;
  - the two query builders, apply (`handleSearch`) and page change (`handlePageChange`);
  - the sort toggle and the reset;
  - the loading and error transitions of `fetchFilms`.
- **Session provider (`AuthContext`).** The signed-in user, the loading flag and the token cookie, driven by:
  - the startup check;
  - sign-in, sign-up and logout;
  - the OAuth redirect and callback.
- **Profile page.** The avatar address and the login editor, around the profile update and deletion calls.
- **Server response envelope.** `Response{Status, Error, Data}` and its builders, including the validation-error message.
- **User repository.** Store failures are classified into domain errors.

Modules and files:

| file | module | form |
|---|---|---|
| `optional.dfy` | `Optional` | `Option` |
| `text.dfy` | `Text` | string operations the code borrows from its runtime: `join`, `includes`, ASCII `toLowerCase`, decimal rendering, JavaScript `parseInt` |
| `search_params.dfy` | `SearchParams` | `URLSearchParams` as a sequence of key/value pairs: `get`, `set`, and copying entries into an object |
| `films_filters.dfy` | `FilmFilters` | pure filter logic, the query each builder produces, and the round-trip lemmas |
| `films_page.dfy` | `FilmsPage` | class `FilmsPage`, whose fields are the component's state |
| `auth_context.dfy` | `AuthContext` | class `AuthProvider` |
| `profile.dfy` | `ProfilePage` | the avatar address, and class `Editor` |
| `response.dfy` | `Response` | builders; the list builders and `ValidationError` are loops |
| `auth_database.dfy` | `AuthDatabase` | classifiers, and class `AuthStore`; `UserRow` has its id filled in place |

Remote calls are not executed. They are inputs: each reply or outcome is a parameter of the handler that awaits it. Navigation, redirects, cookie writes, remote requests, `setUser`, toasts and logging are appended to each object's `events` sequence, in the order the code performs them. Ordering facts, such as "the cookie goes before the logout call" or "navigate, then clear the user", are therefore stated as exact event sequences.

Behaviour the proofs pin down that a reader of the code might not expect:

- **Defaults can reappear in the URL.** After a page change from the default record, the URL carries every field as text (`min_rating=0`, …). Parsing stores strings, and `handleSearch` compares them with `!== 0` and `!== 100`. The next apply therefore emits the numeric defaults that it would otherwise omit (`DefaultsReappearAfterPageChange`).
- **A film-loading error is sticky.** Once a fetch is rejected with a message, no resolved fetch clears `error`. Every later render shows the error text instead of the page, as long as every later rejection carries a non-empty message (`ErrorScreenSticks`). A rejection with an empty message sets `error` to a falsy value, and the page comes back.
- **The "no films" notice in `fetchFilms` cannot fire.** `response.data || []` is never `null`. `DataOrEmpty` states that the value is never null, and `FetchEvents` that the informational toast guarded by `filmsData === null` is never emitted.
- **Logout is ordered around one call.** The cookie is removed before the logout call. Navigation to "/auth" and the clearing of the user happen only when that call succeeds.
- **An empty query string is written as `[]`.** `resetFilters` navigates to "/films" with no query string. The model records this as `Navigated([])`, the empty query.
- **A null avatar address renders as "null".** With a null `avatar_url`, the avatar address is "null512x512.webp", because the template literal renders null as "null".

## Model

| member | source | states |
|---|---|---|
| FilmFilters.DefaultWellFormed | client/src/pages/Films.jsx:61-76 | the initial filter record declares every field once |
| FilmFilters.FilterKeysDistinct | client/src/pages/Films.jsx:61-76 | the record's fourteen keys are distinct, and they are exactly the declared keys |
| FilmFilters.Remove | client/src/pages/Films.jsx:103 | filtering an id out removes every occurrence and keeps the other ids, with their multiplicities, in order |
| FilmFilters.Toggle | client/src/pages/Films.jsx:101-115 | a present id is removed everywhere and the rest keep their order; an absent id is appended at the end |
| FilmFilters.ToggleTwice | client/src/pages/Films.jsx:101-115 | toggling an absent id twice restores the exact original selection |
| FilmFilters.RemoveAbsent | client/src/pages/Films.jsx:103 | filtering out an id that is not selected changes nothing |
| FilmFilters.FilterByName | client/src/pages/Films.jsx:118-123 | the shown list is a subsequence of the full list; every kept item's lower-cased name contains the lower-cased query; every matching item is kept as often as it occurs |
| FilmFilters.FilterByNameEmptySearch | client/src/pages/Films.jsx:118-123 | an empty query keeps the whole list |
| FilmFilters.PageParam | client/src/pages/Films.jsx:130 | `parseInt(text) \|\| 1`: the page is 1 without a `page` key, for text `parseInt` reads as NaN, and for 0; otherwise it is the number `parseInt` reads |
| FilmFilters.PageParamOfRendered | client/src/pages/Films.jsx:130 | a non-zero page written in decimal is read back as that page |
| FilmFilters.ParseLocation | client/src/pages/Films.jsx:127-137 | the parsed params have the URL's page (or 1) and page size 9; every other key appears once, in order of first appearance, holding its last value; `page` and `page_size` entries are ignored |
| FilmFilters.AssignKeySpec | client/src/pages/Films.jsx:139 | assigning one URL pair changes the named field to that string, or adds or updates an undeclared key, and nothing else |
| FilmFilters.MergeSpec | client/src/pages/Films.jsx:139 | after the merge, each field holds the URL's last string for it or keeps its previous value; undeclared URL keys are added; page and page size come from the parse |
| FilmFilters.Merge | client/src/pages/Films.jsx:139 | the merged record takes its page and page size from the parsed params |
| FilmFilters.MergeDistinctField | client/src/pages/Films.jsx:139 | for a query with distinct keys, a merged field holds that query's string or its previous value |
| FilmFilters.ResetThenParse | client/src/pages/Films.jsx:278-300 | parsing the reset location (no query string) over the default record yields the default record exactly |
| FilmFilters.SearchSpecShape | client/src/pages/Films.jsx:204-246 | the apply query's keys are a subsequence of the fixed key order; key `i` holds what rule `i` gives: a non-empty selection joined by commas, a field that differs from its default, the page or 1, the page size or 9; no other key appears |
| FilmFilters.SearchSpec | client/src/pages/Films.jsx:204-246 | `set` never names a key twice in the apply query |
| FilmFilters.SearchDefaults | client/src/pages/Films.jsx:204-246 | from the default record with no selection, apply emits exactly `page=1&page_size=9` |
| FilmFilters.SearchRoundTrip | client/src/pages/Films.jsx:204-248 | parsing the apply query reads back the emitted page, and under every other key exactly the emitted string (nothing for an omitted key) |
| FilmFilters.SearchThenParse | client/src/pages/Films.jsx:126-139 | after apply and parse over any record, each filter field holds the string its rule emitted, or keeps its value when nothing was emitted |
| FilmFilters.RecordEntries | client/src/pages/Films.jsx:261-265 | the object handed to `URLSearchParams` lists every record key in declaration order, then the keys the URL added |
| FilmFilters.RecordEntriesAt | client/src/pages/Films.jsx:261-265 | each record key carries its field's `String` text, with the new page and the page size or 9 |
| FilmFilters.RecordEntriesExtra | client/src/pages/Films.jsx:261-265 | keys the URL added keep their values in the page-change object |
| FilmFilters.PageChangeSpec | client/src/pages/Films.jsx:252-272 | a non-empty genre or actor selection replaces that key's value with the ids joined by commas; every other key holds the record's text |
| FilmFilters.PageChangeKeys | client/src/pages/Films.jsx:261-272 | the page-change query has every field once, defaults included, in declaration order, followed by the extra keys |
| FilmFilters.PageChangeAt | client/src/pages/Films.jsx:261-272 | field `i` of the page-change query holds one of: the new page; the page size or 9; the joined selection when that is non-empty; or else the field's current text |
| FilmFilters.PageChangeExtra | client/src/pages/Films.jsx:261-265 | undeclared keys keep their values in the page-change query |
| FilmFilters.PageChangeRoundTrip | client/src/pages/Films.jsx:252-275 | parsing the page-change query reads back the new page (when it is non-zero) and every other value exactly |
| FilmFilters.PageChangeThenParse | client/src/pages/Films.jsx:252-275 | after a page change and the parse, every value field holds the text the page-change query gave it, and the page is the new page |
| FilmFilters.DefaultPageChangeTexts | client/src/pages/Films.jsx:261-265 | from the default record, a page change writes the numeric defaults as "0", "100", "0", "300" |
| FilmFilters.SearchEmitsStrings | client/src/pages/Films.jsx:216-232 | a numeric field that holds a string is always emitted by apply, even when it spells the default |
| FilmFilters.DefaultsReappearAfterPageChange | client/src/pages/Films.jsx:216-232 | after a page change from the defaults and the parse, apply emits min_rating=0, max_rating=100, min_duration=0 and max_duration=300 |
| FilmFilters.ToggleOrder | client/src/pages/Films.jsx:188-193 | "asc" becomes "desc"; any other order, an unknown one from the URL included, becomes "asc"; every other field, the pagination and the extra keys are unchanged |
| FilmFilters.ToggleOrderTwice | client/src/pages/Films.jsx:188-193 | toggling a valid order twice restores the record |
| FilmsPage.Request | client/src/pages/Films.jsx:149-153 | the search endpoint is called, with the query text, exactly when the parsed `query` is non-empty; otherwise the list endpoint is called with the params |
| FilmsPage.DataOrEmpty | client/src/pages/Films.jsx:154 | `response.data \|\| []` is never null: a missing, null or falsy value becomes an empty array, and a truthy one is kept |
| FilmsPage.FilmsOf | client/src/pages/Films.jsx:155 | only an array becomes the film list; anything else gives an empty list |
| FilmsPage.FilmsAfter | client/src/pages/Films.jsx:154-167 | the films of an array reply; an empty list after any other reply and after a rejection |
| FilmsPage.FetchEvents | client/src/pages/Films.jsx:145-179 | a fetch emits the request; a rejection adds the log line and an error toast with its message; a resolved reply adds nothing, so the informational toast is never emitted |
| FilmsPage.ErrorAfter | client/src/pages/Films.jsx:165-168 | a rejection sets the error to its message; a resolved fetch keeps the previous error, so a set error is never cleared |
| FilmsPage.ScreenOf | client/src/pages/Films.jsx:302-334 | the spinner exactly while loading; then a non-empty error's text; otherwise the empty notice exactly for an empty film list and the grid of those films exactly for a non-empty one |
| FilmsPage.ErrorScreenSticks | client/src/pages/Films.jsx:310-315 | once an error is shown, every later fetch ends on an error screen, as long as every later rejection carries a non-empty message |
| FilmsPage.FilmsPage.constructor | client/src/pages/Films.jsx:37-78 | the initial state: nothing selected or loaded, loading, no error, the default filters |
| FilmsPage.FilmsPage.LoadGenresAndActors | client/src/pages/Films.jsx:85-98 | genres are requested, then actors; the lists are set (a missing `data` gives empty) only when both resolve; a failure is logged and leaves them unchanged |
| FilmsPage.FilmsPage.SelectGenre | client/src/pages/Films.jsx:101-107 | the genre selection becomes its toggle; nothing else changes |
| FilmsPage.FilmsPage.SelectActor | client/src/pages/Films.jsx:109-115 | the actor selection becomes its toggle; nothing else changes |
| FilmsPage.FilmsPage.SetGenreSearch | client/src/pages/Films.jsx:118-120 | the genre search text is set, and the shown genres are the name filter of the full list |
| FilmsPage.FilmsPage.SetActorSearch | client/src/pages/Films.jsx:121-123 | the actor search text is set, and the shown actors are the name filter of the full list |
| FilmsPage.FilmsPage.FetchFilms | client/src/pages/Films.jsx:145-179 | loading ends false; the films are those of the reply (empty on rejection); the error follows `ErrorAfter`; the events are the fetch's events |
| FilmsPage.FilmsPage.OnLocationChange | client/src/pages/Films.jsx:126-142 | the params are the parse of the location; the filters become the merge over the old filters, which stay well-formed; the page input shows the page; then the fetch |
| FilmsPage.FilmsPage.ToggleSortOrder | client/src/pages/Films.jsx:188-193 | the filters become their order toggle and stay well-formed; nothing else changes |
| FilmsPage.FilmsPage.SetSortBy | client/src/pages/Films.jsx:356 | `sort_by` becomes the chosen string; nothing else changes |
| FilmsPage.FilmsPage.SetRating | client/src/pages/Films.jsx:382 | the rating bounds become the slider's two numbers |
| FilmsPage.FilmsPage.SetDuration | client/src/pages/Films.jsx:389 | the duration bounds become the slider's two numbers |
| FilmsPage.FilmsPage.SetDates | client/src/pages/Films.jsx:396 | the date bounds become the two date strings |
| FilmsPage.FilmsPage.HandleSearch | client/src/pages/Films.jsx:196-249 | navigates to the apply query of the current filters and selections; no state changes |
| FilmsPage.FilmsPage.HandlePageChange | client/src/pages/Films.jsx:252-275 | stores the new page, shows it, and navigates to the page-change query of the filters as they were before |
| FilmsPage.FilmsPage.ResetFilters | client/src/pages/Films.jsx:278-300 | the default record, empty selections and search boxes, and navigation to "/films" with no query string |
| SearchParams.Get | client/src/pages/Films.jsx:130 | `get` finds a value exactly when the key is present, and the value is paired with that key |
| SearchParams.SetParam | client/src/pages/Films.jsx:208 | after `set`, the key reads the new value and every other key reads as before; an absent key is appended at the end |
| SearchParams.SetParamInPlace | client/src/pages/Films.jsx:267-272 | `set` on a present key (keys distinct) replaces its value in place and keeps the position |
| SearchParams.CopyEntries | client/src/pages/Films.jsx:133-137 | copying entries into an object: keys distinct in order of first appearance, each holding its last value, skipped keys absent |
| Text.Join | server/pkg/lib/response/response.go:223 | joining one part gives that part; joining none gives "" |
| Text.JoinSnoc | server/pkg/lib/response/response.go:223 | appending a part extends the joined text by the separator and that part |
| Text.Lower | client/src/pages/Films.jsx:119 | lower-casing keeps the length and maps every character |
| Text.ParseInt | client/src/pages/Films.jsx:130 | `parseInt` gives NaN for text that is empty after the leading white space or that does not go on with a sign or a digit; a negative result only follows a '-' sign |
| Text.ParseIntOfIntToString | client/src/pages/Films.jsx:130 | `parseInt` reads a decimal rendering of any integer back as that integer |
| Text.ContainsAt | client/src/pages/Profile.jsx:117 | `includes` agrees with "occurs at some index" |
| Text.Contains | client/src/pages/Profile.jsx:117 | `includes` holds only when the pattern fits in the text |
| Text.ContainsAppendFenced | client/src/pages/Profile.jsx:117-121 | appending a tail that shares no starting character with the pattern neither creates nor removes a match |
| AuthContext.UserAtStartup | client/src/context/AuthContext.jsx:13-30 | with no token or an empty one, there is no user; with a non-empty token, the user is the loaded profile's data, and none when the profile request fails |
| AuthContext.TokenEvents | client/src/context/AuthContext.jsx:40-46 | the cookie (480 seconds) and the profile request come first; the user and the navigation to "/profile" follow exactly when the profile loads; a failed profile leaves just the first two |
| AuthContext.SignInTrail | client/src/context/AuthContext.jsx:40-46 | a token whose profile loads leaves exactly: cookie, profile request, user set, navigation |
| AuthContext.AuthProvider.constructor | client/src/context/AuthContext.jsx:8-10 | no user, loading, and the browser's stored cookie |
| AuthContext.AuthProvider.CheckAuth | client/src/context/AuthContext.jsx:13-30 | the profile is fetched only with a non-empty token; the user becomes the loaded profile or none; loading ends false; nothing is thrown |
| AuthContext.AuthProvider.AcceptToken | client/src/context/AuthContext.jsx:40-46 | without a token nothing changes (a missing body throws); with one, the cookie is written before the profile call; the user is set and "/profile" opened only when the profile loads |
| AuthContext.AuthProvider.HandleSignIn | client/src/context/AuthContext.jsx:36-52 | every failure is rethrown; user and cookie change only with a token; loading is false afterwards on every path |
| AuthContext.AuthProvider.HandleSignUp | client/src/context/AuthContext.jsx:54-64 | on success, navigates to "/confirm-email" with exactly the email the submitted form object holds; the user is never touched; failures are rethrown; loading ends false |
| AuthContext.AuthProvider.HandleLogout | client/src/context/AuthContext.jsx:67-79 | the cookie is removed before the call; on success, "/auth" is opened, then the user cleared; on failure, the error is rethrown with the user unchanged; loading ends false |
| AuthContext.AuthProvider.HandleOAuth | client/src/context/AuthContext.jsx:82-84 | redirects to the fixed base address followed by the provider name |
| AuthContext.AuthProvider.HandleOAuthCallback | client/src/context/AuthContext.jsx:87-107 | every URL pair is forwarded (last value per key); a token is handled as in sign-in; any failure clears the user and is logged, never thrown; loading is untouched |
| ProfilePage.AvatarSuffix | client/src/pages/Profile.jsx:38 | "_Light" in light mode and "_Dark" in dark mode |
| ProfilePage.AvatarUrl | client/src/pages/Profile.jsx:117-122 | none without a user; otherwise exactly the stored address ("null" when null), then "512x512", the colour-mode suffix only for the default picture, and ".webp" |
| ProfilePage.AvatarUrlKeepsDefaultMarker | client/src/pages/Profile.jsx:117-122 | the shown address contains "default" exactly when the stored one does |
| ProfilePage.LoginOf | client/src/pages/Profile.jsx:35 | the user's login, or "" without a user |
| ProfilePage.Editor.constructor | client/src/pages/Profile.jsx:34-37 | not editing, the login field holding the user's login, no file |
| ProfilePage.Editor.StartEditing | client/src/pages/Profile.jsx:259 | enters login editing |
| ProfilePage.Editor.ChangeLogin | client/src/pages/Profile.jsx:40-42 | the typed login is stored |
| ProfilePage.Editor.HandleAvatarChange | client/src/pages/Profile.jsx:44-66 | nothing happens without a file; the upload sends only the file, with reset false; the file is kept only after success |
| ProfilePage.Editor.HandleSubmit | client/src/pages/Profile.jsx:68-89 | only while editing is `{login}` sent, with no file and reset false; editing ends only on success |
| ProfilePage.Editor.HandleCancel | client/src/pages/Profile.jsx:91-94 | editing stops, and the login resets to the user's login or "" |
| ProfilePage.Editor.HandleDeleteProfile | client/src/pages/Profile.jsx:96-115 | logout is requested only after the deletion succeeds; a failure gives only an error notice |
| ProfilePage.Editor.DeleteAvatar | client/src/pages/Profile.jsx:182-199 | an update with no fields, no file and reset true; the editor state is kept |
| Response.ActorView | server/pkg/lib/response/response.go:62-68 | each actor field is copied from the DTO |
| Response.GenreView | server/pkg/lib/response/response.go:104-108 | each genre field is copied from the DTO |
| Response.ReviewView | server/pkg/lib/response/response.go:145-152 | each review field is copied from the DTO |
| Response.ConvertAll | server/pkg/lib/response/response.go:72-80 | the append loop gives one record per input, in input order |
| Response.Actors | server/pkg/lib/response/response.go:57-91 | a single DTO gives one record; a list gives the same number of records in order, each copied from its DTO; anything else gives "invalid server error" |
| Response.Genres | server/pkg/lib/response/response.go:99-129 | as `Actors`, for genres |
| Response.Reviews | server/pkg/lib/response/response.go:140-176 | as `Actors`, for reviews |
| Response.UserProfile | server/pkg/lib/response/response.go:38-47 | a success carrying the profile's email, login and avatar unchanged |
| Response.AccessToken | server/pkg/lib/response/response.go:178-185 | a success with no error, carrying the token |
| Response.OK | server/pkg/lib/response/response.go:187-191 | a success with no error and no data |
| Response.Error | server/pkg/lib/response/response.go:193-198 | an error status carrying exactly the given text |
| Response.ClassOf | server/pkg/lib/response/response.go:206-215 | the required, email and login classes are chosen exactly by those three tags; every other tag is the default class |
| Response.Complaint | server/pkg/lib/response/response.go:206-215 | every complaint starts with the blank after the field name and has at least 20 characters |
| Response.FieldMessage | server/pkg/lib/response/response.go:206-215 | a message is "field ", the field name, and the complaint of its rule's class |
| Response.FieldMessageTexts | server/pkg/lib/response/response.go:206-215 | the texts by tag: "is a required field", "is not a valid Email", "is not a valid Login", and "has an invalid value" for any other tag |
| Response.ComplaintInjective | server/pkg/lib/response/response.go:206-215 | the four complaints are pairwise different |
| Response.ComplaintsAgree | server/pkg/lib/response/response.go:206-215 | no complaint ends another, so two complaints that both end one message are the same |
| Response.FieldMessageInjective | server/pkg/lib/response/response.go:206-215 | equal messages come from the same field and the same kind of rule |
| Response.Messages | server/pkg/lib/response/response.go:205-216 | one message per failed rule, in input order |
| Response.ValidationError | server/pkg/lib/response/response.go:200-225 | always an error status; a validator list gives its messages joined by ", "; any other error gives exactly its text |
| Response.ValidationMessageCount | server/pkg/lib/response/response.go:221-223 | no failed rule gives ""; one gives just its message; each further rule adds ", " and its message |
| AuthDatabase.ClassifyCreateError | server/internal/modules/auth/repo/database/authDatabase.go:29-34 | "login" in the text gives a taken login, even when "email" is present too; "email" alone gives a taken email; neither gives internal |
| AuthDatabase.ClassifyFirstError | server/internal/modules/auth/repo/database/authDatabase.go:45-48 | only a missing record is "user not found"; every other failure is internal |
| AuthDatabase.UserRow.constructor | server/internal/modules/auth/repo/database/authDatabase.go:25 | the row copies the user's fields |
| AuthDatabase.AuthStore.Insert | server/internal/modules/auth/repo/database/authDatabase.go:27 | the store records the row, and on success writes the assigned id into it |
| AuthDatabase.AuthStore.CreateUser | server/internal/modules/auth/repo/database/authDatabase.go:24-38 | the assigned id with no error; or 0 and the classified error, after logging the failure |
| AuthDatabase.AuthStore.First | server/internal/modules/auth/repo/database/authDatabase.go:43-51 | the row found with no error; or nothing and the classified error, after logging |
| AuthDatabase.AuthStore.GetUserByEmail | server/internal/modules/auth/repo/database/authDatabase.go:40-52 | as `First`, querying by email |
| AuthDatabase.AuthStore.GetUserByLogin | server/internal/modules/auth/repo/database/authDatabase.go:54-66 | as `First`, querying by login |
| AuthDatabase.AuthStore.GetUserById | server/internal/modules/auth/repo/database/authDatabase.go:68-79 | as `First`, querying by id |

## Left out

- Network, cookies, navigation, toasts and `console` are not executed. Replies and outcomes are parameters, and effects are recorded events. Cookie expiry over time is not modelled: the cookie carries its 480-second lifetime as a number.
- JSX rendering, Chakra styling, colour-mode lookups (beyond the avatar suffix) and animations are not modelled. Neither is the pagination widget's `totalPages` arithmetic.
- `handleFilterChange` (client/src/pages/Films.jsx:182-185) is defined but never attached to any element, so it is not modelled.
- Percent-encoding, and the `?` and `&` separators of the query string, are not modelled. Queries are key/value pair sequences, and `Navigated(q)` stands for "/films" with `q` (no `?` when `q` is empty).
- Lower-casing is ASCII only. Unicode case mapping is not modelled.
- A URL key `__proto__`: assigning it on a plain object (`params[key] = value`, client/src/pages/Films.jsx:135 and client/src/context/AuthContext.jsx:92) calls the inherited setter and stores nothing. The model copies it like any other key, into the merged filters' extra keys and the forwarded parameters.
- JavaScript objects keep integer-like keys first. The model keeps insertion order for every extra key.
- Text.ParseInt: its own contract states only when the result is NaN and when it can be negative; the value read is stated for decimal renderings of integers by `ParseIntOfIntToString`, and not for hexadecimal or trailing-garbage inputs.
- FilmFilters.Merge: its own contract states only the pagination; the field-by-field result is stated by `MergeSpec` for params parsed from a URL.
- `parseInt` is modelled on integers without the 2^53 precision limit. Sliders and parsing are taken to give integers.
- The two query builders are specified as values (`SearchSpec`, `PageChangeSpec`), not as successive `set` calls on a mutable object. The rule order and the `set`-replaces semantics are kept.
- The race between overlapping fetches during rapid navigation is concurrency. The code has no guard against it, and the model handles one handler at a time.
- `updateProfile` and `deleteProfile` are read from the session context, but the provider's value (client/src/context/AuthContext.jsx:110-119) does not supply them. They are modelled as abstract calls whose outcome is an input. Logout requested from the profile page is an event: it is not linked to `AuthProvider.HandleLogout`.
- Go's nil-pointer panics (a nil DTO or user pointer, a nil element in a DTO slice) are not modelled.
- `errors.As` unwrapping is modelled as the error kind (validator list or other), and `errors.Is` as the outcome kind (record not found or other). The JSON `omitempty` encoding is not modelled; an empty error text stands for an absent one.
- `ToModel`, `ToEntity` and the gorm `User` model are not part of this model. A row copies the domain user's id, login, email and password, and a lookup returns the row found.
- `NewAuthDatabase` and the logger's `With("op", "db")` only wire dependencies, so they are left out.
- Server modules outside the response builders and the user repository are not part of this model: the avatar manager's image processing, configuration loading and the actor repository.
