# LdArchive catalog client, modelled in Dafny

LdArchive is a React client for a film download catalog. This project models
its core logic:

- **Catalog page** (`FilmPage` in `src/App.js`):
  - normalises each listing response and records how a page load ends;
  - filters films by genre on the client, ignoring case;
  - computes the page count and reads the page number from the route;
  - handles the previous/next buttons;
  - keeps the "hide welcome popup" flag in `localStorage` with a one-hour expiry;
  - provides the `shuffleArray` Fisher-Yates shuffle.
- **Film detail page** (`src/components/FilmDetail.js`):
  - chooses which title and year to look up;
  - builds the metadata request URL and interprets its answer;
  - flattens the download options into labelled links;
  - regroups those links by quality when the page renders.
- **Display helpers** (`src/utils/helpers.js`): `formatRating` and
  `truncateSynopsis`.
- **Preloader** (`src/components/Preloader.js`): the typewriter animation,
  which grows and shrinks "Please wait" one character per tick.

Modules:

- `Js` (`js.dfy`) models the parts of JavaScript these files rely on:
  - JSON-like values and truthiness;
  - `String(v)` and `toString()`, which throws on `null` and `undefined`;
  - `parseInt` without a radix;
  - `split` on one character, `substring` and ASCII `toLowerCase`.
- `Helpers`, `Preloader`, `App` and `FilmDetail` follow the source files one
  for one.

How the source's forms map to Dafny:

- Pure code becomes functions with lemmas about them.
- Code that mutates becomes imperative Dafny:
  - the interval callback of the preloader is the class `Preloader.Typewriter`;
  - the `useState` state of the two pages is the classes `App.FilmPage` and
    `FilmDetail.FilmDetailPage`;
  - `localStorage` is the class `App.LocalStorage`;
  - the in-place shuffle is an `array` method;
  - the nested `forEach` and the `reduce` are methods with loops.
- Each method is proved against a specification function.

Inputs that come from outside the program are parameters:

- `Math.random()` is a sequence of drawn indices.
- `new Date().getTime()` is an integer `now`.
- `JSON.parse`, `JSON.stringify` and `encodeURIComponent` are function-typed
  parameters.
- An HTTP answer is a datatype that lists the outcomes the code distinguishes.

## Model

| member | source | states |
|---|---|---|
| Helpers.FormatRating | src/utils/helpers.js:3-5 | "N/A" exactly when the rating is falsy; otherwise String(rating) followed by "/10" |
| Helpers.TruncateSynopsis | src/utils/helpers.js:7-9 | a synopsis no longer than maxLength is returned unchanged; a longer one becomes its first max(maxLength, 0) characters plus "...", so it always starts with the kept prefix |
| Helpers.TruncateSynopsisDefault | src/utils/helpers.js:7-9 | with the default maxLength of 100: unchanged up to 100 characters, otherwise 103 characters starting with the first 100 |
| Helpers.TruncateSynopsisIdempotent | src/utils/helpers.js:7-9 | truncating an already truncated synopsis with the same maxLength changes nothing |
| Preloader.Emitted | src/components/Preloader.js:14-22 | every text shown is a prefix of "Please wait" followed by "..." |
| Preloader.Step | src/components/Preloader.js:16-27 | one tick keeps the index within 0..11, the length of "Please wait" |
| Preloader.Typewriter.constructor | src/components/Preloader.js:5-11 | the animation starts at index 0, growing, with an empty text |
| Preloader.Typewriter.Tick | src/components/Preloader.js:13-29 | one tick shows the text of the old state, moves to the next state and keeps the index in range |
| Preloader.StateInCycle | src/components/Preloader.js:13-29 | during the first 24 ticks the index runs 0..11 while growing, then 0..11 again while shrinking |
| Preloader.TextInCycle | src/components/Preloader.js:14-22 | tick n of a cycle shows the first n characters while growing, then the first 23 - n while shrinking |
| Preloader.CycleReturns | src/components/Preloader.js:13-29 | after 24 ticks the state is back at its start |
| Preloader.Periodic | src/components/Preloader.js:13-29 | the animation repeats with period 24 |
| Preloader.MinimalPeriod | src/components/Preloader.js:13-29 | no positive number of ticks below 24 returns to the start |
| Preloader.AfterAdd | src/components/Preloader.js:13-29 | running a + b ticks equals running a ticks and then b more |
| App.SwapPermutes | src/App.js:14 | the destructuring swap exchanges the two elements, keeps every other one, and so keeps the multiset of elements |
| App.ShuffledFromPermutes | src/App.js:11-17 | the shuffle's outcome, for any valid sequence of draws, is a permutation of its input |
| App.ShuffleArray | src/App.js:11-17 | shuffles the array in place: it returns that same array, its contents are the specified shuffle for the given draws, and they form a permutation of the old contents |
| App.Normalise | src/App.js:91-99 | fails exactly when year or imdbRating is undefined or null, where `toString()` throws; otherwise both are converted with String, a non-array genres value is wrapped into a one-element array, and the other fields are copied |
| App.NormaliseAll | src/App.js:91-99 | succeeds exactly when every entry normalises; the result is then as long as the input and agrees with Normalise at every index |
| App.LoweredGenres | src/App.js:122 | fails exactly when some genre is not a string; otherwise every genre is lowercased, in order |
| App.VisibleFilms | src/App.js:119-132 | the genre 'All' shows the whole page unfiltered |
| App.HasGenre | src/App.js:122-123 | the callback throws exactly when some genre is not a string; otherwise it answers whether some genre equals the active genre, ignoring case |
| App.FilterByGenre | src/App.js:121-124 | a filter that does not throw gives no more films than the page, and only films of the genre |
| App.FilterByGenreCharacterised | src/App.js:119-132 | the filter throws exactly when some film has a non-string genre; otherwise it keeps the films in order, and the number of copies of each film is its count in the page if it lists the genre and zero if not |
| App.FilterThrowsIff | src/App.js:121-124 | the filter throws exactly when some film has a non-string genre |
| App.FilterKeepsMatches | src/App.js:121-124 | a filter that does not throw keeps the films in order, each film of the genre as often as it occurs and no other film |
| App.FilterSameCallback | src/App.js:121-124 | two genres that give the same callback answers give the same filter result |
| App.FilterIgnoresCase | src/App.js:121-124 | two genres, neither being 'All', that differ only in ASCII letter case filter identically |
| App.TotalPages | src/App.js:116 | the page count is the ceiling of totalFilms / 20: 0 for no films, at least 1 otherwise, and just enough pages of 20 to hold every film |
| App.CurrentPage | src/App.js:51 | `parseInt(page) \|\| 1` is never 0; it is 1 exactly when the parameter is missing or parses to NaN, 0 or 1, and otherwise it is the parsed integer |
| Js.ParseIntOfIntToString | src/App.js:51 | parseInt reads back any integer from its decimal text, even with trailing text that starts with a non-digit, except 0 followed by x or X (read as hexadecimal) |
| App.PageRoute | src/App.js:140-147 | the route the buttons build matches "/page/:page", with the page's decimal text as the parameter |
| App.PageRouteReadsBack | src/App.js:138-150 | the route "/page/n" gives back n as its `:page` parameter and as the current page (0 reads as 1) |
| App.PreviousPageTarget | src/App.js:138-143 | navigates exactly when the current page is above 1, and the new route reads back as the previous page |
| App.NextPageTarget | src/App.js:145-150 | navigates exactly when the current page is below totalPages, and the new route reads back as the next page (page 1 from page -1, whose next route is "/page/0") |
| App.NavigationStaysInRange | src/App.js:138-150 | from a page in 1..totalPages, both buttons lead only to pages in 1..totalPages |
| App.InitialPopup | src/App.js:24-39 | a missing or empty entry shows the popup and keeps storage; an entry JSON.parse rejects, or that parses to null or undefined, shows it and removes the entry; otherwise the entry is removed exactly when its expires has passed, and a kept entry shows the popup exactly when its value is falsy; the entry is only ever removed when the popup is shown |
| App.IsPast | src/App.js:30 | a numeric expires has passed exactly when now exceeds it; an undefined, string, array or object expires never has |
| App.HideRecord | src/App.js:157-163 | the stored record's value is truthy, and its expires has not passed one hour later but has passed one millisecond after that |
| App.LocalStorage.GetItem | src/App.js:25 | getItem gives the stored text for a key that is present and nothing for a missing one |
| App.HiddenForAnHour | src/App.js:156-165 | after "don't show again" at time t, a page opened up to t + 1 hour hides the popup and keeps the entry; a later one shows the popup and removes the entry |
| App.FilmPage.constructor | src/App.js:22-48 | the initial state: genre 'All', no films, loading, totalFilms 0, and showPopup with the storage change the initialiser decides |
| App.FilmPage.FetchFilms | src/App.js:70-110 | a failed or unreadable response empties the films; a listing without films changes nothing; a film that cannot be normalised empties the films; otherwise the films are replaced and totalFilms is set to the total, or 0 without one; loading ends in every case |
| App.FilmPage.SelectGenre | src/App.js:323-324 | a click on a genre sets the active genre |
| App.FilmPage.ClosePopup | src/App.js:152-154 | closing hides the popup |
| App.FilmPage.DontShowAgain | src/App.js:156-165 | stores the serialised hide record, which expires one hour after now, under "hideWelcomePopup", changes no other key and hides the popup |
| FilmDetail.OriginalTitle | src/components/FilmDetail.js:44 | the title from the navigation state when it is truthy, otherwise the route's `:title` |
| FilmDetail.Year | src/components/FilmDetail.js:45 | the year from the navigation state; undefined, and so falsy, when there is none |
| FilmDetail.MetadataQuery | src/components/FilmDetail.js:57-58 | the query starts with the t and apikey parameters and goes on past them exactly when the year is truthy |
| FilmDetail.MetadataUrl | src/components/FilmDetail.js:57-58 | the request goes to the OMDb base URL, followed by '?' and then exactly the metadata query for the encoded title, the key and the year |
| FilmDetail.MetadataQueryParameters | src/components/FilmDetail.js:57-58 | when the encoded title, the key and the year text hold no '&', the query reads back as t and apikey, plus y exactly when the year is truthy |
| FilmDetail.MetadataUrlParameters | src/components/FilmDetail.js:57-58 | when the encoded title, the key and the year text hold no '&', the parameters read back from the whole metadata URL are the encoded title, the API key and, only when the year is truthy, the year |
| FilmDetail.PairReadsBack | src/components/FilmDetail.js:57-58 | every `name=value` part of the query reads back as its name and its value |
| FilmDetail.ErrorMessage | src/components/FilmDetail.js:61-63 | "Film not found" when the answer's Error field is falsy; otherwise String(Error), which is the field's own text when it is a string |
| FilmDetail.FilmDetailPage.constructor | src/components/FilmDetail.js:46-50 | the initial state: no film, loading, no error, no download links and downloadLoading false |
| FilmDetail.FilmDetailPage.FetchFilm | src/components/FilmDetail.js:53-70 | a failed request or `Response === "False"` sets the error message and keeps the film; any other answer sets the film and keeps the error; loading ends either way |
| FilmDetail.Flattened | src/components/FilmDetail.js:94-104 | there is one link per URL over all qualities |
| FilmDetail.FlattenOptions | src/components/FilmDetail.js:94-104 | the nested forEach loops push exactly the links of the flattened options, in order |
| FilmDetail.LinksOfSnoc | src/components/FilmDetail.js:97-102 | the links of one quality are those of its earlier URLs followed by the link of its last URL, labelled with its position |
| FilmDetail.FlattenedAt | src/components/FilmDetail.js:96-102 | URL j of quality k comes after the links of all earlier qualities, at offset j, labelled "<quality> GDrive <j+1>" |
| FilmDetail.FilmDetailPage.DownloadEffect | src/components/FilmDetail.js:76-114 | without a film nothing changes; with one, the links are the flattened options, or none when the API configuration is missing, the lookup fails or there are no options; downloadLoading ends false |
| FilmDetail.Label | src/components/FilmDetail.js:99 | a label starts with its quality followed by a space |
| FilmDetail.Quality | src/components/FilmDetail.js:199 | the first word of a label: a prefix of it that holds no space and is followed by a space or by the end of the label |
| FilmDetail.QualityOfLabel | src/components/FilmDetail.js:99 | the first space-separated word of a link label is its quality, when the quality has no space |
| FilmDetail.AddUrl | src/components/FilmDetail.js:200-201 | the URL is appended to its quality's group, which keeps its place, and every other group is unchanged; a quality without a group gets a new one, holding just the URL, at the end |
| FilmDetail.AddUrlNew | src/components/FilmDetail.js:200-201 | a quality not seen yet opens a new group holding the one URL, at the end |
| FilmDetail.AddUrlLast | src/components/FilmDetail.js:200-201 | a URL of the latest quality is appended to that quality's group |
| FilmDetail.GroupByQuality | src/components/FilmDetail.js:198-203 | the reduce loop builds exactly the specified grouping of the links |
| FilmDetail.GroupedFromAppend | src/components/FilmDetail.js:198-203 | grouping a + b equals grouping a and then going on with b |
| FilmDetail.KeyedAppend | src/components/FilmDetail.js:198-199 | the (quality, url) pairs the reduce reads from a + b are those of a followed by those of b |
| FilmDetail.KeyedLinksOf | src/components/FilmDetail.js:96-101 | when the quality has no space, every link of that quality is read back by the reduce as that quality with its URL, in order |
| FilmDetail.GroupedTagged | src/components/FilmDetail.js:198-203 | grouping a non-empty list of URLs of one new quality adds its group, with its URLs in order, at the end |
| FilmDetail.NonEmptyGroups | src/components/FilmDetail.js:197-204 | the qualities with at least one URL, each taken unchanged from the options: every option with URLs is kept, as often as it occurs, in order, and no other |
| FilmDetail.RegroupRecoversOptions | src/components/FilmDetail.js:197-204 | with distinct qualities that hold no space, grouping the flattened links gives back every quality that has URLs, in order, with its URLs in order |
| Js.SplitAfter | src/components/FilmDetail.js:199 | splitting text whose first separator follows a gives a and then the split of the rest |

## Left out

- App.PageParam: React Router also matches a trailing slash ("/page/3/"), matches the path regardless of letter case ("/PAGE/3") and percent-decodes the parameter. The model reads such routes as having no parameter, so as page 1. The buttons only ever build "/page/<n>".
- App.PageRouteReadsBack, App.PreviousPageTarget, App.NextPageTarget: integers are unbounded in the model. JavaScript numbers lose integer precision above 2^53, and `${n}` writes 1e21 and larger in exponent form, which `parseInt` reads back as 1. These read-back results therefore hold in JavaScript only for pages below 2^53.
- A `null` listing body, or a truthy `data.films` that is not an array, throws inside the `try` of fetchFilms. The model represents both as the `Unreadable` answer, which empties the films.
- Non-integer JavaScript numbers are not modelled. `Num` holds an integer, so ratings such as 7.5 and fractional `expires` values are outside the model.
- `toLowerCase` works on ASCII letters only, and strings are sequences of code points rather than UTF-16 units. Unicode case mapping is not modelled.
- App.IsPast, App.InitialPopup: a string or array stored as `expires` is compared as NaN, which never makes the entry expire. JavaScript would convert numeric text such as "5" to a number, and empty or white-space-only text to 0 (so an `expires` of "" does expire), and an array through its text (`[]` to 0, `[5]` to 5). The app itself only stores numbers.
- App.HideRecord: `setHours(getHours() + 1)` is modelled as adding 3 600 000 ms. A daylight-saving change in that hour is not modelled.
- `data.total || 0` is modelled for an integer total or a missing one. A non-numeric total is not modelled.
- FilmDetail.GroupByQuality: object keys that look like array indices would be listed first, in numeric order, by `Object.entries`. The model keeps insertion order for every key.
- FilmDetail.GroupByQuality: keys that name `Object.prototype` members (such as "constructor") are not modelled. With them, `acc[quality] || []` would find the inherited member.
- Non-array `urls` in `downloadOptions` are not modelled, nor `null` entries in `data.films`. Both would throw inside the `try`.
- Helpers.TruncateSynopsis takes a string synopsis. A missing synopsis would make `synopsis.length` throw, and that case is not modelled.
- A metadata body that is not an object is not modelled. Reading `data.Response` from `null` would throw a TypeError whose message is set as the error.
- The by-title URL of the download lookup is not modelled: only the lookup's outcome is. The `/log-download` POST on a download click is not modelled either, because it only logs.
- The search form and `SearchResults` are not part of this model. Neither are the chat box with its webhook, the sidebar, the scroll handler and the snow animation, which are presentation only.
- Rendering (JSX), `fetch`, `process.env` and the 150 ms timer are not modelled. Each request's answer is an argument of the method that handles it.
- Concurrent fetches that resolve out of order are not modelled. Each answer is applied in the order the methods are called.
