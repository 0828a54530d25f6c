/** The catalog page of src/App.js (the FilmPage component): normalising the
    listing response, the outcome of a page load, the client-side genre
    filter, page arithmetic and navigation, the route's page number, the
    "hide welcome popup" flag with its one-hour expiry, and shuffleArray. */
module App {
  import opened Js

  const FilmsPerPage := 20
  const AllGenres := "All"
  const PopupKey := "hideWelcomePopup"
  const HourMillis := 3600000

  // ---------------------------------------------------------------------
  // shuffleArray: an in-place Fisher-Yates shuffle. Math.random is an
  // oracle: draws[i] is the index j the loop picks when it is at i.

  predicate ValidDraws(draws: seq<int>, n: nat) {
    |draws| == n && forall i :: 0 < i < n ==> 0 <= draws[i] <= i
  }

  /** The destructuring swap `[s[i], s[j]] = [s[j], s[i]]`. */
  function Swap<T>(s: seq<T>, i: nat, j: nat): (r: seq<T>)
    requires i < |s| && j < |s|
    ensures |r| == |s|
  {
    s[i := s[j]][j := s[i]]
  }

  /** A swap exchanges the two elements, keeps the others, and so only
      reorders the sequence. */
  lemma SwapPermutes<T>(s: seq<T>, i: nat, j: nat)
    requires i < |s| && j < |s|
    ensures Swap(s, i, j)[i] == s[j] && Swap(s, i, j)[j] == s[i]
    ensures forall k :: 0 <= k < |s| && k != i && k != j ==> Swap(s, i, j)[k] == s[k]
    ensures multiset(Swap(s, i, j)) == multiset(s)
  {
  }

  /** The sequence once the loop has run from index i down to 1. */
  function ShuffledFrom<T>(s: seq<T>, draws: seq<int>, i: int): (r: seq<T>)
    requires ValidDraws(draws, |s|) && i < |s|
    ensures |r| == |s|
    decreases i
  {
    if i <= 0 then s else ShuffledFrom(Swap(s, i, draws[i]), draws, i - 1)
  }

  function Shuffled<T>(s: seq<T>, draws: seq<int>): seq<T>
    requires ValidDraws(draws, |s|)
  {
    ShuffledFrom(s, draws, |s| - 1)
  }

  /** The shuffle only reorders: it is a permutation of its input. */
  lemma {:induction false} ShuffledFromPermutes<T>(s: seq<T>, draws: seq<int>, i: int)
    requires ValidDraws(draws, |s|) && i < |s|
    ensures multiset(ShuffledFrom(s, draws, i)) == multiset(s)
    decreases i
  {
    if i > 0 {
      var next := Swap(s, i, draws[i]);
      SwapPermutes(s, i, draws[i]);
      ShuffledFromPermutes(next, draws, i - 1);
    }
  }

  method ShuffleArray<T>(a: array<T>, draws: seq<int>) returns (r: array<T>)
    requires ValidDraws(draws, a.Length)
    modifies a
    ensures r == a
    ensures a[..] == Shuffled(old(a[..]), draws)
    ensures multiset(a[..]) == multiset(old(a[..]))
  {
    var i := a.Length - 1;
    while i > 0
      invariant -1 <= i < a.Length
      invariant ShuffledFrom(a[..], draws, i) == Shuffled(old(a[..]), draws)
      decreases i
    {
      var j := draws[i];
      ghost var before := a[..];
      var t := a[i];
      a[i] := a[j];
      a[j] := t;
      assert a[..] == Swap(before, i, j);
      i := i - 1;
    }
    ShuffledFromPermutes(old(a[..]), draws, a.Length - 1);
    return a;
  }

  // ---------------------------------------------------------------------
  // Films and their normalisation

  /** A film entry as the listing endpoint sends it. */
  datatype RawFilm = RawFilm(
    title: JsValue, year: JsValue, banner: JsValue, synopsis: JsValue,
    imdbRating: JsValue, genres: JsValue, downloadLink: JsValue)

  /** A film as the page keeps it once normalised. */
  datatype Film = Film(
    title: JsValue, year: string, banner: JsValue, synopsis: JsValue,
    imdbRating: string, genres: seq<JsValue>, downloadLink: JsValue)

  /** The `map` callback: `year` and `imdbRating` go through `toString()`,
      which throws (None) when either is undefined or null; `genres` is kept
      when it is an array and wrapped as a one-element array otherwise. */
  function Normalise(raw: RawFilm): (r: Option<Film>)
    ensures r.None? <==> Nullish(raw.year) || Nullish(raw.imdbRating)
    ensures r.Some? ==>
              r.value.year == JsString(raw.year) && r.value.imdbRating == JsString(raw.imdbRating)
    ensures r.Some? ==>
              r.value.genres == if raw.genres.Arr? then raw.genres.items else [raw.genres]
    ensures r.Some? ==>
              r.value.title == raw.title && r.value.banner == raw.banner &&
              r.value.synopsis == raw.synopsis && r.value.downloadLink == raw.downloadLink
  {
    match (CallToString(raw.year), CallToString(raw.imdbRating))
    case (Some(year), Some(rating)) =>
      Some(Film(raw.title, year, raw.banner, raw.synopsis, rating,
                if raw.genres.Arr? then raw.genres.items else [raw.genres],
                raw.downloadLink))
    case _ => None
  }

  /** `data.films.map(...)`: one film out per film in, in the same order; the
      whole map throws (None) as soon as one entry does. */
  function NormaliseAll(raws: seq<RawFilm>): (r: Option<seq<Film>>)
    ensures r.Some? <==> forall i :: 0 <= i < |raws| ==> Normalise(raws[i]).Some?
    ensures r.Some? ==>
              |r.value| == |raws| &&
              forall i :: 0 <= i < |raws| ==> Normalise(raws[i]) == Some(r.value[i])
  {
    if |raws| == 0 then Some([])
    else
      match (Normalise(raws[0]), NormaliseAll(raws[1..]))
      case (Some(f), Some(fs)) =>
        assert forall i :: 1 <= i < |raws| ==> raws[i] == raws[1..][i - 1];
        Some([f] + fs)
      case (None, _) => None
      case (_, None) =>
        assert forall i :: 0 <= i < |raws[1..]| ==> raws[1..][i] == raws[i + 1];
        None
  }

  /** The listing endpoint's answer to one page request. */
  datatype ListingResponse =
    | NotOk        // !response.ok: 'API authorization failed' is thrown
    | Unreadable   // response.json() rejects, or reading it throws: a null body,
                   // or a truthy data.films that is not an array
    | Listing(films: Option<seq<RawFilm>>, total: Option<int>)  // data.films and data.total; None when absent or falsy

  // ---------------------------------------------------------------------
  // The genre filter

  /** `film.genres.map(g => g.toLowerCase())`: None when some genre is not a
      string, where the call throws. */
  function LoweredGenres(genres: seq<JsValue>): (r: Option<seq<string>>)
    ensures r.None? <==> exists i :: 0 <= i < |genres| && !genres[i].Str?
    ensures r.Some? ==>
              |r.value| == |genres| &&
              forall i :: 0 <= i < |genres| ==> genres[i].Str? && r.value[i] == ToLower(genres[i].s)
  {
    if |genres| == 0 then Some([])
    else if !genres[0].Str? then None
    else
      match LoweredGenres(genres[1..])
      case None => None
      case Some(rest) =>
        assert forall i :: 1 <= i < |genres| ==> genres[i] == genres[1..][i - 1];
        Some([ToLower(genres[0].s)] + rest)
  }

  /** The filter callback: does the film list the genre, ignoring case? */
  function HasGenre(film: Film, genre: string): (r: Option<bool>)
    ensures r.None? <==> exists i :: 0 <= i < |film.genres| && !film.genres[i].Str?
    ensures r.Some? ==>
              (r.value <==> exists i :: 0 <= i < |film.genres| && ToLower(film.genres[i].s) == ToLower(genre))
  {
    match LoweredGenres(film.genres)
    case None => None
    case Some(lowered) => Some(ToLower(genre) in lowered)
  }

  /** The film lists the genre (ignoring case) and none of its genres throws. */
  predicate Matches(film: Film, genre: string) {
    HasGenre(film, genre) == Some(true)
  }

  /** `films.filter(...)` with the callback above; None when it throws. */
  function FilterByGenre(films: seq<Film>, genre: string): (r: Option<seq<Film>>)
    ensures r.Some? ==> |r.value| <= |films| && forall i :: 0 <= i < |r.value| ==> Matches(r.value[i], genre)
  {
    if |films| == 0 then Some([])
    else
      match (HasGenre(films[0], genre), FilterByGenre(films[1..], genre))
      case (Some(keep), Some(rest)) => Some(if keep then [films[0]] + rest else rest)
      case _ => None
  }

  /** filteredFilms and currentFilms (the same expression): the whole page
      for 'All', and otherwise the films of the active genre. */
  function VisibleFilms(films: seq<Film>, activeGenre: string): (r: Option<seq<Film>>)
    ensures activeGenre == AllGenres ==> r == Some(films)
  {
    if activeGenre == AllGenres then Some(films) else FilterByGenre(films, activeGenre)
  }

  /** The filter throws exactly when some film has a non-string genre. */
  lemma {:induction false} FilterThrowsIff(films: seq<Film>, genre: string)
    ensures FilterByGenre(films, genre).None? <==>
              exists i :: 0 <= i < |films| && HasGenre(films[i], genre).None?
  {
    if |films| > 0 {
      var rest := films[1..];
      FilterThrowsIff(rest, genre);
      if exists i :: 0 <= i < |rest| && HasGenre(rest[i], genre).None? {
        var i :| 0 <= i < |rest| && HasGenre(rest[i], genre).None?;
        assert films[i + 1] == rest[i];
      }
      if exists i :: 0 <= i < |films| && HasGenre(films[i], genre).None? {
        var i :| 0 <= i < |films| && HasGenre(films[i], genre).None?;
        if i > 0 {
          assert rest[i - 1] == films[i];
        }
      }
    }
  }

  /** When the filter does not throw, it keeps, in their order, exactly the
      films of the genre, each as often as it occurs. */
  lemma {:induction false} FilterKeepsMatches(films: seq<Film>, genre: string)
    requires FilterByGenre(films, genre).Some?
    ensures var r := FilterByGenre(films, genre).value;
            IsSubsequence(r, films) &&
            forall f :: multiset(r)[f] == if Matches(f, genre) then multiset(films)[f] else 0
  {
    if |films| > 0 {
      var rest := films[1..];
      var r := FilterByGenre(films, genre).value;
      var tail := FilterByGenre(rest, genre).value;
      FilterKeepsMatches(rest, genre);
      if Matches(films[0], genre) {
        assert r == [films[0]] + tail;
        assert r[0] == films[0] && r[1..] == tail;
      } else {
        assert r == tail;
      }
      MatchCountsCons(films, genre, tail, r);
    }
  }

  /** The counts FilterKeepsMatches promises carry over from the films after
      the first to all of them. */
  lemma MatchCountsCons(films: seq<Film>, genre: string, tail: seq<Film>, r: seq<Film>)
    requires |films| > 0
    requires forall f :: multiset(tail)[f] == if Matches(f, genre) then multiset(films[1..])[f] else 0
    requires r == if Matches(films[0], genre) then [films[0]] + tail else tail
    ensures forall f :: multiset(r)[f] == if Matches(f, genre) then multiset(films)[f] else 0
  {
    SelectedCountsCons(films, f => Matches(f, genre), tail, r);
  }

  /** Counts of a selection carry over from xs[1..] to xs when xs[0] is
      kept exactly when it passes `keep`. */
  lemma SelectedCountsCons<T>(xs: seq<T>, keep: T -> bool, tail: seq<T>, r: seq<T>)
    requires |xs| > 0
    requires forall x :: multiset(tail)[x] == if keep(x) then multiset(xs[1..])[x] else 0
    requires r == if keep(xs[0]) then [xs[0]] + tail else tail
    ensures forall x :: multiset(r)[x] == if keep(x) then multiset(xs)[x] else 0
  {
    assert xs == [xs[0]] + xs[1..];
    assert multiset(xs) == multiset{xs[0]} + multiset(xs[1..]);
    assert multiset([xs[0]] + tail) == multiset{xs[0]} + multiset(tail);
  }

  /** The whole behaviour of the genre filter: it throws exactly when some
      film has a non-string genre; otherwise it keeps, in their order,
      exactly the films of the genre, each as often as it occurs. */
  lemma FilterByGenreCharacterised(films: seq<Film>, genre: string)
    ensures FilterByGenre(films, genre).None? <==>
              exists i :: 0 <= i < |films| && HasGenre(films[i], genre).None?
    ensures FilterByGenre(films, genre).Some? ==>
              var r := FilterByGenre(films, genre).value;
              IsSubsequence(r, films) &&
              forall f :: multiset(r)[f] == if Matches(f, genre) then multiset(films)[f] else 0
  {
    FilterThrowsIff(films, genre);
    if FilterByGenre(films, genre).Some? {
      FilterKeepsMatches(films, genre);
    }
  }

  /** Only the case of the genre matters to the filter (apart from the
      exact string 'All', which switches it off). */
  lemma FilterIgnoresCase(films: seq<Film>, a: string, b: string)
    requires ToLower(a) == ToLower(b) && a != AllGenres && b != AllGenres
    ensures VisibleFilms(films, a) == VisibleFilms(films, b)
  {
    assert forall f :: HasGenre(f, a) == HasGenre(f, b);
    FilterSameCallback(films, a, b);
  }

  lemma {:induction false} FilterSameCallback(films: seq<Film>, a: string, b: string)
    requires forall f :: HasGenre(f, a) == HasGenre(f, b)
    ensures FilterByGenre(films, a) == FilterByGenre(films, b)
  {
    if |films| > 0 {
      FilterSameCallback(films[1..], a, b);
    }
  }

  // ---------------------------------------------------------------------
  // Pages

  /** Math.ceil(totalFilms / 20). */
  function TotalPages(totalFilms: int): (pages: int)
    ensures (pages - 1) * FilmsPerPage < totalFilms <= pages * FilmsPerPage
    ensures totalFilms == 0 ==> pages == 0
    ensures totalFilms > 0 ==> pages >= 1
  {
    -((-totalFilms) / FilmsPerPage)
  }

  /** The `:page` parameter of the route "/page/:page"; None on "/". */
  function PageParam(path: string): Option<string> {
    if |path| > 6 && path[..6] == "/page/" && '/' !in path[6..] then Some(path[6..]) else None
  }

  /** `parseInt(page) || 1`: no parameter, no leading digits (NaN) and 0 all
      fall back to page 1; otherwise the leading integer is the page. */
  function CurrentPage(page: Option<string>): (p: int)
    ensures p != 0
    ensures p == 1 <==> page.None? || ParseInt(page.value) in {None, Some(0), Some(1)}
    ensures p != 1 ==> page.Some? && ParseInt(page.value) == Some(p)
  {
    match page
    case None => 1
    case Some(s) =>
      match ParseInt(s)
      case None => 1
      case Some(n) => if n == 0 then 1 else n
  }

  /** The route the buttons navigate to. */
  function PageRoute(p: int): (route: string)
    ensures PageParam(route) == Some(IntToString(p))
  {
    var route := "/page/" + IntToString(p);
    NoSlashInNumber(p);
    assert route[6..] == IntToString(p) && route[..6] == "/page/";
    route
  }

  /** The text of an integer holds no '/'. */
  lemma NoSlashInNumber(p: int)
    ensures '/' !in IntToString(p)
  {
    var t := IntToString(p);
    if p < 0 {
      var d := Digits(-p);
      assert t == "-" + d;
      assert forall i :: 1 <= i < |t| ==> t[i] == d[i - 1];
    }
  }

  lemma PageRouteReadsBack(p: int)
    ensures PageParam(PageRoute(p)) == Some(IntToString(p))
    ensures CurrentPage(PageParam(PageRoute(p))) == if p == 0 then 1 else p
  {
    var t := IntToString(p);
    ParseIntOfIntToString(p, []);
    assert t + [] == t;
  }

  /** handlePreviousPage: navigates only from a page above 1, and the page
      the new route yields is the previous one. */
  function PreviousPageTarget(currentPage: int): (target: Option<string>)
    ensures target.Some? <==> currentPage > 1
    ensures target.Some? ==> CurrentPage(PageParam(target.value)) == currentPage - 1
  {
    if currentPage > 1 then
      PageRouteReadsBack(currentPage - 1);
      Some(PageRoute(currentPage - 1))
    else None
  }

  /** handleNextPage: navigates only from a page below totalPages, and the
      page the new route yields is the next one (a route "/page/0" reads as 1). */
  function NextPageTarget(currentPage: int, totalPages: int): (target: Option<string>)
    ensures target.Some? <==> currentPage < totalPages
    ensures target.Some? ==>
              CurrentPage(PageParam(target.value)) == if currentPage == -1 then 1 else currentPage + 1
  {
    if currentPage < totalPages then
      PageRouteReadsBack(currentPage + 1);
      Some(PageRoute(currentPage + 1))
    else None
  }

  /** From a page in [1, totalPages], the buttons only reach pages in
      [1, totalPages]. */
  lemma NavigationStaysInRange(currentPage: int, totalFilms: int)
    requires 1 <= currentPage <= TotalPages(totalFilms)
    ensures var prev := PreviousPageTarget(currentPage);
            prev.Some? ==> 1 <= CurrentPage(PageParam(prev.value)) <= TotalPages(totalFilms)
    ensures var next := NextPageTarget(currentPage, TotalPages(totalFilms));
            next.Some? ==> 1 <= CurrentPage(PageParam(next.value)) <= TotalPages(totalFilms)
  {
  }

  // ---------------------------------------------------------------------
  // The "hide welcome popup" flag

  /** What the showPopup initialiser decides: whether to show the popup, and
      whether it removes the stored entry. */
  datatype PopupStart = PopupStart(show: bool, removeEntry: bool)

  /** `now > expires` for an integer now. undefined gives NaN and compares
      false; string, array and object values are taken as NaN as well. */
  function IsPast(now: int, expires: JsValue): (past: bool)
    ensures expires.Num? ==> (past <==> now > expires.n)
    ensures expires.Undefined? || expires.Str? || expires.Arr? || expires.Obj? ==> !past
  {
    match expires
    case Num(n) => now > n
    case Null => now > 0
    case Bool(b) => now > (if b then 1 else 0)
    case _ => false
  }

  /** The showPopup initialiser. `stored` is localStorage's entry (None when
      missing) and `parse` is JSON.parse (None where it throws). */
  function InitialPopup(stored: Option<string>, now: int, parse: string -> Option<JsValue>): (r: PopupStart)
    ensures r.removeEntry ==> r.show
    ensures stored == None || stored == Some("") ==> r == PopupStart(true, false)
    ensures stored.Some? && stored.value != "" && parse(stored.value).None? ==> r == PopupStart(true, true)
    ensures stored.Some? && stored.value != "" && parse(stored.value).Some? ==>
              var v := parse(stored.value).value;
              (Nullish(v) ==> r == PopupStart(true, true)) &&
              (!Nullish(v) ==> (r.removeEntry <==> IsPast(now, Get(v, "expires")))) &&
              (!Nullish(v) && !r.removeEntry ==> r.show == !Truthy(Get(v, "value")))
  {
    if stored == None || stored.value == "" then PopupStart(true, false)
    else
      match parse(stored.value)
      case None => PopupStart(true, true)
      case Some(v) =>
        if Nullish(v) then PopupStart(true, true)  // destructuring null throws
        else if IsPast(now, Get(v, "expires")) then PopupStart(true, true)
        else PopupStart(!Truthy(Get(v, "value")), false)
  }

  /** The object handleDontShowAgain stores, expiring one hour after now. */
  function HideRecord(now: int): (record: JsValue)
    ensures Truthy(Get(record, "value"))
    ensures !IsPast(now + HourMillis, Get(record, "expires"))
    ensures IsPast(now + HourMillis + 1, Get(record, "expires"))
  {
    Obj(map["value" := Bool(true), "expires" := Num(now + HourMillis)])
  }

  /** "Don't show again" hides the popup for one hour: a page started up to
      an hour later keeps the entry and does not show the popup; one started
      later removes the entry and shows it. */
  lemma HiddenForAnHour(stored: string, saved: int, now: int, parse: string -> Option<JsValue>)
    requires stored != "" && parse(stored) == Some(HideRecord(saved))
    ensures InitialPopup(Some(stored), now, parse) ==
              if now > saved + HourMillis then PopupStart(true, true) else PopupStart(false, false)
  {
    assert Get(HideRecord(saved), "expires") == Num(saved + HourMillis);
    assert Get(HideRecord(saved), "value") == Bool(true);
  }

  /** The browser's localStorage. */
  class LocalStorage {
    var items: map<string, string>

    constructor (items: map<string, string>)
      ensures this.items == items
    {
      this.items := items;
    }

    /** getItem: None where the key is missing. */
    function GetItem(key: string): (item: Option<string>)
      reads this
      ensures item.Some? <==> key in items
      ensures item.Some? ==> item.value == items[key]
    {
      if key in items then Some(items[key]) else None
    }
  }

  // ---------------------------------------------------------------------
  // The page's state

  /** The state FilmPage keeps with useState. The route's `:page` parameter
      is not state: the members that need it take it as an argument. */
  class FilmPage {
    var activeGenre: string
    var showPopup: bool
    var films: seq<Film>
    var loading: bool
    var totalFilms: int

    /** Mounting: the initial values, with showPopup read (and possibly
        removed) from localStorage. */
    constructor (storage: LocalStorage, now: int, parse: string -> Option<JsValue>)
      modifies storage
      ensures activeGenre == AllGenres && films == [] && loading && totalFilms == 0
      ensures var start := InitialPopup(old(storage.GetItem(PopupKey)), now, parse);
              showPopup == start.show &&
              storage.items == if start.removeEntry then old(storage.items) - {PopupKey} else old(storage.items)
    {
      var start := InitialPopup(storage.GetItem(PopupKey), now, parse);
      if start.removeEntry {
        storage.items := storage.items - {PopupKey};
      }
      activeGenre := AllGenres;
      showPopup := start.show;
      films := [];
      loading := true;
      totalFilms := 0;
    }

    /** fetchFilms once the request has been answered. A usable listing
        replaces the films and sets totalFilms (0 when the total is missing);
        a listing without films changes nothing; a failed request, an
        unreadable body or a film whose year or rating cannot be converted
        empties the films and keeps totalFilms. Loading ends in every case. */
    method FetchFilms(response: ListingResponse)
      modifies this`films, this`totalFilms, this`loading
      ensures !loading
      ensures response.NotOk? || response.Unreadable? ==>
                films == [] && totalFilms == old(totalFilms)
      ensures response.Listing? && response.films.None? ==>
                films == old(films) && totalFilms == old(totalFilms)
      ensures response.Listing? && response.films.Some? ==>
                match NormaliseAll(response.films.value)
                case None => films == [] && totalFilms == old(totalFilms)
                case Some(normalised) =>
                  films == normalised &&
                  totalFilms == if response.total.Some? then response.total.value else 0
    {
      loading := true;
      match response {
        case NotOk =>
          films := [];
        case Unreadable =>
          films := [];
        case Listing(raw, total) =>
          if raw.Some? {
            var normalised := NormaliseAll(raw.value);
            if normalised.None? {
              films := [];
            } else {
              films := normalised.value;
              totalFilms := if total.Some? then total.value else 0;
            }
          }
      }
      loading := false;
    }

    /** Clicking a genre in the sidebar: the filter changes, nothing is fetched. */
    method SelectGenre(genre: string)
      modifies this`activeGenre
      ensures activeGenre == genre
    {
      activeGenre := genre;
    }

    method ClosePopup()
      modifies this`showPopup
      ensures !showPopup
    {
      showPopup := false;
    }

    /** handleDontShowAgain: store `{value: true, expires: now + 1 hour}`
        (serialised by `stringify`) and hide the popup. */
    method DontShowAgain(storage: LocalStorage, now: int, stringify: JsValue -> string)
      modifies storage, this`showPopup
      ensures !showPopup
      ensures storage.items == old(storage.items)[PopupKey := stringify(HideRecord(now))]
    {
      storage.items := storage.items[PopupKey := stringify(HideRecord(now))];
      showPopup := false;
    }
  }
}
