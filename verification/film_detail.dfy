/** The film detail page of src/components/FilmDetail.js: which title it
    looks up, the metadata request URL and how its answer is taken, the
    flattening of the download options into labelled links, and the
    regrouping of those links by quality when the page renders. */
module FilmDetail {
  import opened Js

  const MetadataBase := "https://www.omdbapi.com/"
  const NotFoundMessage := "Film not found"

  // ---------------------------------------------------------------------
  // The title and year to look up

  /** `location.state`, which a film card fills when it navigates here. */
  datatype LocationState = NoState | State(originalTitle: JsValue, year: JsValue)

  /** `location.state?.originalTitle || title`: the card's title when it is
      truthy, the route's `:title` otherwise. */
  function OriginalTitle(state: LocationState, title: string): (r: JsValue)
    ensures state.State? && Truthy(state.originalTitle) ==> r == state.originalTitle
    ensures !(state.State? && Truthy(state.originalTitle)) ==> r == Str(title)
    ensures Truthy(r) || r == Str(title)
  {
    if state.State? && Truthy(state.originalTitle) then state.originalTitle else Str(title)
  }

  /** `location.state?.year`: undefined when there is no navigation state. */
  function Year(state: LocationState): (r: JsValue)
    ensures state.NoState? ==> r == Undefined && !Truthy(r)
    ensures state.State? ==> r == state.year
  {
    if state.State? then state.year else Undefined
  }

  // ---------------------------------------------------------------------
  // The metadata request

  /** One `name=value` query parameter. */
  function Pair(name: string, value: string): string {
    name + "=" + value
  }

  /** The query of the metadata URL: the encoded title, the API key and,
      only when the year is truthy, the year. */
  function MetadataQuery(t: string, key: string, year: JsValue): (r: string)
    ensures Pair("t", t) + "&" + Pair("apikey", key) <= r
    ensures Truthy(year) <==> |r| > |Pair("t", t) + "&" + Pair("apikey", key)|
  {
    Pair("t", t) + "&" + Pair("apikey", key) + (if Truthy(year) then "&" + Pair("y", JsString(year)) else "")
  }

  /** The metadata URL; `encode` is encodeURIComponent. */
  function MetadataUrl(originalTitle: JsValue, year: JsValue, apiKey: JsValue, encode: string -> string): (r: string)
    ensures MetadataBase + "?" <= r
    ensures r[|MetadataBase| + 1..] == MetadataQuery(encode(JsString(originalTitle)), JsString(apiKey), year)
  {
    MetadataBase + "?" + MetadataQuery(encode(JsString(originalTitle)), JsString(apiKey), year)
  }

  /** `name=value` split at the first '='. */
  function Parameter(part: string): (string, string) {
    var e := IndexOfChar(part, '=');
    if e == |part| then (part, "") else (part[..e], part[e + 1..])
  }

  function Parameters(parts: seq<string>): (r: seq<(string, string)>)
    ensures |r| == |parts|
  {
    if |parts| == 0 then [] else [Parameter(parts[0])] + Parameters(parts[1..])
  }

  /** A simplified reading of a URL's query as name/value pairs: split on
      '&' and then at the first '='. Unlike URLSearchParams it does not
      percent-decode, keeps empty parts and leaves '+' as it is. */
  function QueryParameters(url: string): seq<(string, string)> {
    var q := IndexOfChar(url, '?');
    if q == |url| then [] else Parameters(Split(url[q + 1..], '&'))
  }

  /** A parameter whose name has no '=' reads back as that name and value;
      it holds no '&' when neither part does. */
  lemma PairReadsBack(name: string, value: string)
    requires '=' !in name && '&' !in name && '&' !in value
    ensures '&' !in Pair(name, value)
    ensures Parameter(Pair(name, value)) == (name, value)
  {
    var p := Pair(name, value);
    assert p[|name|] == '=';
    assert IndexOfChar(p, '=') == |name|;
    assert p[..|name|] == name && p[|name| + 1..] == value;
  }

  lemma QueryAfterMark(base: string, query: string)
    requires '?' !in base
    ensures QueryParameters(base + "?" + query) == Parameters(Split(query, '&'))
  {
    var url := base + "?" + query;
    assert url[|base|] == '?';
    assert forall i :: 0 <= i < |base| ==> url[i] == base[i];
    assert IndexOfChar(url, '?') == |base|;
    assert url[|base| + 1..] == query;
  }

  lemma ParametersOfTwo(first: string, rest: string)
    requires '&' !in first
    ensures Parameters(Split(first + "&" + rest, '&')) == [Parameter(first)] + Parameters(Split(rest, '&'))
  {
    SplitAfter(first, '&', rest);
    var parts := [first] + Split(rest, '&');
    assert parts[0] == first && parts[1..] == Split(rest, '&');
  }

  lemma ParametersOfSingle(part: string)
    requires '&' !in part
    ensures Parameters(Split(part, '&')) == [Parameter(part)]
  {
    SplitWithout(part, '&');
  }

  /** Two '&'-free parts joined by '&' read back as two parameters, in order. */
  lemma ParametersOfPair(first: string, second: string)
    requires '&' !in first && '&' !in second
    ensures Parameters(Split(first + "&" + second, '&')) == [Parameter(first), Parameter(second)]
  {
    ParametersOfTwo(first, second);
    ParametersOfSingle(second);
  }

  lemma ParametersOfTriple(first: string, second: string, third: string)
    requires '&' !in first && '&' !in second && '&' !in third
    ensures Parameters(Split(first + "&" + second + ("&" + third), '&')) ==
              [Parameter(first), Parameter(second), Parameter(third)]
  {
    Associative(first + "&", second, "&" + third);
    Associative(second, "&", third);
    ParametersOfTwo(first, second + "&" + third);
    ParametersOfPair(second, third);
  }

  /** The metadata query reads back as t, apikey and, only for a truthy
      year, y — provided the title, the key and the year text hold no '&'. */
  lemma MetadataQueryParameters(t: string, key: string, year: JsValue)
    requires '&' !in t && '&' !in key
    requires Truthy(year) ==> '&' !in JsString(year)
    ensures Parameters(Split(MetadataQuery(t, key, year), '&')) ==
              [("t", t), ("apikey", key)] + (if Truthy(year) then [("y", JsString(year))] else [])
  {
    PairReadsBack("t", t);
    PairReadsBack("apikey", key);
    if Truthy(year) {
      PairReadsBack("y", JsString(year));
      ParametersOfTriple(Pair("t", t), Pair("apikey", key), Pair("y", JsString(year)));
    } else {
      assert MetadataQuery(t, key, year) == Pair("t", t) + "&" + Pair("apikey", key);
      ParametersOfPair(Pair("t", t), Pair("apikey", key));
    }
  }

  /** The metadata URL's query parameters, read back from the whole URL;
      encodeURIComponent escapes '&', so the title cannot split the query. */
  lemma MetadataUrlParameters(originalTitle: JsValue, year: JsValue, apiKey: JsValue, encode: string -> string)
    requires '&' !in encode(JsString(originalTitle))
    requires '&' !in JsString(apiKey)
    requires Truthy(year) ==> '&' !in JsString(year)
    ensures QueryParameters(MetadataUrl(originalTitle, year, apiKey, encode)) ==
              [("t", encode(JsString(originalTitle))), ("apikey", JsString(apiKey))] +
              (if Truthy(year) then [("y", JsString(year))] else [])
  {
    var t := encode(JsString(originalTitle));
    var key := JsString(apiKey);
    QueryAfterMark(MetadataBase, MetadataQuery(t, key, year));
    MetadataQueryParameters(t, key, year);
  }

  /** The metadata endpoint's answer, read as a JSON object. */
  datatype MetadataResponse =
    | Failed(message: string)                // fetch or response.json() rejects with this message
    | Answer(data: map<string, JsValue>)

  /** `data.Error || 'Film not found'`, as the message of the Error thrown. */
  function ErrorMessage(data: map<string, JsValue>): (message: string)
    ensures !Truthy(Get(Obj(data), "Error")) ==> message == NotFoundMessage
    ensures Truthy(Get(Obj(data), "Error")) ==> message == JsString(Get(Obj(data), "Error"))
    ensures Get(Obj(data), "Error").Str? && Truthy(Get(Obj(data), "Error")) ==>
              message == Get(Obj(data), "Error").s
  {
    var e := Get(Obj(data), "Error");
    JsString(if Truthy(e) then e else Str(NotFoundMessage))
  }

  // ---------------------------------------------------------------------
  // Download links

  /** A download button: its `label` property and its URL. */
  datatype Link = Link(labelText: string, url: string)

  /** `Object.entries(downloadOptions)`: quality and URL list, in key order. */
  type Options = seq<(string, seq<string>)>

  /** `${quality} GDrive ${k}`: the quality, a space, and the rest. */
  function Label(quality: string, k: int): (r: string)
    ensures quality + [' '] <= r
  {
    quality + " GDrive " + IntToString(k)
  }

  /** The links of one quality, labelled 1, 2, ... in URL order. */
  function LinksOf(quality: string, urls: seq<string>): (r: seq<Link>)
    ensures |r| == |urls|
  {
    seq(|urls|, i requires 0 <= i < |urls| => Link(Label(quality, i + 1), urls[i]))
  }

  function TotalUrls(options: Options): nat {
    if |options| == 0 then 0 else TotalUrls(options[..|options| - 1]) + |options[|options| - 1].1|
  }

  /** All links, quality by quality. */
  function Flattened(options: Options): (r: seq<Link>)
    ensures |r| == TotalUrls(options)
  {
    if |options| == 0 then []
    else
      var last := options[|options| - 1];
      Flattened(options[..|options| - 1]) + LinksOf(last.0, last.1)
  }

  /** The nested forEach of fetchDownloadLinks, pushing one link per URL. */
  method FlattenOptions(options: Options) returns (links: seq<Link>)
    ensures links == Flattened(options)
  {
    links := [];
    for k := 0 to |options|
      invariant links == Flattened(options[..k])
    {
      var quality := options[k].0;
      var urls := options[k].1;
      for idx := 0 to |urls|
        invariant links == Flattened(options[..k]) + LinksOf(quality, urls[..idx])
      {
        assert LinksOf(quality, urls[..idx + 1]) ==
               LinksOf(quality, urls[..idx]) + [Link(Label(quality, idx + 1), urls[idx])];
        links := links + [Link(Label(quality, idx + 1), urls[idx])];
      }
      assert urls[..|urls|] == urls;
      assert options[..k + 1][..k] == options[..k];
    }
    assert options[..|options|] == options;
  }

  /** The link for URL j of quality k sits after all links of the earlier
      qualities, at offset j, and is labelled "<quality> GDrive <j+1>". */
  lemma {:induction false} FlattenedAt(options: Options, k: nat, j: nat)
    requires k < |options| && j < |options[k].1|
    ensures TotalUrls(options[..k]) + j < TotalUrls(options)
    ensures Flattened(options)[TotalUrls(options[..k]) + j] ==
              Link(Label(options[k].0, j + 1), options[k].1[j])
    decreases |options|
  {
    var n := |options| - 1;
    var init := options[..n];
    var last := LinksOf(options[n].0, options[n].1);
    assert Flattened(options) == Flattened(init) + last;
    if k == n {
      assert options[..k] == init;
      assert last[j] == Link(Label(options[k].0, j + 1), options[k].1[j]);
    } else {
      FlattenedAt(init, k, j);
      assert init[..k] == options[..k];
      assert init[k] == options[k];
    }
  }

  /** `dl.label.split(' ')[0]`. */
  function Quality(labelText: string): (r: string)
    ensures r <= labelText && ' ' !in r
    ensures |r| < |labelText| ==> labelText[|r|] == ' '
  {
    Split(labelText, ' ')[0]
  }

  lemma QualityOfLabel(quality: string, k: int)
    requires ' ' !in quality
    ensures Quality(Label(quality, k)) == quality
  {
    var rest := "GDrive " + IntToString(k);
    assert Label(quality, k) == quality + [' '] + rest;
    SplitAfter(quality, ' ', rest);
  }

  /** The reduce's accumulator: quality and URLs, in insertion order. */
  type Groups = seq<(string, seq<string>)>

  function IndexOfKey(groups: Groups, key: string): (i: nat)
    ensures i <= |groups|
    ensures i < |groups| ==> groups[i].0 == key
    ensures forall k :: 0 <= k < i ==> groups[k].0 != key
  {
    if |groups| == 0 then 0 else if groups[0].0 == key then 0 else 1 + IndexOfKey(groups[1..], key)
  }

  /** `acc[quality] = acc[quality] || []; acc[quality].push(url)`. */
  function AddUrl(groups: Groups, key: string, url: string): (r: Groups)
    ensures var i := IndexOfKey(groups, key);
            if i == |groups| then r == groups + [(key, [url])]
            else |r| == |groups| && r[i] == (key, groups[i].1 + [url]) &&
                 forall k :: 0 <= k < |groups| && k != i ==> r[k] == groups[k]
  {
    var i := IndexOfKey(groups, key);
    if i == |groups| then groups + [(key, [url])] else groups[i := (key, groups[i].1 + [url])]
  }

  /** A quality not yet seen opens a new group at the end. */
  lemma AddUrlNew(groups: Groups, key: string, url: string)
    requires forall i :: 0 <= i < |groups| ==> groups[i].0 != key
    ensures AddUrl(groups, key, url) == groups + [(key, [url])]
  {
    assert IndexOfKey(groups, key) == |groups|;
  }

  /** A quality whose group is the last one gets the URL appended there. */
  lemma AddUrlLast(groups: Groups, key: string, urls: seq<string>, url: string)
    requires forall i :: 0 <= i < |groups| ==> groups[i].0 != key
    ensures AddUrl(groups + [(key, urls)], key, url) == groups + [(key, urls + [url])]
  {
    var before := groups + [(key, urls)];
    assert before[|groups|].0 == key;
    assert forall k :: 0 <= k < |groups| ==> before[k] == groups[k];
    assert IndexOfKey(before, key) == |groups|;
  }

  /** Each link as the reduce sees it: its quality and its URL. */
  function Keyed(links: seq<Link>): (r: seq<(string, string)>)
    ensures |r| == |links|
  {
    if |links| == 0 then []
    else [(Quality(links[0].labelText), links[0].url)] + Keyed(links[1..])
  }

  /** Adding the URLs to their groups one after the other. */
  function GroupedFrom(groups: Groups, pairs: seq<(string, string)>): Groups
    decreases |pairs|
  {
    if |pairs| == 0 then groups
    else GroupedFrom(AddUrl(groups, pairs[0].0, pairs[0].1), pairs[1..])
  }

  /** The render's `downloadLinks.reduce(..., {})`. */
  function Grouped(links: seq<Link>): Groups {
    GroupedFrom([], Keyed(links))
  }

  /** The reduce over the links, one link per iteration. */
  method GroupByQuality(links: seq<Link>) returns (groups: Groups)
    ensures groups == Grouped(links)
  {
    groups := [];
    for i := 0 to |links|
      invariant GroupedFrom(groups, Keyed(links[i..])) == Grouped(links)
    {
      var quality := Split(links[i].labelText, ' ')[0];
      groups := AddUrl(groups, quality, links[i].url);
      assert links[i..][1..] == links[i + 1..];
    }
  }

  lemma {:induction false} GroupedFromAppend(groups: Groups, a: seq<(string, string)>, b: seq<(string, string)>)
    ensures GroupedFrom(groups, a + b) == GroupedFrom(GroupedFrom(groups, a), b)
    decreases |a|
  {
    if |a| == 0 {
      assert a + b == b;
    } else {
      assert (a + b)[0] == a[0];
      assert (a + b)[1..] == a[1..] + b;
      GroupedFromAppend(AddUrl(groups, a[0].0, a[0].1), a[1..], b);
    }
  }

  lemma {:induction false} KeyedAppend(a: seq<Link>, b: seq<Link>)
    ensures Keyed(a + b) == Keyed(a) + Keyed(b)
    decreases |a|
  {
    if |a| == 0 {
      assert a + b == b;
    } else {
      assert (a + b)[0] == a[0];
      assert (a + b)[1..] == a[1..] + b;
      KeyedAppend(a[1..], b);
    }
  }

  lemma KeyedOne(link: Link)
    ensures Keyed([link]) == [(Quality(link.labelText), link.url)]
  {
    assert [link][1..] == [];
  }

  lemma LinksOfSnoc(quality: string, urls: seq<string>)
    requires |urls| > 0
    ensures LinksOf(quality, urls) ==
              LinksOf(quality, urls[..|urls| - 1]) + [Link(Label(quality, |urls|), urls[|urls| - 1])]
  {
  }

  /** The URLs of one quality as (quality, url) pairs. */
  function Tagged(quality: string, urls: seq<string>): seq<(string, string)> {
    if |urls| == 0 then [] else Tagged(quality, urls[..|urls| - 1]) + [(quality, urls[|urls| - 1])]
  }

  /** Every label of one quality's links starts with that quality. */
  lemma {:induction false} KeyedLinksOf(quality: string, urls: seq<string>)
    requires ' ' !in quality
    ensures Keyed(LinksOf(quality, urls)) == Tagged(quality, urls)
    decreases |urls|
  {
    if |urls| > 0 {
      var n := |urls| - 1;
      var link := Link(Label(quality, n + 1), urls[n]);
      LinksOfSnoc(quality, urls);
      KeyedAppend(LinksOf(quality, urls[..n]), [link]);
      KeyedLinksOf(quality, urls[..n]);
      QualityOfLabel(quality, n + 1);
      KeyedOne(link);
    }
  }

  lemma GroupedFromOne(groups: Groups, pair: (string, string))
    ensures GroupedFrom(groups, [pair]) == AddUrl(groups, pair.0, pair.1)
  {
    assert [pair][1..] == [];
  }

  lemma GroupedTaggedStep(groups: Groups, quality: string, urls: seq<string>)
    requires |urls| > 0
    ensures GroupedFrom(groups, Tagged(quality, urls)) ==
              AddUrl(GroupedFrom(groups, Tagged(quality, urls[..|urls| - 1])), quality, urls[|urls| - 1])
  {
    var n := |urls| - 1;
    GroupedFromAppend(groups, Tagged(quality, urls[..n]), [(quality, urls[n])]);
    GroupedFromOne(GroupedFrom(groups, Tagged(quality, urls[..n])), (quality, urls[n]));
  }

  /** Regrouping the URLs of one new quality adds that quality's group,
      with its URLs in order, at the end. */
  lemma {:induction false} GroupedTagged(groups: Groups, quality: string, urls: seq<string>)
    requires urls != []
    requires forall i :: 0 <= i < |groups| ==> groups[i].0 != quality
    ensures GroupedFrom(groups, Tagged(quality, urls)) == groups + [(quality, urls)]
    decreases |urls|
  {
    var n := |urls| - 1;
    GroupedTaggedStep(groups, quality, urls);
    if n == 0 {
      assert Tagged(quality, urls[..n]) == [];
      AddUrlNew(groups, quality, urls[n]);
      assert [urls[n]] == urls;
    } else {
      GroupedTagged(groups, quality, urls[..n]);
      AddUrlLast(groups, quality, urls[..n], urls[n]);
      assert urls[..n] + [urls[n]] == urls;
    }
  }

  predicate DistinctQualities(options: Options) {
    forall i, j :: 0 <= i < j < |options| ==> options[i].0 != options[j].0
  }

  predicate NoSpaceInQualities(options: Options) {
    forall i :: 0 <= i < |options| ==> ' ' !in options[i].0
  }

  /** The options without the qualities that have no URL: every option
      with URLs is kept, unchanged and in order, and no other. */
  function NonEmptyGroups(options: Options): (r: Groups)
    ensures forall i :: 0 <= i < |r| ==> r[i] in options && r[i].1 != []
    ensures IsSubsequence(r, options)
    ensures forall o :: multiset(r)[o] == if o.1 != [] then multiset(options)[o] else 0
  {
    if |options| == 0 then []
    else
      var n := |options| - 1;
      var last := options[n];
      var init := NonEmptyGroups(options[..n]);
      SubsequenceSnoc(init, options[..n], last, last.1 != []);
      assert options[..n] + [last] == options;
      var r := if last.1 == [] then init else init + [last];
      KeptCountsSnoc(options, init, r);
      r
  }

  /** The counts NonEmptyGroups promises carry over from the options
      without their last entry to the whole options. */
  lemma KeptCountsSnoc(options: Options, init: Groups, r: Groups)
    requires |options| > 0
    requires forall o :: multiset(init)[o] == if o.1 != [] then multiset(options[..|options| - 1])[o] else 0
    requires r == if options[|options| - 1].1 == [] then init else init + [options[|options| - 1]]
    ensures forall o :: multiset(r)[o] == if o.1 != [] then multiset(options)[o] else 0
  {
    var n := |options| - 1;
    var last := options[n];
    assert options == options[..n] + [last];
    assert multiset(options) == multiset(options[..n]) + multiset{last};
    assert multiset(init + [last]) == multiset(init) + multiset{last};
  }

  /** With distinct qualities, the last quality has no group among the
      earlier ones. */
  lemma LastQualityIsNew(options: Options)
    requires |options| > 0 && DistinctQualities(options)
    ensures var groups := NonEmptyGroups(options[..|options| - 1]);
            forall i :: 0 <= i < |groups| ==> groups[i].0 != options[|options| - 1].0
  {
    var n := |options| - 1;
    var init := options[..n];
    var groups := NonEmptyGroups(init);
    forall i | 0 <= i < |groups|
      ensures groups[i].0 != options[n].0
    {
      var j :| 0 <= j < |init| && init[j] == groups[i];
      assert options[j] == init[j];
    }
  }

  /** Regrouping the flattened links by the first word of their labels gives
      back every quality that has URLs, in order, with its URLs in order —
      when no quality contains a space (object keys are distinct anyway). */
  lemma {:induction false} RegroupRecoversOptions(options: Options)
    requires DistinctQualities(options) && NoSpaceInQualities(options)
    ensures Grouped(Flattened(options)) == NonEmptyGroups(options)
    decreases |options|
  {
    if |options| > 0 {
      var n := |options| - 1;
      var init := options[..n];
      var last := options[n];
      assert DistinctQualities(init) && NoSpaceInQualities(init);
      RegroupRecoversOptions(init);
      var earlier := Keyed(Flattened(init));
      var groups := NonEmptyGroups(init);
      assert GroupedFrom([], earlier) == groups;
      KeyedAppend(Flattened(init), LinksOf(last.0, last.1));
      KeyedLinksOf(last.0, last.1);
      GroupedFromAppend([], earlier, Tagged(last.0, last.1));
      assert Grouped(Flattened(options)) == GroupedFrom(groups, Tagged(last.0, last.1));
      if last.1 == [] {
        assert Tagged(last.0, last.1) == [];
      } else {
        LastQualityIsNew(options);
        GroupedTagged(groups, last.0, last.1);
      }
    }
  }

  /** What the by-title lookup answered. */
  datatype DownloadResponse =
    | LookupFailed                                 // fetch or response.json() rejects
    | Found(downloadOptions: Option<Options>)      // None: no (or a falsy) downloadOptions

  // ---------------------------------------------------------------------
  // The page's state

  class FilmDetailPage {
    var film: Option<map<string, JsValue>>
    var loading: bool
    var error: Option<string>
    var downloadLinks: seq<Link>
    var downloadLoading: bool

    constructor ()
      ensures film == None && loading && error == None
      ensures downloadLinks == [] && !downloadLoading
    {
      film := None;
      loading := true;
      error := None;
      downloadLinks := [];
      downloadLoading := false;
    }

    /** fetchFilm once answered: `Response === "False"` or a failed request
        sets the error and keeps the film; any other answer sets the film and
        keeps the error. Loading ends either way. */
    method FetchFilm(response: MetadataResponse)
      modifies this`film, this`error, this`loading
      ensures !loading
      ensures response.Failed? ==> error == Some(response.message) && film == old(film)
      ensures response.Answer? && Get(Obj(response.data), "Response") == Str("False") ==>
                error == Some(ErrorMessage(response.data)) && film == old(film)
      ensures response.Answer? && Get(Obj(response.data), "Response") != Str("False") ==>
                film == Some(response.data) && error == old(error)
    {
      match response {
        case Failed(message) =>
          error := Some(message);
          loading := false;
        case Answer(data) =>
          if Get(Obj(data), "Response") == Str("False") {
            error := Some(ErrorMessage(data));
            loading := false;
          } else {
            film := Some(data);
            loading := false;
          }
      }
    }

    /** The effect on `film`: nothing happens while there is no film; then
        the links are the flattened options, or none when the API
        configuration is missing, the lookup fails or has no options.
        downloadLoading ends false. */
    method DownloadEffect(configured: bool, response: DownloadResponse)
      modifies this`downloadLinks, this`downloadLoading
      ensures film.None? ==>
                downloadLinks == old(downloadLinks) && downloadLoading == old(downloadLoading)
      ensures film.Some? ==>
                !downloadLoading &&
                downloadLinks == if configured && response.Found? && response.downloadOptions.Some?
                                 then Flattened(response.downloadOptions.value) else []
    {
      if film.Some? {
        downloadLoading := true;
        if !configured {
          downloadLinks := [];
        } else if response.LookupFailed? {
          downloadLinks := [];
        } else {
          var links := [];
          if response.downloadOptions.Some? {
            links := FlattenOptions(response.downloadOptions.value);
          }
          downloadLinks := links;
        }
        downloadLoading := false;
      }
    }
  }
}
