/**
 * `searchVideos`: the YouTube video id in a result URL (the leftmost match of
 * `(?:v=|\/shorts\/|youtu\.be\/)([a-zA-Z0-9_-]{11})`), the video card built
 * from it, and the first ten cards of a YouTube-only Tavily search. The rewritten
 * search query, which the source obtains from the LLM, is an input.
 */
module Video {
  import opened Wrappers
  import Tavily

  /** `[a-zA-Z0-9_-]`. */
  predicate IdChar(c: char) {
    ('a' <= c <= 'z') || ('A' <= c <= 'Z') || ('0' <= c <= '9') || c == '_' || c == '-'
  }

  const IdLength := 11

  predicate IsId(t: string) {
    |t| == IdLength && forall i :: 0 <= i < |t| ==> IdChar(t[i])
  }

  /** The three alternatives of the group, in the order the expression tries them. */
  const Markers: seq<string> := ["v=", "/shorts/", "youtu.be/"]

  /** The id captured when `marker` starts at position `p` of `s`. */
  function MarkerMatch(s: string, p: nat, marker: string): (r: Option<string>)
    requires p <= |s|
    ensures r.Some? ==> IsId(r.value)
    ensures r.Some? <==> p + |marker| + IdLength <= |s| && s[p..p + |marker|] == marker
                         && IsId(s[p + |marker|..p + |marker| + IdLength])
  {
    var start := p + |marker|;
    if start + IdLength <= |s| && s[p..start] == marker && IsId(s[start..start + IdLength])
    then Some(s[start..start + IdLength])
    else None
  }

  /** The match of the expression starting exactly at position `p`. */
  function MatchAt(s: string, p: nat): (r: Option<string>)
    requires p <= |s|
    ensures r.Some? ==> IsId(r.value)
  {
    var v := MarkerMatch(s, p, Markers[0]);
    if v.Some? then v
    else
      var shorts := MarkerMatch(s, p, Markers[1]);
      if shorts.Some? then shorts else MarkerMatch(s, p, Markers[2])
  }

  /** The first match at position `p` or later. */
  function FirstMatchFrom(s: string, p: nat): (r: Option<string>)
    requires p <= |s|
    ensures r.Some? ==> IsId(r.value)
    decreases |s| - p
  {
    var here := MatchAt(s, p);
    if here.Some? || p == |s| then here else FirstMatchFrom(s, p + 1)
  }

  /** `url.match(...)?.[1]`: the captured id of the leftmost match, if any. */
  function ExtractVideoId(url: string): (r: Option<string>)
    ensures r.Some? ==> IsId(r.value)
  {
    FirstMatchFrom(url, 0)
  }

  /** `q` is the leftmost position where the expression matches. */
  predicate LeftmostAt(s: string, q: nat) {
    q <= |s| && MatchAt(s, q).Some? && forall k :: 0 <= k < q ==> MatchAt(s, k).None?
  }

  lemma {:induction false} FirstMatchFromLeftmost(s: string, p: nat, q: nat)
    requires p <= q <= |s|
    requires MatchAt(s, q).Some?
    requires forall k :: p <= k < q ==> MatchAt(s, k).None?
    ensures FirstMatchFrom(s, p) == MatchAt(s, q)
    decreases q - p
  {
    if p < q {
      FirstMatchFromLeftmost(s, p + 1, q);
    }
  }

  lemma {:induction false} FirstMatchFromNone(s: string, p: nat)
    requires p <= |s|
    ensures FirstMatchFrom(s, p).None? <==> forall k :: p <= k <= |s| ==> MatchAt(s, k).None?
    decreases |s| - p
  {
    if p < |s| {
      FirstMatchFromNone(s, p + 1);
    }
  }

  /** The extracted id is the one captured at the leftmost matching position. */
  lemma LeftmostDecides(s: string, q: nat)
    requires LeftmostAt(s, q)
    ensures ExtractVideoId(s) == MatchAt(s, q)
  {
    FirstMatchFromLeftmost(s, 0, q);
  }

  /** No id is extracted exactly when the expression matches nowhere in the URL. */
  lemma NoMatchNoId(s: string)
    ensures ExtractVideoId(s).None? <==> forall k :: 0 <= k <= |s| ==> MatchAt(s, k).None?
  {
    FirstMatchFromNone(s, 0);
  }

  /** No alternative can start on a character other than `v`, `/` or `y`. */
  lemma NoMatchOnOtherChar(s: string, k: nat)
    requires k < |s| && s[k] != 'v' && s[k] != '/' && s[k] != 'y'
    ensures MatchAt(s, k).None?
  {
    forall m | m in Markers
      ensures MarkerMatch(s, k, m).None?
    {
      assert m[0] == 'v' || m[0] == '/' || m[0] == 'y';
      assert k + |m| > |s| || s[k..k + |m|][0] != m[0];
    }
  }

  /** Round trip: behind a lead-in with no `v`, `/` or `y` (such as `watch?`), any of the three
      markers followed by an id yields exactly that id, whatever follows it. */
  lemma ExtractAfterMarker(lead: string, marker: string, id: string, rest: string)
    requires forall i :: 0 <= i < |lead| ==> lead[i] != 'v' && lead[i] != '/' && lead[i] != 'y'
    requires marker in Markers && IsId(id)
    ensures ExtractVideoId(lead + marker + id + rest) == Some(id)
  {
    var s := lead + marker + id + rest;
    var q := |lead|;
    forall k | 0 <= k < q
      ensures MatchAt(s, k).None?
    {
      assert s[k] == lead[k];
      NoMatchOnOtherChar(s, k);
    }
    assert s[q..q + |marker|] == marker;
    assert s[q + |marker|..q + |marker| + IdLength] == id;
    assert MarkerMatch(s, q, marker) == Some(id);
    if marker == Markers[1] {
      assert MarkerMatch(s, q, Markers[0]).None? by { assert s[q] == '/'; }
    } else if marker == Markers[2] {
      assert MarkerMatch(s, q, Markers[0]).None? by { assert s[q] == 'y'; }
      assert MarkerMatch(s, q, Markers[1]).None? by { assert s[q] == 'y'; }
    }
    LeftmostDecides(s, q);
  }

  /** A video card. */
  datatype VideoResult = VideoResult(imgSrc: string, url: string, title: string, iframeSrc: string)

  const ThumbnailPrefix := "https://img.youtube.com/vi/"

  const ThumbnailSuffix := "/mqdefault.jpg"

  const EmbedPrefix := "https://www.youtube.com/embed/"

  /** The card of a result whose URL and title are non-empty and whose URL carries an id. */
  function VideoOf(item: Tavily.ResultItem): (r: Option<VideoResult>)
    ensures r.Some? <==> item.url != "" && item.title != "" && ExtractVideoId(item.url).Some?
  {
    if item.url != "" && item.title != "" then
      match ExtractVideoId(item.url)
      case Some(id) => Some(VideoResult(ThumbnailPrefix + id + ThumbnailSuffix, item.url, item.title, EmbedPrefix + id))
      case None => None
    else None
  }

  /** A card keeps its result's URL and title, and both of its links carry the 11-character
      id extracted from that URL, which can be read back from the embed link. */
  lemma CardLinks(item: Tavily.ResultItem)
    requires VideoOf(item).Some?
    ensures var v := VideoOf(item).value; var id := ExtractVideoId(item.url).value;
      v.url == item.url && v.title == item.title && IsId(id)
      && v.imgSrc == ThumbnailPrefix + id + ThumbnailSuffix
      && v.iframeSrc == EmbedPrefix + id
      && v.iframeSrc[|EmbedPrefix|..] == id
  {
  }

  /** The cards of the `forEach`, in result order. */
  function Videos(items: seq<Tavily.ResultItem>): (r: seq<VideoResult>)
    ensures |r| <= |items|
  {
    if items == [] then []
    else
      var last := VideoOf(items[|items| - 1]);
      Videos(items[..|items| - 1]) + (if last.Some? then [last.value] else [])
  }

  /** The cards of two stretches of results are the cards of each, in order. */
  lemma {:induction false} VideosAppend(a: seq<Tavily.ResultItem>, b: seq<Tavily.ResultItem>)
    ensures Videos(a + b) == Videos(a) + Videos(b)
    decreases |b|
  {
    if b != [] {
      var n := |b| - 1;
      assert (a + b)[..|a + b| - 1] == a + b[..n];
      assert (a + b)[|a + b| - 1] == b[n];
      VideosAppend(a, b[..n]);
    } else {
      assert a + b == a;
    }
  }

  /** Every card comes from a result that yields it, and every result that yields a card
      contributes it. */
  lemma {:induction false} VideosExact(items: seq<Tavily.ResultItem>)
    ensures forall v :: v in Videos(items) ==> exists i :: 0 <= i < |items| && VideoOf(items[i]) == Some(v)
    ensures forall i :: 0 <= i < |items| && VideoOf(items[i]).Some? ==> VideoOf(items[i]).value in Videos(items)
  {
    if items != [] {
      var n := |items| - 1;
      var init := items[..n];
      VideosExact(init);
      forall v | v in Videos(items)
        ensures exists i :: 0 <= i < |items| && VideoOf(items[i]) == Some(v)
      {
        if v in Videos(init) {
          var i :| 0 <= i < |init| && VideoOf(init[i]) == Some(v);
          assert items[i] == init[i];
        } else {
          assert VideoOf(items[n]) == Some(v);
        }
      }
      forall i | 0 <= i < |items| && VideoOf(items[i]).Some?
        ensures VideoOf(items[i]).value in Videos(items)
      {
        if i < n {
          assert items[i] == init[i];
        }
      }
    }
  }

  /** The loop over the search results. */
  method CollectVideos(items: seq<Tavily.ResultItem>) returns (videos: seq<VideoResult>)
    ensures videos == Videos(items)
  {
    videos := [];
    var i := 0;
    while i < |items|
      invariant 0 <= i <= |items|
      invariant videos == Videos(items[..i])
    {
      assert items[..i + 1][..i] == items[..i];
      var item := items[i];
      if item.url != "" && item.title != "" {
        var id := ExtractVideoId(item.url);
        if id.Some? {
          videos := videos + [VideoResult(ThumbnailPrefix + id.value + ThumbnailSuffix, item.url, item.title, EmbedPrefix + id.value)];
        }
      }
      i := i + 1;
    }
    assert items[..i] == items;
  }

  const MaxVideos := 10

  /** `slice(0, 10)`. */
  function FirstVideos(videos: seq<VideoResult>): (r: seq<VideoResult>)
    ensures |r| <= MaxVideos && |r| <= |videos|
    ensures |videos| <= MaxVideos ==> r == videos
    ensures forall i :: 0 <= i < |r| ==> r[i] == videos[i]
  {
    if |videos| <= MaxVideos then videos else videos[..MaxVideos]
  }

  /** The search asks Tavily for YouTube only and leaves every other option unset. */
  const YoutubeOnly := Tavily.NoOptions.(includeDomains := Some(["youtube.com"]))

  lemma YoutubeRequest()
    ensures Tavily.RequestOf(Some(YoutubeOnly))
      == Tavily.SearchRequest("basic", "general", 10, Some(["youtube.com"]), None, false)
  {
  }

  /** The outcome `searchVideos` promises: a failed rewrite or search propagates; otherwise
      the first ten cards of the merged results. */
  function VideoSearch(rewritten: Result<string, string>, search: Tavily.SearchClient): (r: Result<seq<VideoResult>, string>)
  {
    if rewritten.Failure? then Failure(rewritten.error)
    else
      var response := search(rewritten.value, Tavily.RequestOf(Some(YoutubeOnly)));
      if response.Failure? then Failure(response.error)
      else Success(FirstVideos(Videos(Tavily.Merged(response.value))))
  }

  /** At most ten cards, each built from one merged search result, in result order: the
      outcome is the start of the full card list and holds all of it when it has ten or fewer. */
  lemma VideoSearchSound(rewritten: Result<string, string>, search: Tavily.SearchClient)
    requires VideoSearch(rewritten, search).Success?
    ensures var cards := VideoSearch(rewritten, search).value;
      var all := Videos(Tavily.Merged(search(rewritten.value, Tavily.RequestOf(Some(YoutubeOnly))).value));
      |cards| <= MaxVideos && cards == all[..|cards|] && (|all| <= MaxVideos ==> cards == all)
      && forall v :: v in cards ==> v in all
  {
  }

  /** `searchVideos` with the LLM's rewritten query as input. */
  method SearchVideos(rewritten: Result<string, string>, search: Tavily.SearchClient)
    returns (r: Result<seq<VideoResult>, string>)
    ensures r == VideoSearch(rewritten, search)
  {
    if rewritten.Failure? {
      return Failure(rewritten.error);
    }
    var searched := Tavily.SearchTavily(rewritten.value, Some(YoutubeOnly), search);
    if searched.Failure? {
      return Failure(searched.error);
    }
    var videos := CollectVideos(searched.value.results);
    r := Success(FirstVideos(videos));
  }
}
