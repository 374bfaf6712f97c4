/**
 * `searchTavily`: the request options with their defaults, and the merge of the
 * text results and the images of a response into one result list. The Tavily
 * client's `search` call is the oracle `search`; a failure is what it throws.
 */
module Tavily {
  import opened Wrappers

  /** The caller's options; `None` is an option left unset. */
  datatype SearchOptions = SearchOptions(
    topic: Option<string>,
    includeDomains: Option<seq<string>>,
    excludeDomains: Option<seq<string>>,
    includeImages: Option<bool>,
    maxResults: Option<int>,
    searchDepth: Option<string>)

  const NoOptions := SearchOptions(None, None, None, None, None, None)

  /** What the client is asked for. */
  datatype SearchRequest = SearchRequest(
    searchDepth: string,
    topic: string,
    maxResults: int,
    includeDomains: Option<seq<string>>,
    excludeDomains: Option<seq<string>>,
    includeImages: bool)

  /** The parts of a response the merge reads. */
  datatype TavilyResult = TavilyResult(title: string, url: string, content: string)

  datatype TavilyImage = TavilyImage(url: string, description: Option<string>)

  datatype TavilyResponse = TavilyResponse(results: seq<TavilyResult>, images: Option<seq<TavilyImage>>)

  /** One merged result; text results carry no image source. */
  datatype ResultItem = ResultItem(title: string, url: string, imgSrc: Option<string>, content: string)

  datatype SearchOutput = SearchOutput(results: seq<ResultItem>, suggestions: seq<string>)

  type SearchClient = (string, SearchRequest) -> Result<TavilyResponse, string>

  const DefaultDepth := "basic"

  const DefaultTopic := "general"

  const DefaultMaxResults := 10

  /** The request: `??` fills each unset option (an explicit `0` or `false` is kept), and the
      domain lists pass through as given. */
  function RequestOf(opts: Option<SearchOptions>): (r: SearchRequest)
    ensures opts.None? ==> r == SearchRequest(DefaultDepth, DefaultTopic, DefaultMaxResults, None, None, false)
    ensures opts.Some? ==> r.searchDepth == opts.value.searchDepth.GetOr(DefaultDepth)
    ensures opts.Some? ==> r.topic == opts.value.topic.GetOr(DefaultTopic)
    ensures opts.Some? ==> r.maxResults == opts.value.maxResults.GetOr(DefaultMaxResults)
    ensures opts.Some? ==> r.includeImages == opts.value.includeImages.GetOr(false)
    ensures opts.Some? ==> r.includeDomains == opts.value.includeDomains
    ensures opts.Some? ==> r.excludeDomains == opts.value.excludeDomains
  {
    var o := opts.GetOr(NoOptions);
    SearchRequest(o.searchDepth.GetOr(DefaultDepth), o.topic.GetOr(DefaultTopic), o.maxResults.GetOr(DefaultMaxResults),
                  o.includeDomains, o.excludeDomains, o.includeImages.GetOr(false))
  }

  /** Options that set nothing ask for what no options ask for. */
  lemma EmptyOptionsAreDefaults()
    ensures RequestOf(Some(NoOptions)) == RequestOf(None)
  {
  }

  /** A text result as merged: title, url and content, no image. */
  function FromResult(r: TavilyResult): ResultItem {
    ResultItem(r.title, r.url, None, r.content)
  }

  /** An image as merged: its description (or `''`) as title and content, its URL twice. */
  function FromImage(img: TavilyImage): ResultItem {
    var text := if img.description.Some? && img.description.value != "" then img.description.value else "";
    ResultItem(text, img.url, Some(img.url), text)
  }

  /** The merged list: the text results, then the images of the response. */
  function Merged(response: TavilyResponse): (r: seq<ResultItem>)
  {
    TextItems(response.results) + ImageItems(response.images.GetOr([]))
  }

  function TextItems(results: seq<TavilyResult>): (r: seq<ResultItem>)
    ensures |r| == |results|
  {
    seq(|results|, i requires 0 <= i < |results| => FromResult(results[i]))
  }

  function ImageItems(images: seq<TavilyImage>): (r: seq<ResultItem>)
    ensures |r| == |images|
  {
    if images == [] then [] else ImageItems(images[..|images| - 1]) + [FromImage(images[|images| - 1])]
  }

  /** The merged list holds one entry per text result, in order and with its fields, followed by
      one entry per image, in order, titled and described by the image's description or `''`
      and pointing at the image both as `url` and as `img_src`. */
  lemma {:induction false} MergedLayout(response: TavilyResponse)
    ensures var images := response.images.GetOr([]);
      |Merged(response)| == |response.results| + |images|
    ensures forall i :: 0 <= i < |response.results| ==>
      var item := Merged(response)[i];
      item.title == response.results[i].title && item.url == response.results[i].url
      && item.content == response.results[i].content && item.imgSrc.None?
    ensures forall j :: 0 <= j < |response.images.GetOr([])| ==>
      var img := response.images.GetOr([])[j];
      var item := Merged(response)[|response.results| + j];
      item.url == img.url && item.imgSrc == Some(img.url) && item.title == item.content
      && (img.description.Some? ==> item.title == img.description.value)
      && (img.description.None? ==> item.title == "")
  {
    var images := response.images.GetOr([]);
    ImageItemsAt(images);
  }

  lemma {:induction false} ImageItemsAt(images: seq<TavilyImage>)
    ensures forall j :: 0 <= j < |images| ==> ImageItems(images)[j] == FromImage(images[j])
  {
    if images != [] {
      var n := |images| - 1;
      ImageItemsAt(images[..n]);
      assert forall j :: 0 <= j < n ==> images[..n][j] == images[j];
    }
  }

  /** The image loop: each image is pushed after the results already there. */
  method AppendImages(results: seq<ResultItem>, images: seq<TavilyImage>) returns (r: seq<ResultItem>)
    ensures r == results + ImageItems(images)
  {
    r := results;
    var i := 0;
    while i < |images|
      invariant 0 <= i <= |images|
      invariant r == results + ImageItems(images[..i])
    {
      assert images[..i + 1][..i] == images[..i];
      r := r + [FromImage(images[i])];
      i := i + 1;
    }
    assert images[..i] == images;
  }

  /** `searchTavily`: a failing search propagates; otherwise the merged list and no suggestions. */
  method SearchTavily(query: string, opts: Option<SearchOptions>, search: SearchClient)
    returns (r: Result<SearchOutput, string>)
    ensures search(query, RequestOf(opts)).Failure? ==> r == Failure(search(query, RequestOf(opts)).error)
    ensures search(query, RequestOf(opts)).Success? ==>
      r == Success(SearchOutput(Merged(search(query, RequestOf(opts)).value), []))
  {
    var response := search(query, RequestOf(opts));
    if response.Failure? {
      return Failure(response.error);
    }
    var rs := response.value.results;
    var results := TextItems(rs);
    if response.value.images.Some? && |response.value.images.value| > 0 {
      results := AppendImages(results, response.value.images.value);
    } else {
      assert ImageItems(response.value.images.GetOr([])) == [];
      assert results + [] == results;
    }
    r := Success(SearchOutput(results, []));
  }
}
