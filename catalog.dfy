/**
 * The catalog client: the paginated card search and the count check.
 *
 * A GET is abstract. The search is given `pages`, the responses the catalog
 * gives to the successive page requests of one search: the k-th request
 * receives pages[k]. A response ends the search when it is an error (the
 * fetch throws) or names no next page.
 */
module Catalog {
  import opened Scryfall

  const SCRYFALL_API_BASE: string := "https://api.scryfall.com"

  /** The endpoint of one set's metadata. */
  function SetUrl(setCode: string): string
  {
    SCRYFALL_API_BASE + "/sets/" + setCode
  }

  /** The first page of the search for every printing in a set, in set order. */
  function SearchUrl(setCode: string): string
  {
    SCRYFALL_API_BASE + "/cards/search?q=set:" + setCode + "&unique=prints&order=set"
  }

  /** `while (nextPageUrl)` stops after this response, or the fetch threw. */
  predicate EndsSearch(response: FetchResult<SearchPage>)
  {
    response.Err? || Falsy(response.value.nextPage)
  }

  /** The catalog's pagination ends: some response in the chain is the last. */
  predicate Terminates(pages: seq<FetchResult<SearchPage>>)
  {
    exists k :: 0 <= k < |pages| && EndsSearch(pages[k])
  }

  /** The index of the response that ends the search. */
  function LastFetched(pages: seq<FetchResult<SearchPage>>): (n: nat)
    requires Terminates(pages)
    ensures n < |pages| && EndsSearch(pages[n])
    ensures forall j :: 0 <= j < n ==> !EndsSearch(pages[j])
  {
    if EndsSearch(pages[0]) then 0
    else
      assert Terminates(pages[1..]) by {
        var k :| 0 <= k < |pages| && EndsSearch(pages[k]);
        assert k > 0 && EndsSearch(pages[1..][k - 1]);
      }
      1 + LastFetched(pages[1..])
  }

  /** The cards a response contributes: its data, or nothing for an error. */
  function DataOf(response: FetchResult<SearchPage>): seq<ScryfallCard>
  {
    if response.Ok? then response.value.data else []
  }

  /** The cards of the responses, concatenated in order. */
  function Concat(responses: seq<FetchResult<SearchPage>>): seq<ScryfallCard>
  {
    if responses == [] then []
    else Concat(responses[..|responses| - 1]) + DataOf(responses[|responses| - 1])
  }

  /** Total number of cards carried by the responses. */
  function CardTotal(responses: seq<FetchResult<SearchPage>>): nat
  {
    if responses == [] then 0 else |DataOf(responses[0])| + CardTotal(responses[1..])
  }

  lemma {:induction false} ConcatCons(responses: seq<FetchResult<SearchPage>>)
    requires responses != []
    ensures Concat(responses) == DataOf(responses[0]) + Concat(responses[1..])
  {
    if |responses| > 1 {
      var init := responses[..|responses| - 1];
      assert init[1..] == responses[1..][..|responses[1..]| - 1];
      ConcatCons(init);
    }
  }

  /** The concatenation holds as many cards as the pages carry together. */
  lemma {:induction false} ConcatLength(responses: seq<FetchResult<SearchPage>>)
    ensures |Concat(responses)| == CardTotal(responses)
  {
    if responses != [] {
      ConcatCons(responses);
      ConcatLength(responses[1..]);
    }
  }

  /**
   * searchCardsInSet, as a value: the error of the response that ended the
   * search, or the concatenation of every fetched page's cards in fetch order.
   */
  function Paginate(pages: seq<FetchResult<SearchPage>>): (r: FetchResult<seq<ScryfallCard>>)
    requires Terminates(pages)
  {
    var n := LastFetched(pages);
    if pages[n].Err? then Err(pages[n].error) else Ok(Concat(pages[..n + 1]))
  }

  /**
   * The URLs the search requests: the search URL, then each fetched page's
   * next-page link, one per request, up to the response that ends it.
   */
  function RequestedUrls(setCode: string, pages: seq<FetchResult<SearchPage>>): (urls: seq<string>)
    requires Terminates(pages)
    ensures |urls| == LastFetched(pages) + 1
    ensures urls[0] == SearchUrl(setCode)
    ensures forall k :: 0 < k < |urls| ==> pages[k - 1].Ok? && pages[k - 1].value.nextPage == Some(urls[k])
  {
    var n := LastFetched(pages);
    [SearchUrl(setCode)] + seq(n, j requires 0 <= j < n => pages[j].value.nextPage.value)
  }

  /** One more fetched page appends its cards. */
  lemma ConcatStep(pages: seq<FetchResult<SearchPage>>, i: nat)
    requires i < |pages|
    ensures Concat(pages[..i + 1]) == Concat(pages[..i]) + DataOf(pages[i])
  {
    assert pages[..i + 1][..i] == pages[..i];
  }

  /** One more request appends the URL it was sent to. */
  lemma RequestedStep(setCode: string, pages: seq<FetchResult<SearchPage>>, i: nat)
    requires Terminates(pages) && i <= LastFetched(pages)
    ensures var urls := RequestedUrls(setCode, pages);
            urls[..i + 1] == urls[..i] + [urls[i]]
  {
  }

  /**
   * searchCardsInSet: follows next-page links, one rate-limited fetch per
   * iteration, appending each page's cards; a failing fetch discards what
   * was gathered and propagates the catalog's error.
   */
  method SearchCardsInSet(setCode: string, pages: seq<FetchResult<SearchPage>>)
    returns (r: FetchResult<seq<ScryfallCard>>, requested: seq<string>)
    requires Terminates(pages)
    ensures r == Paginate(pages)
    ensures requested == RequestedUrls(setCode, pages)
  {
    ghost var n := LastFetched(pages);
    ghost var urls := RequestedUrls(setCode, pages);
    var cards: seq<ScryfallCard> := [];
    var nextPageUrl: Option<string> := Some(SearchUrl(setCode));
    var i := 0;
    requested := [];
    while !Falsy(nextPageUrl)
      invariant 0 <= i <= n + 1
      invariant i <= n ==> nextPageUrl == Some(urls[i])
      invariant i > 0 ==> pages[i - 1].Ok?
      invariant i == n + 1 ==> Falsy(nextPageUrl)
      invariant cards == Concat(pages[..i])
      invariant requested == urls[..i]
      decreases n + 1 - i
    {
      var response := pages[i];
      RequestedStep(setCode, pages, i);
      requested := requested + [nextPageUrl.value];
      if response.Err? {
        assert i == n;
        return Err(response.error), requested;
      }
      ConcatStep(pages, i);
      cards := cards + response.value.data;
      nextPageUrl := response.value.nextPage;
      i := i + 1;
    }
    assert i == n + 1 && urls[..i] == urls;
    r := Ok(cards);
  }

  /** The search result holds exactly the cards of every page fetched. */
  lemma PaginateCount(pages: seq<FetchResult<SearchPage>>)
    requires Terminates(pages)
    ensures Paginate(pages).Ok? ==> |Paginate(pages).value| == CardTotal(pages[..LastFetched(pages) + 1])
  {
    ConcatLength(pages[..LastFetched(pages) + 1]);
  }

  /**
   * Pages behind the one that ends the search are never requested: the
   * result depends only on the chain up to it.
   */
  lemma PaginateStopsAtEnd(pages: seq<FetchResult<SearchPage>>, later: seq<FetchResult<SearchPage>>)
    requires Terminates(pages)
    ensures Terminates(pages[..LastFetched(pages) + 1] + later)
    ensures Paginate(pages[..LastFetched(pages) + 1] + later) == Paginate(pages)
  {
    var n := LastFetched(pages);
    var cut := pages[..n + 1] + later;
    assert EndsSearch(cut[n]);
    assert forall j :: 0 <= j < n ==> cut[j] == pages[j];
    assert cut[..n + 1] == pages[..n + 1];
  }

  /**
   * The loop read as a recursion: a page with a next link contributes its
   * cards in front of whatever the rest of the chain yields.
   */
  lemma PaginateUnfold(pages: seq<FetchResult<SearchPage>>)
    requires Terminates(pages) && !EndsSearch(pages[0])
    ensures Terminates(pages[1..])
    ensures Paginate(pages) == match Paginate(pages[1..])
                               case Err(e) => Err(e)
                               case Ok(rest) => Ok(pages[0].value.data + rest)
  {
    var n := LastFetched(pages);
    assert LastFetched(pages[1..]) == n - 1;
    assert pages[..n + 1][1..] == pages[1..][..n];
    ConcatCons(pages[..n + 1]);
  }

  /**
   * validateSetImport, given the answer to its own metadata request: a
   * failed request propagates; otherwise true exactly when the declared
   * count equals the number of fetched cards.
   */
  function ValidateSetImport(fetchedCards: seq<ScryfallCard>, metadata: FetchResult<ScryfallSet>)
    : (r: FetchResult<bool>)
    ensures metadata.Err? ==> r == Err(metadata.error)
    ensures metadata.Ok? ==> r.Ok? && (r.value <==> metadata.value.cardCount == |fetchedCards|)
  {
    match metadata
    case Err(e) => Err(e)
    case Ok(setMetadata) => Ok(setMetadata.cardCount == |fetchedCards|)
  }
}
