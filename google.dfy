/**
 * The search-API worker `EmailScraper` (app.py:12-108): it walks the result
 * pages of a Google search through the search API, harvests addresses from
 * each result's snippet, from the page the result links to and from the
 * API's own copy of that page, and can be stopped from the window through a
 * flag it checks between steps.
 *
 * The network is a fixed function of the request: a search page and the
 * API's page copy are looked up by request URL, a page fetch by the page's
 * URL. A reply that raised (a failed request or a body that is not JSON) is
 * `Raised` or `None`.
 */
module GoogleScraper {
  import opened Optional
  import opened Pattern
  import opened Extraction
  import opened Signals

  /** One entry of the reply's `organic_results`, with its optional `link` and `snippet`. */
  datatype OrganicResult = OrganicResult(link: Option<string>, snippet: Option<string>)

  /** A search reply: `organic_results` if present, and `serpapi_pagination.next` if present. */
  datatype SearchReply =
    | Raised
    | Page(organic: Option<seq<OrganicResult>>, next: Option<string>)

  datatype Network = Network(
    search: string -> SearchReply,
    fetch: string -> Option<string>,
    enrich: string -> Option<string>)

  /** The first search request (app.py:53). */
  function StartUrl(query: string, apiKey: string): string {
    "https://serpapi.com/search?engine=google&q=" + query + "&api_key=" + apiKey + "&num=100"
  }

  /** The request for the search API's copy of a result page (app.py:87). */
  function ProviderUrl(query: string, apiKey: string, site: string): string {
    "https://serpapi.com/search?engine=google&q=" + query + "&api_key=" + apiKey + "&fetch_page=" + site
  }

  /** Python truthiness of `url`: present and not empty. */
  predicate Live(url: Option<string>) {
    url.Some? && url.value != ""
  }

  /** The page link that follows `url`; none when `url` is dead or its request raised. */
  function NextUrl(net: Network, url: Option<string>): Option<string> {
    if !Live(url) then None
    else match net.search(url.value)
      case Raised => None
      case Page(_, next) => next
  }

  /** The `k`-th URL of the pagination chain that starts at `start`. */
  function CrawlUrl(net: Network, start: string, k: nat): Option<string> {
    if k == 0 then Some(start) else NextUrl(net, CrawlUrl(net, start, k - 1))
  }

  /** The chain of `next` links ends. */
  ghost predicate PaginationEnds(net: Network, start: string) {
    exists n: nat :: !Live(CrawlUrl(net, start, n))
  }

  /** `pages` are the first links of the pagination chain, in order. */
  predicate Followed(net: Network, start: string, pages: seq<string>)
    decreases |pages|
  {
    pages == [] || (Followed(net, start, pages[..|pages| - 1]) && CrawlUrl(net, start, |pages| - 1) == Some(pages[|pages| - 1]))
  }

  lemma FollowedSnoc(net: Network, start: string, pages: seq<string>, page: string)
    requires Followed(net, start, pages) && CrawlUrl(net, start, |pages|) == Some(page)
    ensures Followed(net, start, pages + [page])
  {
    assert (pages + [page])[..|pages|] == pages;
  }

  /** `Followed` says exactly that the `k`-th page is the `k`-th link of the chain, for every `k`. */
  lemma {:induction false} FollowedIsChain(net: Network, start: string, pages: seq<string>)
    ensures Followed(net, start, pages) <==> forall k :: 0 <= k < |pages| ==> CrawlUrl(net, start, k) == Some(pages[k])
    decreases |pages|
  {
    if pages != [] {
      var init := pages[..|pages| - 1];
      FollowedIsChain(net, start, init);
      assert forall k :: 0 <= k < |init| ==> init[k] == pages[k];
    }
  }

  /** Once the chain has ended it stays ended. */
  lemma {:induction false} DeadStaysDead(net: Network, start: string, n: nat, k: nat)
    requires n <= k && !Live(CrawlUrl(net, start, n))
    ensures CrawlUrl(net, start, k) == None || k == n
    decreases k - n
  {
    if n < k {
      DeadStaysDead(net, start, n, k - 1);
    }
  }

  /** Every live link of the chain comes before its end. */
  lemma LiveBeforeEnd(net: Network, start: string, n: nat, k: nat)
    requires !Live(CrawlUrl(net, start, n)) && Live(CrawlUrl(net, start, k))
    ensures k < n
  {
    if n <= k {
      DeadStaysDead(net, start, n, k);
    }
  }

  /** The first index at which the chain has ended. */
  ghost function ChainEnd(net: Network, start: string): (n: nat)
    requires PaginationEnds(net, start)
    ensures !Live(CrawlUrl(net, start, n))
  {
    var n :| !Live(CrawlUrl(net, start, n)); n
  }

  /** `result.get("link", "No Source")` (app.py:67). */
  function Site(r: OrganicResult): string {
    r.link.GetOr(NoSource)
  }

  /** The fetched body of a linked page, when the fetch succeeded and the body is not empty (app.py:80-81). */
  function PageTexts(net: Network, site: string): seq<string> {
    FetchedTexts(net.fetch(site))
  }

  /** The search API's copy of a linked page, when that request succeeded (app.py:87-89). */
  function CopyTexts(net: Network, query: string, apiKey: string, site: string): seq<string> {
    var copy := net.enrich(ProviderUrl(query, apiKey, site));
    if copy.Some? then [copy.value] else []
  }

  /** The texts of a result's linked page that are scanned, in order (app.py:80-91). */
  function LinkedTexts(net: Network, query: string, apiKey: string, site: string): seq<string> {
    PageTexts(net, site) + CopyTexts(net, query, apiKey, site)
  }

  /** The texts one result is scanned for: its snippet, then its linked page's texts unless it has no link (app.py:67-91). */
  function ScannedTexts(net: Network, query: string, apiKey: string, r: OrganicResult): seq<string> {
    [r.snippet.GetOr("")] + (if Site(r) != NoSource then LinkedTexts(net, query, apiKey, Site(r)) else [])
  }

  /** The ledger after scanning the results `results` in order, starting from `l`. */
  function ScanAll(l: Ledger, net: Network, query: string, apiKey: string, results: seq<OrganicResult>): Ledger
    decreases |results|
  {
    if results == [] then l
    else
      var r := results[|results| - 1];
      Harvest(ScanAll(l, net, query, apiKey, results[..|results| - 1]), ScannedTexts(net, query, apiKey, r), Site(r))
  }

  /** Scanning one more result extends the ledger by that result's texts. */
  lemma ScanAllStep(l: Ledger, net: Network, query: string, apiKey: string, results: seq<OrganicResult>, i: nat)
    requires i < |results|
    ensures ScanAll(l, net, query, apiKey, results[..i + 1])
         == Harvest(ScanAll(l, net, query, apiKey, results[..i]), ScannedTexts(net, query, apiKey, results[i]), Site(results[i]))
  {
    assert results[..i + 1][..i] == results[..i];
  }

  /**
   * The results a page's loop scans when it starts with the flag up and
   * `tick` reads made (app.py:64-65): all `n` of them, or those before the
   * read the stop request lands at.
   */
  function Scanned(n: nat, tick: nat, stopAt: Option<nat>): nat {
    if StopIn(stopAt, tick, tick + n) then stopAt.value - tick else n
  }

  /** The reads of that loop: one per result scanned, and the one that saw the flag down if it broke. */
  function PageReads(n: nat, tick: nat, stopAt: Option<nat>): nat {
    if StopIn(stopAt, tick, tick + n) then stopAt.value - tick + 1 else n
  }

  /** The reads made while scanning a reply's `organic_results`, if it has them (app.py:62-95). */
  function ReplyReads(reply: SearchReply, tick: nat, stopAt: Option<nat>): nat {
    if reply.Page? && reply.organic.Some? then PageReads(|reply.organic.value|, tick, stopAt) else 0
  }

  /** The collections after scanning a reply's `organic_results`, starting from `l` (app.py:62-95). */
  function ReplyLedger(l: Ledger, net: Network, query: string, apiKey: string, reply: SearchReply, tick: nat, stopAt: Option<nat>): Ledger {
    if reply.Page? && reply.organic.Some? then
      var results := reply.organic.value;
      ScanAll(l, net, query, apiKey, results[..Scanned(|results|, tick, stopAt)])
    else l
  }

  /**
   * The link a turn of the page loop ends with (app.py:98): the reply's
   * `next` when the read after its results sees the flag up, and none after
   * a raised request or a down read.
   */
  function NextLink(reply: SearchReply, tick: nat, stopAt: Option<nat>): Option<string> {
    if reply.Raised? || StopIn(stopAt, tick, tick + ReplyReads(reply, tick, stopAt) + 1) then None
    else reply.next
  }

  /**
   * The reads made by the end of a turn that began after `tick` reads: none
   * for a raised request, otherwise those of the results, the read of
   * app.py:98, and the read of app.py:56 when the link is non-empty.
   */
  function TurnEnd(reply: SearchReply, tick: nat, stopAt: Option<nat>): nat {
    if reply.Raised? then tick
    else tick + ReplyReads(reply, tick, stopAt) + 1 + (if Live(NextLink(reply, tick, stopAt)) then 1 else 0)
  }

  /** What a page loop did: the search pages it requested, the flag reads it made, and the collections it left. */
  datatype Tour = Tour(pages: seq<string>, polls: nat, ledger: Ledger)

  /** The `pages` already requested, then what the rest of the loop does. */
  function Resume(pages: seq<string>, rest: Tour): Tour {
    Tour(pages + rest.pages, rest.polls, rest.ledger)
  }

  /**
   * The page loop can be at the `k`-th link of the chain after `tick` reads,
   * with the flag up: the link is non-empty, the stop request has not
   * landed, and the loop is bound to end.
   */
  ghost predicate Ready(net: Network, start: string, stopAt: Option<nat>, k: nat, tick: nat) {
    && Live(CrawlUrl(net, start, k))
    && (stopAt.Some? ==> tick <= stopAt.value)
    && (stopAt.None? ==> PaginationEnds(net, start))
  }

  /**
   * The rest of the page loop (app.py:56-104) from the `k`-th link of the
   * chain, entered with the flag up after `tick` reads and with the
   * collections `l`.
   */
  ghost function Walk(net: Network, query: string, apiKey: string, stopAt: Option<nat>, k: nat, tick: nat, l: Ledger): Tour
    requires Ready(net, StartUrl(query, apiKey), stopAt, k, tick)
    decreases if stopAt.Some? then stopAt.value - tick else ChainEnd(net, StartUrl(query, apiKey)) - k
  {
    var start := StartUrl(query, apiKey);
    var url := CrawlUrl(net, start, k).value;
    var reply := net.search(url);
    var t := TurnEnd(reply, tick, stopAt);
    var l' := ReplyLedger(l, net, query, apiKey, reply, tick, stopAt);
    if Live(NextLink(reply, tick, stopAt)) && !StopIn(stopAt, tick, t) then
      assert CrawlUrl(net, start, k + 1) == NextLink(reply, tick, stopAt);
      if stopAt.None? then
        LiveBeforeEnd(net, start, ChainEnd(net, start), k + 1);
        Resume([url], Walk(net, query, apiKey, stopAt, k + 1, t, l'))
      else
        Resume([url], Walk(net, query, apiKey, stopAt, k + 1, t, l'))
    else
      Tour([url], t, l')
  }

  /**
   * The page loop of `run` (app.py:53-104) for a flag `wasRunning` at the
   * start and the collections `l`: the read of app.py:56 for the first
   * link, then the turns from there.
   */
  ghost function Crawled(net: Network, query: string, apiKey: string, stopAt: Option<nat>, wasRunning: bool, l: Ledger): Tour
    requires PaginationEnds(net, StartUrl(query, apiKey)) || stopAt.Some?
  {
    if wasRunning && stopAt != Some(0) then
      assert Ready(net, StartUrl(query, apiKey), stopAt, 0, 1);
      Walk(net, query, apiKey, stopAt, 0, 1, l)
    else
      Tour([], 1, l)
  }

  /** A page loop that kept the flag up until the stop request scanned `Scanned` results in `PageReads` reads. */
  lemma PageCount(n: nat, tick: nat, stopAt: Option<nat>, scanned: nat, tick': nat)
    requires scanned <= n && tick' == tick + scanned + (if scanned < n then 1 else 0)
    requires !StopIn(stopAt, tick, tick + scanned)
    requires scanned < n ==> StopIn(stopAt, tick, tick')
    ensures scanned == Scanned(n, tick, stopAt)
    ensures tick' == tick + PageReads(n, tick, stopAt)
  {
  }

  /** A turn after which the loop goes on: what is left is the loop from the next link. */
  lemma WalkGoesOn(net: Network, query: string, apiKey: string, stopAt: Option<nat>, k: nat, tick: nat, l: Ledger,
                   pages: seq<string>, url: string)
    requires Ready(net, StartUrl(query, apiKey), stopAt, k, tick)
    requires CrawlUrl(net, StartUrl(query, apiKey), k) == Some(url)
    requires Live(NextLink(net.search(url), tick, stopAt)) && !StopIn(stopAt, tick, TurnEnd(net.search(url), tick, stopAt))
    ensures Ready(net, StartUrl(query, apiKey), stopAt, k + 1, TurnEnd(net.search(url), tick, stopAt))
    ensures Resume(pages, Walk(net, query, apiKey, stopAt, k, tick, l))
         == Resume(pages + [url], Walk(net, query, apiKey, stopAt, k + 1, TurnEnd(net.search(url), tick, stopAt),
                                       ReplyLedger(l, net, query, apiKey, net.search(url), tick, stopAt)))
  {
    var rest := Walk(net, query, apiKey, stopAt, k + 1, TurnEnd(net.search(url), tick, stopAt),
                     ReplyLedger(l, net, query, apiKey, net.search(url), tick, stopAt));
    AppendAssoc(pages, [url], rest.pages);
  }

  /** A turn after which the loop ends: the turn's page is the last one. */
  lemma WalkStops(net: Network, query: string, apiKey: string, stopAt: Option<nat>, k: nat, tick: nat, l: Ledger,
                  pages: seq<string>, url: string)
    requires Ready(net, StartUrl(query, apiKey), stopAt, k, tick)
    requires CrawlUrl(net, StartUrl(query, apiKey), k) == Some(url)
    requires !Live(NextLink(net.search(url), tick, stopAt)) || StopIn(stopAt, tick, TurnEnd(net.search(url), tick, stopAt))
    ensures Resume(pages, Walk(net, query, apiKey, stopAt, k, tick, l))
         == Tour(pages + [url], TurnEnd(net.search(url), tick, stopAt), ReplyLedger(l, net, query, apiKey, net.search(url), tick, stopAt))
  {
  }

  /** The loop from a link is its turn, then the loop from the next link if that turn goes on. */
  lemma WalkAfterTurn(net: Network, query: string, apiKey: string, stopAt: Option<nat>, k: nat, tick: nat, l: Ledger,
                      pages: seq<string>, url: string)
    requires Ready(net, StartUrl(query, apiKey), stopAt, k, tick)
    requires CrawlUrl(net, StartUrl(query, apiKey), k) == Some(url)
    ensures var reply := net.search(url);
      var t := TurnEnd(reply, tick, stopAt);
      var l' := ReplyLedger(l, net, query, apiKey, reply, tick, stopAt);
      if Live(NextLink(reply, tick, stopAt)) && !StopIn(stopAt, tick, t) then
        && Ready(net, StartUrl(query, apiKey), stopAt, k + 1, t)
        && Resume(pages, Walk(net, query, apiKey, stopAt, k, tick, l)) == Resume(pages + [url], Walk(net, query, apiKey, stopAt, k + 1, t, l'))
      else
        Resume(pages, Walk(net, query, apiKey, stopAt, k, tick, l)) == Tour(pages + [url], t, l')
  {
    var reply := net.search(url);
    if Live(NextLink(reply, tick, stopAt)) && !StopIn(stopAt, tick, TurnEnd(reply, tick, stopAt)) {
      WalkGoesOn(net, query, apiKey, stopAt, k, tick, l, pages, url);
    } else {
      WalkStops(net, query, apiKey, stopAt, k, tick, l, pages, url);
    }
  }

  /** The loop never ends with fewer reads than it was entered with. */
  lemma {:induction false} WalkReadsOn(net: Network, query: string, apiKey: string, stopAt: Option<nat>, k: nat, tick: nat, l: Ledger)
    requires Ready(net, StartUrl(query, apiKey), stopAt, k, tick)
    ensures tick <= Walk(net, query, apiKey, stopAt, k, tick, l).polls
    decreases if stopAt.Some? then stopAt.value - tick else ChainEnd(net, StartUrl(query, apiKey)) - k
  {
    var start := StartUrl(query, apiKey);
    var url := CrawlUrl(net, start, k).value;
    var reply := net.search(url);
    var t := TurnEnd(reply, tick, stopAt);
    if Live(NextLink(reply, tick, stopAt)) && !StopIn(stopAt, tick, t) {
      WalkGoesOn(net, query, apiKey, stopAt, k, tick, l, [], url);
      if stopAt.None? {
        LiveBeforeEnd(net, start, ChainEnd(net, start), k + 1);
      }
      WalkReadsOn(net, query, apiKey, stopAt, k + 1, t, ReplyLedger(l, net, query, apiKey, reply, tick, stopAt));
    } else {
      WalkStops(net, query, apiKey, stopAt, k, tick, l, [], url);
    }
  }

  /**
   * Once the stop request lands at one of the loop's reads, the loop makes
   * at most one read after it: the read of app.py:98, when the stop landed
   * during a page's results.
   */
  lemma {:induction false} WalkEndsAtStop(net: Network, query: string, apiKey: string, stopAt: Option<nat>, k: nat, tick: nat, l: Ledger)
    requires Ready(net, StartUrl(query, apiKey), stopAt, k, tick)
    ensures var w := Walk(net, query, apiKey, stopAt, k, tick, l);
      StopIn(stopAt, tick, w.polls) ==> w.polls <= stopAt.value + 2
    decreases if stopAt.Some? then stopAt.value - tick else ChainEnd(net, StartUrl(query, apiKey)) - k
  {
    var start := StartUrl(query, apiKey);
    var url := CrawlUrl(net, start, k).value;
    var reply := net.search(url);
    var t := TurnEnd(reply, tick, stopAt);
    if Live(NextLink(reply, tick, stopAt)) && !StopIn(stopAt, tick, t) {
      WalkGoesOn(net, query, apiKey, stopAt, k, tick, l, [], url);
      if stopAt.None? {
        LiveBeforeEnd(net, start, ChainEnd(net, start), k + 1);
      }
      WalkEndsAtStop(net, query, apiKey, stopAt, k + 1, t, ReplyLedger(l, net, query, apiKey, reply, tick, stopAt));
    } else {
      WalkStops(net, query, apiKey, stopAt, k, tick, l, [], url);
      TurnEndsAtStop(reply, tick, stopAt);
    }
  }

  /** A turn in which the stop request lands makes at most one read after it. */
  lemma TurnEndsAtStop(reply: SearchReply, tick: nat, stopAt: Option<nat>)
    requires stopAt.Some? ==> tick <= stopAt.value
    ensures StopIn(stopAt, tick, TurnEnd(reply, tick, stopAt)) ==> TurnEnd(reply, tick, stopAt) <= stopAt.value + 2
  {
  }

  /** A stop request that lands after the loop's last read leaves the loop as it is without one. */
  lemma {:induction false} WalkIgnoresLateStop(net: Network, query: string, apiKey: string, s: nat, k: nat, tick: nat, l: Ledger)
    requires Ready(net, StartUrl(query, apiKey), None, k, tick)
    requires Walk(net, query, apiKey, None, k, tick, l).polls <= s
    ensures Ready(net, StartUrl(query, apiKey), Some(s), k, tick)
    ensures Walk(net, query, apiKey, Some(s), k, tick, l) == Walk(net, query, apiKey, None, k, tick, l)
    decreases ChainEnd(net, StartUrl(query, apiKey)) - k
  {
    var start := StartUrl(query, apiKey);
    var url := CrawlUrl(net, start, k).value;
    var reply := net.search(url);
    var t := TurnEnd(reply, tick, None);
    WalkReadsOn(net, query, apiKey, None, k, tick, l);
    if Live(NextLink(reply, tick, None)) {
      WalkGoesOn(net, query, apiKey, None, k, tick, l, [], url);
      LiveBeforeEnd(net, start, ChainEnd(net, start), k + 1);
      var l' := ReplyLedger(l, net, query, apiKey, reply, tick, None);
      WalkReadsOn(net, query, apiKey, None, k + 1, t, l');
      TurnIgnoresLateStop(reply, tick, s);
      WalkIgnoresLateStop(net, query, apiKey, s, k + 1, t, l');
      WalkGoesOn(net, query, apiKey, Some(s), k, tick, l, [], url);
    } else {
      WalkStops(net, query, apiKey, None, k, tick, l, [], url);
      TurnIgnoresLateStop(reply, tick, s);
      WalkStops(net, query, apiKey, Some(s), k, tick, l, [], url);
    }
  }

  /** With a stop request, the page loop of `run` ends at most one read after the read it lands at. */
  lemma CrawlEndsAtStop(net: Network, query: string, apiKey: string, stopAt: Option<nat>, wasRunning: bool, l: Ledger)
    requires PaginationEnds(net, StartUrl(query, apiKey)) || stopAt.Some?
    ensures var c := Crawled(net, query, apiKey, stopAt, wasRunning, l);
      StopIn(stopAt, 0, c.polls) ==> c.polls <= stopAt.value + 2
  {
    if wasRunning && stopAt != Some(0) {
      WalkEndsAtStop(net, query, apiKey, stopAt, 0, 1, l);
    }
  }

  /** A stop request that lands after the page loop's last read changes nothing in it. */
  lemma CrawlIgnoresLateStop(net: Network, query: string, apiKey: string, s: nat, wasRunning: bool, l: Ledger)
    requires PaginationEnds(net, StartUrl(query, apiKey))
    requires Crawled(net, query, apiKey, None, wasRunning, l).polls <= s
    ensures Crawled(net, query, apiKey, Some(s), wasRunning, l) == Crawled(net, query, apiKey, None, wasRunning, l)
  {
    if wasRunning {
      assert Ready(net, StartUrl(query, apiKey), None, 0, 1);
      WalkReadsOn(net, query, apiKey, None, 0, 1, l);
      WalkIgnoresLateStop(net, query, apiKey, s, 0, 1, l);
    }
  }

  /**
   * A stop request that lands at the read before one of the first page's
   * results (app.py:64-65) ends the loop with that page: the results before
   * it are scanned, the read of app.py:98 finds the flag down, and no other
   * read follows.
   */
  lemma StopDuringFirstPage(net: Network, query: string, apiKey: string, results: seq<OrganicResult>, next: Option<string>, s: nat, l: Ledger)
    requires net.search(StartUrl(query, apiKey)) == Page(Some(results), next)
    requires 1 <= s <= |results|
    ensures Crawled(net, query, apiKey, Some(s), true, l)
         == Tour([StartUrl(query, apiKey)], s + 2, ScanAll(l, net, query, apiKey, results[..s - 1]))
  {
    assert Ready(net, StartUrl(query, apiKey), Some(s), 0, 1);
    WalkStops(net, query, apiKey, Some(s), 0, 1, l, [], StartUrl(query, apiKey));
  }

  /** A turn that ends by read `s` is the same whether or not a stop request lands at `s`. */
  lemma TurnIgnoresLateStop(reply: SearchReply, tick: nat, s: nat)
    requires TurnEnd(reply, tick, None) <= s
    ensures ReplyReads(reply, tick, Some(s)) == ReplyReads(reply, tick, None)
    ensures NextLink(reply, tick, Some(s)) == NextLink(reply, tick, None)
    ensures TurnEnd(reply, tick, Some(s)) == TurnEnd(reply, tick, None)
    ensures !StopIn(Some(s), tick, TurnEnd(reply, tick, None))
  {
  }

  class EmailScraper {
    const query: string
    const apiKey: string
    var emailSources: seq<EmailRecord>
    var processedEmails: set<string>
    var isRunning: bool
    /** Everything the worker has emitted or requested so far. */
    ghost var events: seq<Event>

    function Collected(): Ledger
      reads this`emailSources, this`processedEmails
    {
      Ledger(emailSources, processedEmails)
    }

    /** The de-duplication invariant, and every stored address matches the pattern in full. */
    ghost predicate Valid()
      reads this`emailSources, this`processedEmails
    {
      && Consistent(Collected())
      && forall k :: 0 <= k < |emailSources| ==> IsEmail(emailSources[k].address)
    }

    constructor (query: string, apiKey: string)
      ensures Valid()
      ensures this.query == query && this.apiKey == apiKey
      ensures emailSources == [] && processedEmails == {} && isRunning && events == []
    {
      this.query := query;
      this.apiKey := apiKey;
      emailSources := [];
      processedEmails := {};
      isRunning := true;
      events := [];
    }

    /** `stop_scraping` (app.py:25-28): lower the flag and say so. */
    method StopScraping()
      modifies this`isRunning, this`events
      ensures !isRunning
      ensures events == old(events) + [Stopping]
    {
      isRunning := false;
      events := events + [Stopping];
    }

    /**
     * `extract_emails` (app.py:30-41): store each match whose lower-cased form
     * is new, tagged with `sourceUrl`, emit the list after each one, and
     * return how many were stored.
     */
    method ExtractEmails(text: string, sourceUrl: string) returns (newCount: nat)
      requires Valid()
      modifies this`emailSources, this`processedEmails, this`events
      ensures Valid()
      ensures Collected() == Extend(old(Collected()), FindAll(text), sourceUrl)
      ensures old(emailSources) <= emailSources
      ensures newCount == |emailSources| - |old(emailSources)|
      ensures events == old(events) + Snapshots(emailSources, |old(emailSources)|)
    {
      var found := FindAll(text);
      ghost var start := Collected();
      newCount := 0;
      for i := 0 to |found|
        invariant Valid()
        invariant Collected() == Extend(start, found[..i], sourceUrl)
        invariant start.records <= emailSources
        invariant newCount == |emailSources| - |start.records|
        invariant events == old(events) + Snapshots(emailSources, |start.records|)
      {
        ghost var prev := Collected();
        ExtendStep(start, found, i, sourceUrl);
        RecordKeepsConsistent(prev, found[i], sourceUrl);
        var email := found[i];
        var key := Lower(email);
        if key !in processedEmails {
          SnapshotsSnoc(emailSources, |start.records|, EmailRecord(email, sourceUrl));
          emailSources := emailSources + [EmailRecord(email, sourceUrl)];
          processedEmails := processedEmails + {key};
          newCount := newCount + 1;
          events := events + [Snapshot(emailSources)];
        }
        assert Collected() == Record(prev, email, sourceUrl);
      }
      assert found[..|found|] == found;
    }

    /** `fetch_page_content` (app.py:43-50): the page body, or nothing when the request raised. */
    method FetchPageContent(net: Network, url: string) returns (content: Option<string>)
      modifies this`events
      ensures content == net.fetch(url)
      ensures events == old(events) + [PageRequest(url)] + (if content.None? then [FetchFailed(url)] else [])
    {
      events := events + [PageRequest(url)];
      content := net.fetch(url);
      if content.None? {
        events := events + [FetchFailed(url)];
      }
    }

    /**
     * A read of `_is_running`. The window's stop request is an input: it lands
     * at the `stopAt`-th read of this run, where `stop_scraping` runs first.
     */
    method Poll(stopAt: Option<nat>, tick: nat) returns (running: bool)
      modifies this`isRunning, this`events
      ensures running == isRunning
      ensures stopAt == Some(tick) ==> !isRunning && events == old(events) + [Stopping]
      ensures stopAt != Some(tick) ==> isRunning == old(isRunning) && events == old(events)
      ensures old(events) <= events && RunTrace(events[|old(events)|..], old(isRunning), isRunning)
      ensures PagesOf(events[|old(events)|..]) == []
    {
      if stopAt == Some(tick) {
        StopScraping();
        StoppingRunTrace(old(isRunning));
        assert events[|old(events)|..] == [Stopping];
      }
      running := isRunning;
      NoPagesRequested(events[|old(events)|..]);
    }

    /**
     * `extract_emails` on one text of a result, then the progress message if
     * it stored anything (app.py:71-73, app.py:82-84, app.py:89-91).
     */
    method ScanText(text: string, site: string, origin: Origin)
      requires Valid()
      modifies this`emailSources, this`processedEmails, this`events
      ensures Valid()
      ensures Collected() == Extend(old(Collected()), FindAll(text), site)
      ensures old(emailSources) <= emailSources
      ensures events == old(events) + TextEvents(emailSources, |old(emailSources)|, origin, site)
      ensures ScanEvents(events[|old(events)|..], site)
    {
      var count := ExtractEmails(text, site);
      if count > 0 {
        events := events + [Found(origin, count, site)];
      }
      assert events[|old(events)|..] == TextEvents(emailSources, |old(emailSources)|, origin, site);
      TextEventsAreSilent(emailSources, |old(emailSources)|, origin, site);
    }

    /** Fetch a linked page and scan its body if there is one (app.py:80-84). */
    method ScanFetchedPage(net: Network, site: string, ghost start: Ledger, ghost done: seq<string>)
      requires Valid() && site != NoSource
      requires Collected() == Harvest(start, done, site)
      modifies this`emailSources, this`processedEmails, this`events
      ensures Valid()
      ensures Collected() == Harvest(start, done + PageTexts(net, site), site)
      ensures old(events) <= events
      ensures ScanEvents(events[|old(events)|..], site)
    {
      ghost var e0 := |events|;
      var content := FetchPageContent(net, site);
      ScanStep(old(events), events, e0, site);
      if content.Some? && content.value != "" {
        ghost var before := events;
        ScanText(content.value, site, PageContent);
        ScanStep(before, events, e0, site);
        HarvestSnoc(start, done, content.value, site);
      } else {
        assert done + PageTexts(net, site) == done;
      }
    }

    /** Ask the search API for its copy of a linked page and scan it; a failed request is reported (app.py:86-95). */
    method ScanProviderCopy(net: Network, site: string, ghost start: Ledger, ghost done: seq<string>)
      requires Valid() && site != NoSource
      requires Collected() == Harvest(start, done, site)
      modifies this`emailSources, this`processedEmails, this`events
      ensures Valid()
      ensures Collected() == Harvest(start, done + CopyTexts(net, query, apiKey, site), site)
      ensures old(emailSources) <= emailSources
      ensures events == old(events) + [ProviderRequest(site)] +
        if net.enrich(ProviderUrl(query, apiKey, site)).None? then [ScanError]
        else TextEvents(emailSources, |old(emailSources)|, ProviderCopy, site)
      ensures ScanEvents(events[|old(events)|..], site)
    {
      ghost var e0 := |events|;
      events := events + [ProviderRequest(site)];
      var reply := net.enrich(ProviderUrl(query, apiKey, site));
      match reply {
        case None =>
          events := events + [ScanError];
          ScanStep(old(events), events, e0, site);
          assert done + CopyTexts(net, query, apiKey, site) == done;
        case Some(copy) =>
          ScanStep(old(events), events, e0, site);
          ghost var before := events;
          ScanText(copy, site, ProviderCopy);
          ScanStep(before, events, e0, site);
          HarvestSnoc(start, done, copy, site);
      }
    }

    /**
     * The detailed scan of a result's linked page (app.py:76-95): the fetched
     * page, then the search API's copy of it.
     */
    method ScanLinkedPage(net: Network, site: string, ghost start: Ledger, ghost done: seq<string>)
      requires Valid() && site != NoSource
      requires Collected() == Harvest(start, done, site)
      modifies this`emailSources, this`processedEmails, this`events
      ensures Valid()
      ensures Collected() == Harvest(start, done + LinkedTexts(net, query, apiKey, site), site)
      ensures old(events) <= events
      ensures ScanEvents(events[|old(events)|..], site)
    {
      ghost var e0 := |events|;
      OpenLinkedPage(net, site, start, done);
      ghost var before := events;
      ScanProviderCopy(net, site, start, done + PageTexts(net, site));
      ScanStep(before, events, e0, site);
      AppendAssoc(done, PageTexts(net, site), CopyTexts(net, query, apiKey, site));
    }

    /** The announcement of the detailed scan and the scan of the fetched page (app.py:76-84). */
    method OpenLinkedPage(net: Network, site: string, ghost start: Ledger, ghost done: seq<string>)
      requires Valid() && site != NoSource
      requires Collected() == Harvest(start, done, site)
      modifies this`emailSources, this`processedEmails, this`events
      ensures Valid()
      ensures Collected() == Harvest(start, done + PageTexts(net, site), site)
      ensures old(events) < events && events[|old(events)|] == DetailedScan(site)
      ensures ScanEvents(events[|old(events)|..], site)
    {
      ghost var e0 := |events|;
      events := events + [DetailedScan(site)];
      assert events[e0..] == [DetailedScan(site)];
      ghost var marked := events;
      ScanFetchedPage(net, site, start, done);
      ScanStep(marked, events, e0, site);
      assert events[e0] == marked[e0];
    }

    /** The body of the loop over one page's results (app.py:67-95). */
    method ScanResult(net: Network, result: OrganicResult)
      requires Valid()
      modifies this`emailSources, this`processedEmails, this`events
      ensures Valid()
      ensures Collected() == Harvest(old(Collected()), ScannedTexts(net, query, apiKey, result), Site(result))
      ensures old(emailSources) <= emailSources
      ensures old(events) <= events
      ensures ScanEvents(events[|old(events)|..], Site(result))
      ensures RunTrace(events[|old(events)|..], true, true)
      ensures PagesOf(events[|old(events)|..]) == []
    {
      var site := result.link.GetOr(NoSource);
      var snippet := result.snippet.GetOr("");
      ghost var start := Collected();
      ScanText(snippet, site, Snippet);
      HarvestSnoc(start, [], snippet, site);
      if site != NoSource {
        ghost var before := events;
        ScanLinkedPage(net, site, start, [snippet]);
        ScanStep(before, events, |old(events)|, site);
      }
      HarvestAppends(start, ScannedTexts(net, query, apiKey, result), site);
      ScanIsRunTrace(events[|old(events)|..], site);
      ScanRequestsNoPage(events[|old(events)|..], site);
    }

    /**
     * One pass of the loop over a page's results (app.py:64-95): read the
     * flag, then scan the `i`-th result unless it is down. The ledger is that
     * of the results before it, scanned from `start`; the flag stays exactly
     * "up at the start of the page and no stop landed at reads `t0` to `tick`".
     */
    method ScanNext(net: Network, results: seq<OrganicResult>, i: nat, ghost start: Ledger,
                    stopAt: Option<nat>, ghost t0: nat, tick: nat, ghost e0: nat, ghost wasRunning: bool)
      returns (running: bool)
      requires Valid() && i < |results| && t0 <= tick
      requires Collected() == ScanAll(start, net, query, apiKey, results[..i])
      requires isRunning == (wasRunning && !StopIn(stopAt, t0, tick))
      requires e0 <= |events| && RunTrace(events[e0..], wasRunning, isRunning)
      modifies this`emailSources, this`processedEmails, this`isRunning, this`events
      ensures Valid()
      ensures running == isRunning
      ensures isRunning == (wasRunning && !StopIn(stopAt, t0, tick + 1))
      ensures running ==> Collected() == ScanAll(start, net, query, apiKey, results[..i + 1])
      ensures !running ==> Collected() == old(Collected())
      ensures old(emailSources) <= emailSources
      ensures e0 <= |events| && events[..e0] == old(events)[..e0]
      ensures RunTrace(events[e0..], wasRunning, isRunning)
      ensures PagesOf(events[e0..]) == PagesOf(old(events)[e0..])
    {
      ScanAllStep(start, net, query, apiKey, results, i);
      running := PollFrom(stopAt, t0, tick, e0, wasRunning);
      if running {
        ScanResultFrom(net, results[i], e0, wasRunning);
      }
    }

    /** A read of the flag inside the trace that began at `e0`, with the stop window widened by one read. */
    method PollFrom(stopAt: Option<nat>, ghost t0: nat, tick: nat, ghost e0: nat, ghost wasRunning: bool) returns (running: bool)
      requires t0 <= tick
      requires isRunning == (wasRunning && !StopIn(stopAt, t0, tick))
      requires e0 <= |events| && RunTrace(events[e0..], wasRunning, isRunning)
      modifies this`isRunning, this`events
      ensures running == isRunning
      ensures isRunning == (wasRunning && !StopIn(stopAt, t0, tick + 1))
      ensures e0 <= |events| && events[..e0] == old(events)[..e0]
      ensures RunTrace(events[e0..], wasRunning, isRunning)
      ensures PagesOf(events[e0..]) == PagesOf(old(events)[e0..])
    {
      running := Poll(stopAt, tick);
      RunTraceExtend(old(events), events, e0, wasRunning, old(isRunning), isRunning);
      PagesExtend(old(events), events, e0);
      StopInSplit(stopAt, t0, tick, tick + 1);
    }

    /** The scan of one result inside the trace that began at `e0`. */
    method ScanResultFrom(net: Network, result: OrganicResult, ghost e0: nat, ghost wasRunning: bool)
      requires Valid() && isRunning
      requires e0 <= |events| && RunTrace(events[e0..], wasRunning, true)
      modifies this`emailSources, this`processedEmails, this`events
      ensures Valid()
      ensures Collected() == Harvest(old(Collected()), ScannedTexts(net, query, apiKey, result), Site(result))
      ensures old(emailSources) <= emailSources
      ensures e0 <= |events| && events[..e0] == old(events)[..e0]
      ensures RunTrace(events[e0..], wasRunning, true)
      ensures PagesOf(events[e0..]) == PagesOf(old(events)[e0..])
    {
      ScanResult(net, result);
      RunTraceExtend(old(events), events, e0, wasRunning, true, true);
      PagesExtend(old(events), events, e0);
    }

    /**
     * The loop over one page's results (app.py:63-95): the flag is read before
     * each result, and a lowered flag ends the loop. The results scanned are
     * those whose read saw the flag up; when the loop breaks, the read that
     * saw it down is the last. The flag and the trace are those of a page
     * that began with the flag `wasRunning` at read `t0` and event `e0`.
     */
    method ScanPage(net: Network, results: seq<OrganicResult>, stopAt: Option<nat>, ghost t0: nat, tick: nat, ghost e0: nat, ghost wasRunning: bool)
      returns (tick': nat, ghost scanned: nat)
      requires Valid() && t0 <= tick
      requires isRunning == (wasRunning && !StopIn(stopAt, t0, tick))
      requires e0 <= |events| && RunTrace(events[e0..], wasRunning, isRunning)
      modifies this`emailSources, this`processedEmails, this`isRunning, this`events
      ensures Valid()
      ensures scanned <= |results|
      ensures Collected() == ScanAll(old(Collected()), net, query, apiKey, results[..scanned])
      ensures tick' == tick + scanned + (if scanned < |results| then 1 else 0)
      ensures !StopIn(stopAt, tick, tick + scanned)
      ensures isRunning == (wasRunning && !StopIn(stopAt, t0, tick'))
      ensures scanned < |results| ==> !isRunning
      ensures old(emailSources) <= emailSources
      ensures e0 <= |events| && events[..e0] == old(events)[..e0]
      ensures RunTrace(events[e0..], wasRunning, isRunning)
      ensures PagesOf(events[e0..]) == PagesOf(old(events)[e0..])
    {
      tick' := tick;
      var i := 0;
      while i < |results|
        invariant i <= |results| && tick' == tick + i
        invariant Valid()
        invariant Collected() == ScanAll(old(Collected()), net, query, apiKey, results[..i])
        invariant old(emailSources) <= emailSources
        invariant isRunning == (wasRunning && !StopIn(stopAt, t0, tick'))
        invariant !StopIn(stopAt, tick, tick')
        invariant e0 <= |events| && events[..e0] == old(events)[..e0]
        invariant RunTrace(events[e0..], wasRunning, isRunning)
        invariant PagesOf(events[e0..]) == PagesOf(old(events)[e0..])
      {
        var running := ScanNext(net, results, i, old(Collected()), stopAt, t0, tick', e0, wasRunning);
        tick' := tick' + 1;
        if !running {
          break;
        }
        i := i + 1;
      }
      scanned := i;
    }

    /**
     * The `organic_results` of a page (app.py:62-95), scanned within the
     * trace that began at `e0`: the results before the read the stop request
     * lands at are scanned, one read each, and that read ends the loop.
     */
    method ScanOrganic(net: Network, results: seq<OrganicResult>, stopAt: Option<nat>, tick: nat, ghost e0: nat)
      returns (tick': nat)
      requires Valid() && isRunning && e0 <= |events| && RunTrace(events[e0..], true, true)
      modifies this`emailSources, this`processedEmails, this`isRunning, this`events
      ensures Valid()
      ensures Collected() == ScanAll(old(Collected()), net, query, apiKey, results[..Scanned(|results|, tick, stopAt)])
      ensures old(emailSources) <= emailSources
      ensures tick' == tick + PageReads(|results|, tick, stopAt)
      ensures isRunning == !StopIn(stopAt, tick, tick')
      ensures e0 <= |events| && events[..e0] == old(events)[..e0]
      ensures RunTrace(events[e0..], true, isRunning)
      ensures PagesOf(events[e0..]) == PagesOf(old(events)[e0..])
    {
      ghost var scanned;
      tick', scanned := ScanPage(net, results, stopAt, tick, tick, e0, true);
      PageCount(|results|, tick, stopAt, scanned, tick');
    }

    /**
     * The body of one pass of the page loop (app.py:58-97): request the page,
     * scan its results if it has any, and report the total. A request that
     * raised is reported instead, and nothing else happens (app.py:102-103).
     */
    method ScanSearchPage(net: Network, url: string, pageNumber: nat, stopAt: Option<nat>, tick: nat) returns (tick': nat)
      requires Valid() && isRunning
      modifies this`emailSources, this`processedEmails, this`isRunning, this`events
      ensures Valid()
      ensures Collected() == ReplyLedger(old(Collected()), net, query, apiKey, net.search(url), tick, stopAt)
      ensures old(emailSources) <= emailSources
      ensures tick' == tick + ReplyReads(net.search(url), tick, stopAt)
      ensures isRunning == !StopIn(stopAt, tick, tick')
      ensures old(events) <= events
      ensures |events| > |old(events)| && events[|old(events)|] == ScanningPage(pageNumber, url)
      ensures net.search(url).Raised? ==> events == old(events) + [ScanningPage(pageNumber, url), RunError]
      ensures !net.search(url).Raised? ==> events[|events| - 1] == TotalSoFar(|emailSources|)
      ensures RunTrace(events[|old(events)|..], true, isRunning)
      ensures PagesOf(events[|old(events)|..]) == [url]
    {
      events := events + [ScanningPage(pageNumber, url)];
      tick' := HandleReply(net, net.search(url), stopAt, tick);
      PageAnswered(old(events), events, pageNumber, url, isRunning);
      if net.search(url).Raised? {
        assert events == old(events) + [ScanningPage(pageNumber, url), RunError];
      }
    }

    /**
     * What follows the request of a page (app.py:58-103): a reply that
     * raised is reported and nothing else happens; otherwise its
     * `organic_results`, if any, are scanned and the total is reported.
     */
    method HandleReply(net: Network, reply: SearchReply, stopAt: Option<nat>, tick: nat) returns (tick': nat)
      requires Valid() && isRunning
      modifies this`emailSources, this`processedEmails, this`isRunning, this`events
      ensures Valid()
      ensures Collected() == ReplyLedger(old(Collected()), net, query, apiKey, reply, tick, stopAt)
      ensures old(emailSources) <= emailSources
      ensures tick' == tick + ReplyReads(reply, tick, stopAt)
      ensures isRunning == !StopIn(stopAt, tick, tick')
      ensures old(events) <= events
      ensures reply.Raised? ==> events == old(events) + [RunError]
      ensures !reply.Raised? ==> |events| > |old(events)| && events[|events| - 1] == TotalSoFar(|emailSources|)
      ensures RunTrace(events[|old(events)|..], true, isRunning)
      ensures PagesOf(events[|old(events)|..]) == []
    {
      if reply.Raised? {
        tick' := tick;
        ghost var e0 := |events|;
        assert events[e0..] == [];
        Emit(RunError, e0, true);
      } else {
        tick' := Tally(net, reply, stopAt, tick);
      }
    }

    /** A reply that did not raise (app.py:62-101): its results, if any, are scanned, then the total is reported. */
    method Tally(net: Network, reply: SearchReply, stopAt: Option<nat>, tick: nat) returns (tick': nat)
      requires Valid() && isRunning && reply.Page?
      modifies this`emailSources, this`processedEmails, this`isRunning, this`events
      ensures Valid()
      ensures Collected() == ReplyLedger(old(Collected()), net, query, apiKey, reply, tick, stopAt)
      ensures old(emailSources) <= emailSources
      ensures tick' == tick + ReplyReads(reply, tick, stopAt)
      ensures isRunning == !StopIn(stopAt, tick, tick')
      ensures old(events) < events && events[|events| - 1] == TotalSoFar(|emailSources|)
      ensures RunTrace(events[|old(events)|..], true, isRunning)
      ensures PagesOf(events[|old(events)|..]) == []
    {
      ghost var e0 := |events|;
      tick' := ScanReply(net, reply, stopAt, tick, e0);
      Emit(TotalSoFar(|emailSources|), e0, true);
      assert events[..e0] == old(events);
    }

    /** The `organic_results` of a reply that did not raise, if it has them (app.py:62-95), within the trace that began at `e0`. */
    method ScanReply(net: Network, reply: SearchReply, stopAt: Option<nat>, tick: nat, ghost e0: nat) returns (tick': nat)
      requires Valid() && isRunning && reply.Page?
      requires e0 == |events|
      modifies this`emailSources, this`processedEmails, this`isRunning, this`events
      ensures Valid()
      ensures Collected() == ReplyLedger(old(Collected()), net, query, apiKey, reply, tick, stopAt)
      ensures old(emailSources) <= emailSources
      ensures tick' == tick + ReplyReads(reply, tick, stopAt)
      ensures isRunning == !StopIn(stopAt, tick, tick')
      ensures e0 <= |events| && events[..e0] == old(events)
      ensures RunTrace(events[e0..], true, isRunning)
      ensures PagesOf(events[e0..]) == []
    {
      assert events[e0..] == [] && Traced([], true);
      tick' := tick;
      if reply.organic.Some? {
        tick' := ScanOrganic(net, reply.organic.value, stopAt, tick, e0);
      }
    }

    /** The loop condition `url and self._is_running` (app.py:56): the flag is read only for a non-empty link. */
    method Proceed(url: Option<string>, stopAt: Option<nat>, tick: nat) returns (go: bool, tick': nat)
      modifies this`isRunning, this`events
      ensures go == (Live(url) && isRunning)
      ensures tick' == if Live(url) then tick + 1 else tick
      ensures isRunning == (old(isRunning) && !StopIn(stopAt, tick, tick'))
      ensures old(events) <= events && RunTrace(events[|old(events)|..], old(isRunning), isRunning)
      ensures PagesOf(events[|old(events)|..]) == []
    {
      go, tick' := false, tick;
      if Live(url) {
        go := Poll(stopAt, tick);
        tick' := tick + 1;
      } else {
        assert events[|old(events)|..] == [];
      }
    }

    /**
     * One turn of the page loop (app.py:57-104, then the loop condition of
     * app.py:56): scan the page at `url` and decide whether to go on with the
     * link that follows it. The reads, the link and the collections are
     * those of the specification's turn.
     */
    method Advance(net: Network, url: string, pageNumber: nat, stopAt: Option<nat>, tick: nat)
      returns (next: Option<string>, tick': nat, go: bool)
      requires Valid() && isRunning && url != ""
      modifies this`emailSources, this`processedEmails, this`isRunning, this`events
      ensures Valid()
      ensures Collected() == ReplyLedger(old(Collected()), net, query, apiKey, net.search(url), tick, stopAt)
      ensures old(emailSources) <= emailSources
      ensures next == NextLink(net.search(url), tick, stopAt)
      ensures tick' == TurnEnd(net.search(url), tick, stopAt)
      ensures go == (Live(next) && isRunning)
      ensures isRunning == !StopIn(stopAt, tick, tick')
      ensures old(events) <= events
      ensures RunTrace(events[|old(events)|..], true, isRunning)
      ensures PagesOf(events[|old(events)|..]) == [url]
    {
      ghost var e0 := |events|;
      tick' := ScanSearchPage(net, url, pageNumber, stopAt, tick);
      next, tick', go := Close(net.search(url), stopAt, tick, tick', e0);
    }

    /**
     * What ends a turn once the reply's results are done (app.py:98-104): a
     * raised request ends the loop with no further read; otherwise the link
     * is followed as `FollowLink` says.
     */
    method Close(reply: SearchReply, stopAt: Option<nat>, ghost t0: nat, tick: nat, ghost e0: nat)
      returns (next: Option<string>, tick': nat, go: bool)
      requires tick == t0 + ReplyReads(reply, t0, stopAt)
      requires isRunning == !StopIn(stopAt, t0, tick)
      requires e0 <= |events| && RunTrace(events[e0..], true, isRunning)
      modifies this`isRunning, this`events
      ensures next == NextLink(reply, t0, stopAt)
      ensures tick' == TurnEnd(reply, t0, stopAt)
      ensures go == (Live(next) && isRunning)
      ensures isRunning == !StopIn(stopAt, t0, tick')
      ensures e0 <= |events| && events[..e0] == old(events)[..e0]
      ensures RunTrace(events[e0..], true, isRunning)
      ensures PagesOf(events[e0..]) == PagesOf(old(events)[e0..])
    {
      if reply.Raised? {
        next, tick', go := None, tick, false;
      } else {
        next, tick', go := FollowLink(reply.next, stopAt, t0, tick, e0);
      }
    }

    /** One turn of the page loop inside the run that began with the flag `wasRunning` at read 0 and event `e0`. */
    method Turn(net: Network, url: string, pageNumber: nat, stopAt: Option<nat>, tick: nat, ghost e0: nat, ghost wasRunning: bool)
      returns (next: Option<string>, tick': nat, go: bool)
      requires Valid() && isRunning && url != ""
      requires isRunning == (wasRunning && !StopIn(stopAt, 0, tick))
      requires e0 <= |events| && RunTrace(events[e0..], wasRunning, isRunning)
      modifies this`emailSources, this`processedEmails, this`isRunning, this`events
      ensures Valid()
      ensures Collected() == ReplyLedger(old(Collected()), net, query, apiKey, net.search(url), tick, stopAt)
      ensures old(emailSources) <= emailSources
      ensures next == NextLink(net.search(url), tick, stopAt)
      ensures tick' == TurnEnd(net.search(url), tick, stopAt)
      ensures go == (Live(next) && isRunning)
      ensures isRunning == (wasRunning && !StopIn(stopAt, 0, tick'))
      ensures e0 <= |events| && events[..e0] == old(events)[..e0]
      ensures RunTrace(events[e0..], wasRunning, isRunning)
      ensures PagesOf(events[e0..]) == PagesOf(old(events)[e0..]) + [url]
    {
      next, tick', go := Advance(net, url, pageNumber, stopAt, tick);
      RunTraceExtend(old(events), events, e0, wasRunning, true, isRunning);
      PagesExtend(old(events), events, e0);
      StopInSplit(stopAt, 0, tick, tick');
    }

    /**
     * A turn of the page loop against the specification: when `whole` is the
     * pages `pages` followed by the loop from the next link, it is afterwards
     * the pages `pages + [page]` followed by the loop from the link after, or
     * exactly those pages if the loop ends.
     */
    method Step(net: Network, page: string, pageNumber: nat, stopAt: Option<nat>, tick: nat, ghost e0: nat, ghost wasRunning: bool,
                ghost pages: seq<string>, ghost whole: Tour)
      returns (next: Option<string>, tick': nat, go: bool)
      requires Valid() && isRunning
      requires isRunning == (wasRunning && !StopIn(stopAt, 0, tick))
      requires e0 <= |events| && RunTrace(events[e0..], wasRunning, isRunning)
      requires Ready(net, StartUrl(query, apiKey), stopAt, |pages|, tick)
      requires CrawlUrl(net, StartUrl(query, apiKey), |pages|) == Some(page)
      requires whole == Resume(pages, Walk(net, query, apiKey, stopAt, |pages|, tick, Collected()))
      requires Followed(net, StartUrl(query, apiKey), pages)
      modifies this`emailSources, this`processedEmails, this`isRunning, this`events
      ensures Valid()
      ensures old(emailSources) <= emailSources
      ensures next == CrawlUrl(net, StartUrl(query, apiKey), |pages| + 1) || (next == None && !isRunning)
      ensures go == (Live(next) && isRunning)
      ensures tick <= tick' && isRunning == (wasRunning && !StopIn(stopAt, 0, tick'))
      ensures go ==> Ready(net, StartUrl(query, apiKey), stopAt, |pages| + 1, tick')
      ensures go ==> whole == Resume(pages + [page], Walk(net, query, apiKey, stopAt, |pages| + 1, tick', Collected()))
      ensures !go ==> whole == Tour(pages + [page], tick', Collected())
      ensures Followed(net, StartUrl(query, apiKey), pages + [page])
      ensures e0 <= |events| && events[..e0] == old(events)[..e0]
      ensures RunTrace(events[e0..], wasRunning, isRunning)
      ensures PagesOf(events[e0..]) == PagesOf(old(events)[e0..]) + [page]
    {
      next, tick', go := Turn(net, page, pageNumber, stopAt, tick, e0, wasRunning);
      StopInSplit(stopAt, 0, tick, tick');
      WalkAfterTurn(net, query, apiKey, stopAt, |pages|, tick, old(Collected()), pages, page);
      FollowedSnoc(net, StartUrl(query, apiKey), pages, page);
    }

    /**
     * The end of a turn of the page loop (app.py:98, then app.py:56): the
     * flag is read and the link is taken only if it is still up; the flag is
     * read once more for a non-empty link, and the loop goes on only if it is
     * still up. The flag and the trace are those of a turn that began with
     * the flag up at read `t0` and event `e0`.
     */
    method FollowLink(link: Option<string>, stopAt: Option<nat>, ghost t0: nat, tick: nat, ghost e0: nat)
      returns (next: Option<string>, tick': nat, go: bool)
      requires t0 <= tick
      requires isRunning == !StopIn(stopAt, t0, tick)
      requires e0 <= |events| && RunTrace(events[e0..], true, isRunning)
      modifies this`isRunning, this`events
      ensures next == if StopIn(stopAt, t0, tick + 1) then None else link
      ensures tick' == tick + 1 + (if Live(next) then 1 else 0)
      ensures go == (Live(next) && isRunning)
      ensures isRunning == !StopIn(stopAt, t0, tick')
      ensures e0 <= |events| && events[..e0] == old(events)[..e0]
      ensures RunTrace(events[e0..], true, isRunning)
      ensures PagesOf(events[e0..]) == PagesOf(old(events)[e0..])
    {
      var running := PollFrom(stopAt, t0, tick, e0, true);
      tick' := tick + 1;
      next := if running then link else None;
      ghost var before, mid, t1 := events, isRunning, tick';
      go, tick' := Proceed(next, stopAt, tick');
      RunTraceExtend(before, events, e0, true, mid, isRunning);
      PagesExtend(before, events, e0);
      StopInSplit(stopAt, t0, t1, tick');
    }

    /**
     * The page loop of `run` (app.py:53-104): walk the pagination chain while
     * the URL is non-empty and the flag is up, scanning each page's results.
     *
     * It terminates when the chain ends or a stop request lands; `pages` are
     * the search pages requested, in order, and `tick` counts the flag reads.
     * Both, and the collections, are those of the specification's `Crawled`.
     */
    method Crawl(net: Network, stopAt: Option<nat>) returns (ghost pages: seq<string>, tick: nat)
      requires Valid()
      requires PaginationEnds(net, StartUrl(query, apiKey)) || stopAt.Some?
      modifies this`emailSources, this`processedEmails, this`isRunning, this`events
      ensures Valid()
      ensures Crawled(net, query, apiKey, stopAt, old(isRunning), old(Collected())) == Tour(pages, tick, Collected())
      ensures old(emailSources) <= emailSources
      ensures old(events) <= events
      ensures RunTrace(events[|old(events)|..], old(isRunning), isRunning)
      ensures Followed(net, StartUrl(query, apiKey), pages)
      ensures PagesOf(events[|old(events)|..]) == pages
      ensures isRunning ==> !Live(CrawlUrl(net, StartUrl(query, apiKey), |pages|))
      ensures 1 <= tick
      ensures isRunning == (old(isRunning) && !StopIn(stopAt, 0, tick))
    {
      ghost var start := StartUrl(query, apiKey);
      ghost var e0 := |events|;
      ghost var whole := Crawled(net, query, apiKey, stopAt, old(isRunning), old(Collected()));
      var url: Option<string> := Some(StartUrl(query, apiKey));
      assert Live(url);
      var pageNumber: nat := 1;
      pages := [];
      var go;
      go, tick := Proceed(url, stopAt, 0);
      if go {
        assert whole == Walk(net, query, apiKey, stopAt, 0, tick, Collected());
        assert pages + whole.pages == whole.pages;
      }
      while go
        invariant Valid()
        invariant old(emailSources) <= emailSources
        invariant e0 <= |events| && events[..e0] == old(events)
        invariant RunTrace(events[e0..], old(isRunning), isRunning)
        invariant PagesOf(events[e0..]) == pages
        invariant 1 <= tick
        invariant isRunning == (old(isRunning) && !StopIn(stopAt, 0, tick))
        invariant Followed(net, start, pages)
        invariant url == CrawlUrl(net, start, |pages|) || (url == None && !isRunning)
        invariant go == (Live(url) && isRunning)
        invariant go ==> Ready(net, start, stopAt, |pages|, tick)
        invariant go ==> whole == Resume(pages, Walk(net, query, apiKey, stopAt, |pages|, tick, Collected()))
        invariant !go ==> whole == Tour(pages, tick, Collected())
        invariant |pages| <= |whole.pages|
        decreases |whole.pages| - |pages|
      {
        var page := url.value;
        url, tick, go := Step(net, page, pageNumber, stopAt, tick, e0, old(isRunning), pages, whole);
        pages := pages + [page];
        pageNumber := pageNumber + 1;
      }
    }

    /**
     * `run` (app.py:52-108): the page loop, then a last read of the flag to
     * report "stopped" or "completed", and the list of records. `polls` counts
     * the reads of the flag, those of the specification's `Crawled` and the
     * last; the status is "stopped" exactly when the flag was down at the
     * start or the stop request landed at one of them.
     */
    method Run(net: Network, stopAt: Option<nat>) returns (status: Status, ghost pages: seq<string>, ghost polls: nat)
      requires Valid()
      requires PaginationEnds(net, StartUrl(query, apiKey)) || stopAt.Some?
      modifies this`emailSources, this`processedEmails, this`isRunning, this`events
      ensures Valid()
      ensures var c := Crawled(net, query, apiKey, stopAt, old(isRunning), old(Collected()));
        pages == c.pages && polls == c.polls + 1 && Collected() == c.ledger
      ensures old(emailSources) <= emailSources
      ensures 2 <= polls
      ensures status == (if old(isRunning) && !StopIn(stopAt, 0, polls) then Completed else Stopped)
      ensures (status == Stopped) == !isRunning
      ensures old(events) <= events
      ensures RunTrace(events[|old(events)|..], old(isRunning), isRunning)
      ensures Followed(net, StartUrl(query, apiKey), pages)
      ensures PagesOf(events[|old(events)|..]) == pages
      ensures isRunning ==> !Live(CrawlUrl(net, StartUrl(query, apiKey), |pages|))
      ensures |events| >= 2 && events[|events| - 2..] == [Summary(status, |emailSources|), Finished(emailSources)]
    {
      ghost var e0 := |events|;
      var tick;
      pages, tick := Crawl(net, stopAt);
      status := Conclude(stopAt, tick, e0, old(isRunning));
      polls := tick + 1;
      StopInSplit(stopAt, 0, tick, polls);
    }

    /**
     * The end of `run` (app.py:106-108): the last read of the flag decides the
     * status, then the summary and the records are reported.
     */
    method Conclude(stopAt: Option<nat>, tick: nat, ghost e0: nat, ghost wasRunning: bool) returns (status: Status)
      requires e0 <= |events| && RunTrace(events[e0..], wasRunning, isRunning)
      modifies this`isRunning, this`events
      ensures status == (if old(isRunning) && stopAt != Some(tick) then Completed else Stopped)
      ensures (status == Stopped) == !isRunning
      ensures isRunning == (old(isRunning) && !StopIn(stopAt, tick, tick + 1))
      ensures old(events) <= events
      ensures RunTrace(events[e0..], wasRunning, isRunning)
      ensures PagesOf(events[e0..]) == PagesOf(old(events)[e0..])
      ensures |events| >= 2 && events[|events| - 2..] == [Summary(status, |emailSources|), Finished(emailSources)]
    {
      var running := Poll(stopAt, tick);
      RunTraceExtend(old(events), events, e0, wasRunning, old(isRunning), isRunning);
      PagesExtend(old(events), events, e0);
      status := if running then Completed else Stopped;
      Report(status, e0, wasRunning);
    }

    /** The summary and the records (app.py:107-108), neither of which acts. */
    method Report(status: Status, ghost e0: nat, ghost wasRunning: bool)
      requires e0 <= |events| && RunTrace(events[e0..], wasRunning, isRunning)
      modifies this`events
      ensures events == old(events) + [Summary(status, |emailSources|), Finished(emailSources)]
      ensures RunTrace(events[e0..], wasRunning, isRunning)
      ensures PagesOf(events[e0..]) == PagesOf(old(events)[e0..])
    {
      Emit(Summary(status, |emailSources|), e0, wasRunning);
      Emit(Finished(emailSources), e0, wasRunning);
    }

    /** Emit a message that neither acts nor stops. */
    method Emit(e: Event, ghost e0: nat, ghost wasRunning: bool)
      requires !e.Acts() && e != Stopping
      requires e0 <= |events| && RunTrace(events[e0..], wasRunning, isRunning)
      modifies this`events
      ensures events == old(events) + [e]
      ensures RunTrace(events[e0..], wasRunning, isRunning)
      ensures PagesOf(events[e0..]) == PagesOf(old(events)[e0..])
    {
      events := events + [e];
      OneEventRunTrace(e, isRunning);
      RunTraceExtend(old(events), events, e0, wasRunning, isRunning, isRunning);
      NoPagesRequested(events[|old(events)|..]);
      PagesExtend(old(events), events, e0);
    }
  }
}
