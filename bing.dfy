/**
 * The web-search worker `BingEmailScraper` (app.py:110-206): it walks the
 * result pages of a Bing web search by offset, harvests addresses from each
 * result's snippet and from the page the result links to, and ends on an
 * error reply, a reply without results, or once the offset reaches the
 * result total. It has no stop flag.
 *
 * The network is a fixed function of the request: a search reply is looked
 * up by offset (the query and key are fixed per worker), a page fetch by the
 * page's URL.
 */
module BingScraper {
  import opened Optional
  import opened Pattern
  import opened Extraction
  import opened Signals

  /** One entry of `webPages.value`, with its optional `url` and `snippet`. */
  datatype WebResult = WebResult(url: Option<string>, snippet: Option<string>)

  /** The `webPages` object: its `value` list and `totalEstimatedMatches`, each when present. */
  datatype WebPages = WebPages(value: Option<seq<WebResult>>, totalEstimatedMatches: Option<int>)

  /** The body of a reply: not JSON (`response.json()` raises), or a JSON object with or without `webPages`. */
  datatype Body = NotJson | Json(webPages: Option<WebPages>)

  /** A search reply: the request raised, or a status code and a body. */
  datatype BingReply = Unreachable | Reply(status: int, body: Body)

  datatype BingNetwork = BingNetwork(search: int -> BingReply, fetch: string -> Option<string>)

  /** The default total and its cap (app.py:147, app.py:170). */
  const DefaultTotal := 50
  const MaxTotal := 200

  /** The loop's two integer variables `offset` and `total_results`. */
  datatype Cursor = Cursor(offset: nat, total: int)

  /** `offset = 0` and `total_results = 50` (app.py:146-147). */
  const Initial := Cursor(0, DefaultTotal)

  function Min(a: int, b: int): int {
    if a <= b then a else b
  }

  /** The `value` list of a reply the loop accepts: status 200, a JSON body, `webPages` and `value` present (app.py:162-169). */
  function Results(reply: BingReply): Option<seq<WebResult>> {
    match reply
    case Unreachable => None
    case Reply(status, body) =>
      if status != 200 then None
      else match body
        case NotJson => None
        case Json(webPages) =>
          if webPages.Some? then webPages.value.value else None
  }

  /** `min(data['webPages'].get('totalEstimatedMatches', 50), 200)` (app.py:170). */
  function NewTotal(reply: BingReply): int
    requires Results(reply).Some?
  {
    Min(reply.body.webPages.value.totalEstimatedMatches.GetOr(DefaultTotal), MaxTotal)
  }

  /**
   * The cursor after one pass of the loop as written (app.py:170, app.py:195):
   * none when the pass breaks out of the loop.
   */
  function NextAsWritten(c: Cursor, reply: BingReply): (next: Option<Cursor>) {
    match Results(reply)
    case None => None
    case Some(results) => Some(Cursor(c.offset + |results|, NewTotal(reply)))
  }

  /**
   * The cursor after one pass of the loop, with the loop also ending on a
   * page without results, where the code as written requests the same
   * offset again forever.
   */
  function Next(c: Cursor, reply: BingReply): (next: Option<Cursor>)
    ensures next.Some? ==> c.offset < next.value.offset && next.value.total <= MaxTotal
  {
    match Results(reply)
    case None => None
    case Some(results) =>
      if results == [] then None else Some(Cursor(c.offset + |results|, NewTotal(reply)))
  }

  /** The two steps agree except on a page without results. */
  lemma NextMatchesAsWritten(c: Cursor, reply: BingReply)
    ensures Next(c, reply) == (if Results(reply) == Some([]) then None else NextAsWritten(c, reply))
  {
  }

  /**
   * The cursor after `n` more passes of the loop as written, each pass
   * guarded by `offset < total_results` (app.py:149); none once it exits.
   */
  function PassesAsWritten(net: BingNetwork, c: Cursor, n: nat): Option<Cursor>
    decreases n
  {
    if n == 0 then Some(c)
    else if c.offset >= c.total then None
    else match NextAsWritten(c, net.search(c.offset))
      case None => None
      case Some(c') => PassesAsWritten(net, c', n - 1)
  }

  /** A search service that answers every offset with a 200 reply whose `value` list is empty. */
  const EmptyPage := Reply(200, Json(Some(WebPages(Some([]), Some(100)))))
  const EmptyService := BingNetwork(offset => EmptyPage, url => None)

  /**
   * The loop as written never exits on that service: after the first pass
   * it sits at offset 0 with a total of 100 and requests offset 0 again on
   * every pass, however many passes are made.
   */
  lemma {:induction false} EmptyPageSpins(n: nat)
    ensures PassesAsWritten(EmptyService, Cursor(0, 100), n) == Some(Cursor(0, 100))
    ensures PassesAsWritten(EmptyService, Initial, n + 1) == Some(Cursor(0, 100))
  {
    if n > 0 {
      EmptyPageSpins(n - 1);
    }
    assert NextAsWritten(Initial, EmptyService.search(0)) == Some(Cursor(0, 100));
  }

  /** With the corrected step the same service gets one request and the loop ends. */
  lemma EmptyPageEnds()
    ensures Offsets(EmptyService, Initial) == [0]
  {
    assert Next(Initial, EmptyService.search(0)) == None;
  }

  /** A cursor the loop can be at: the total never exceeds the cap. */
  predicate Reachable(c: Cursor) {
    c.total <= MaxTotal
  }

  /** The offsets requested from cursor `c` on, in order (app.py:149-160). */
  function Offsets(net: BingNetwork, c: Cursor): seq<nat>
    requires Reachable(c)
    decreases MaxTotal - c.offset
  {
    if c.offset >= c.total then []
    else [c.offset] + match Next(c, net.search(c.offset))
      case None => []
      case Some(c') => Offsets(net, c')
  }

  /**
   * Termination with a bound: the offsets requested rise strictly, all lie
   * below the cap of 200, and there are at most `200 - offset` of them.
   */
  lemma {:induction false} OffsetsAreBounded(net: BingNetwork, c: Cursor)
    requires Reachable(c)
    ensures forall k :: 0 <= k < |Offsets(net, c)| ==> c.offset <= Offsets(net, c)[k] < MaxTotal
    ensures forall k :: 0 < k < |Offsets(net, c)| ==> Offsets(net, c)[k - 1] < Offsets(net, c)[k]
    ensures Offsets(net, c) == [] || c.offset + |Offsets(net, c)| <= MaxTotal
    decreases MaxTotal - c.offset
  {
    var os := Offsets(net, c);
    if c.offset < c.total {
      OffsetsStep(net, c);
      var next := Next(c, net.search(c.offset));
      if next.Some? {
        var rest := Offsets(net, next.value);
        OffsetsAreBounded(net, next.value);
        assert os == [c.offset] + rest;
        forall k | 0 <= k < |os| ensures c.offset <= os[k] < MaxTotal {
          if k > 0 { assert os[k] == rest[k - 1]; }
        }
        forall k | 0 < k < |os| ensures os[k - 1] < os[k] {
          if k > 1 { assert os[k - 1] == rest[k - 2] && os[k] == rest[k - 1]; }
        }
      } else {
        assert os == [c.offset];
      }
    }
  }

  /** Each request after the first asks for the offset just past the results of the one before (app.py:195). */
  lemma {:induction false} OffsetsAdvanceByPage(net: BingNetwork, c: Cursor)
    requires Reachable(c)
    ensures forall k :: 0 <= k < |Offsets(net, c)| - 1 ==>
      && Results(net.search(Offsets(net, c)[k])).Some?
      && Offsets(net, c)[k + 1] == Offsets(net, c)[k] + |Results(net.search(Offsets(net, c)[k])).value|
    decreases MaxTotal - c.offset
  {
    var os := Offsets(net, c);
    if c.offset < c.total {
      OffsetsStep(net, c);
      var next := Next(c, net.search(c.offset));
      if next.Some? {
        var rest := Offsets(net, next.value);
        OffsetsAdvanceByPage(net, next.value);
        assert os == [c.offset] + rest;
        forall k | 0 <= k < |os| - 1
          ensures Results(net.search(os[k])).Some? && os[k + 1] == os[k] + |Results(net.search(os[k])).value|
        {
          if k > 0 { assert os[k] == rest[k - 1] && os[k + 1] == rest[k]; }
        }
      } else {
        assert os == [c.offset];
      }
    }
  }

  /**
   * The requests after the `k`-th are those from the cursor its reply
   * leaves: the next offset, with the total re-capped from that reply
   * (app.py:170, app.py:195).
   */
  lemma {:induction false} OffsetsResume(net: BingNetwork, c: Cursor, k: nat)
    requires Reachable(c) && k < |Offsets(net, c)| - 1
    ensures Results(net.search(Offsets(net, c)[k])).Some?
    ensures Offsets(net, c)[k + 1..] == Offsets(net, Cursor(Offsets(net, c)[k + 1], NewTotal(net.search(Offsets(net, c)[k]))))
    decreases k
  {
    var os := Offsets(net, c);
    assert c.offset < c.total;
    OffsetsStep(net, c);
    var next := Next(c, net.search(c.offset));
    assert next.Some?;
    var rest := Offsets(net, next.value);
    assert os == [c.offset] + rest;
    if k == 0 {
      assert os[1..] == rest;
    } else {
      OffsetsResume(net, next.value, k - 1);
      assert os[k] == rest[k - 1] && os[k + 1] == rest[k];
      assert os[k + 1..] == rest[k..];
    }
  }

  /**
   * The loop stops only for a reason the code names: the last offset
   * requested brought an error, no results, or results that reach the
   * total (app.py:149, 162-164, 168-170, 198-199).
   */
  lemma {:induction false} OffsetsEnd(net: BingNetwork, c: Cursor)
    requires Reachable(c) && c.offset < c.total
    ensures Offsets(net, c) != []
    ensures var last := Offsets(net, c)[|Offsets(net, c)| - 1];
      || Results(net.search(last)).None?
      || Results(net.search(last)) == Some([])
      || last + |Results(net.search(last)).value| >= NewTotal(net.search(last))
    decreases MaxTotal - c.offset
  {
    var os := Offsets(net, c);
    OffsetsStep(net, c);
    var next := Next(c, net.search(c.offset));
    if next.Some? {
      var rest := Offsets(net, next.value);
      assert os == [c.offset] + rest;
      if next.value.offset < next.value.total {
        OffsetsEnd(net, next.value);
        assert os[|os| - 1] == rest[|rest| - 1];
      } else {
        assert os == [c.offset];
      }
    } else {
      assert os == [c.offset];
    }
  }

  /** The texts one result is scanned for: its snippet, then its page's body unless it has no URL (app.py:173-187). */
  function ScannedTexts(net: BingNetwork, r: WebResult): seq<string> {
    var site := r.url.GetOr(NoSource);
    [r.snippet.GetOr("")] + (if site != NoSource then FetchedTexts(net.fetch(site)) else [])
  }

  /** The ledger after scanning the results `results` in order, starting from `l`. */
  function ScanAll(l: Ledger, net: BingNetwork, results: seq<WebResult>): Ledger
    decreases |results|
  {
    if results == [] then l
    else
      var r := results[|results| - 1];
      Harvest(ScanAll(l, net, results[..|results| - 1]), ScannedTexts(net, r), r.url.GetOr(NoSource))
  }

  /** Scanning one more result extends the ledger by that result's texts. */
  lemma ScanAllStep(l: Ledger, net: BingNetwork, results: seq<WebResult>, i: nat)
    requires i < |results|
    ensures ScanAll(l, net, results[..i + 1])
         == Harvest(ScanAll(l, net, results[..i]), ScannedTexts(net, results[i]), results[i].url.GetOr(NoSource))
  {
    assert results[..i + 1][..i] == results[..i];
  }

  /** The ledger after one pass: the page's results are scanned when the reply is accepted. */
  function PageLedger(l: Ledger, net: BingNetwork, reply: BingReply): Ledger {
    match Results(reply)
    case None => l
    case Some(results) => ScanAll(l, net, results)
  }

  /** The ledger after the whole loop from cursor `c` on. */
  function Crawled(l: Ledger, net: BingNetwork, c: Cursor): Ledger
    requires Reachable(c)
    decreases MaxTotal - c.offset
  {
    if c.offset >= c.total then l
    else
      var reply := net.search(c.offset);
      match Next(c, reply)
      case None => PageLedger(l, net, reply)
      case Some(c') => Crawled(PageLedger(l, net, reply), net, c')
  }

  class BingEmailScraper {
    const query: string
    const apiKey: string
    var emailSources: seq<EmailRecord>
    var processedEmails: set<string>
    /** Everything the worker has emitted or requested so far. */
    ghost var events: seq<Event>

    function Collected(): Ledger
      reads this`emailSources, this`processedEmails
    {
      Ledger(emailSources, processedEmails)
    }

    /** The de-duplication invariant, and every stored address matches the pattern in full. */
    ghost predicate Valid()
      reads this`emailSources, this`processedEmails
    {
      && Consistent(Collected())
      && forall k :: 0 <= k < |emailSources| ==> IsEmail(emailSources[k].address)
    }

    constructor (query: string, apiKey: string)
      ensures Valid()
      ensures this.query == query && this.apiKey == apiKey
      ensures emailSources == [] && processedEmails == {} && events == []
    {
      this.query := query;
      this.apiKey := apiKey;
      emailSources := [];
      processedEmails := {};
      events := [];
    }

    /**
     * `extract_emails` (app.py:125-134): store each match whose lower-cased
     * form is new, tagged with `sourceUrl`, and return how many were stored.
     * Unlike the search-API worker it emits nothing.
     */
    method ExtractEmails(text: string, sourceUrl: string) returns (newCount: nat)
      requires Valid()
      modifies this`emailSources, this`processedEmails
      ensures Valid()
      ensures Collected() == Extend(old(Collected()), FindAll(text), sourceUrl)
      ensures old(emailSources) <= emailSources
      ensures newCount == |emailSources| - |old(emailSources)|
    {
      var found := FindAll(text);
      ghost var start := Collected();
      newCount := 0;
      for i := 0 to |found|
        invariant Valid()
        invariant Collected() == Extend(start, found[..i], sourceUrl)
        invariant start.records <= emailSources
        invariant newCount == |emailSources| - |start.records|
      {
        ghost var prev := Collected();
        ExtendStep(start, found, i, sourceUrl);
        RecordKeepsConsistent(prev, found[i], sourceUrl);
        var email := found[i];
        var key := Lower(email);
        if key !in processedEmails {
          emailSources := emailSources + [EmailRecord(email, sourceUrl)];
          processedEmails := processedEmails + {key};
          newCount := newCount + 1;
        }
        assert Collected() == Record(prev, email, sourceUrl);
      }
      assert found[..|found|] == found;
    }

    /** `fetch_page_content` (app.py:136-143): the page body, or nothing when the request raised. */
    method FetchPageContent(net: BingNetwork, url: string) returns (content: Option<string>)
      modifies this`events
      ensures content == net.fetch(url)
      ensures events == old(events) + [PageRequest(url)] + (if content.None? then [FetchFailed(url)] else [])
    {
      events := events + [PageRequest(url)];
      content := net.fetch(url);
      if content.None? {
        events := events + [FetchFailed(url)];
      }
    }

    /** `extract_emails` on one text of a result, then the progress message if it stored anything (app.py:176-178, app.py:186-188). */
    method ScanText(text: string, site: string, origin: Origin)
      requires Valid()
      modifies this`emailSources, this`processedEmails, this`events
      ensures Valid()
      ensures Collected() == Extend(old(Collected()), FindAll(text), site)
      ensures old(emailSources) <= emailSources
      ensures events == old(events) + if |emailSources| > |old(emailSources)| then [Found(origin, |emailSources| - |old(emailSources)|, site)] else []
    {
      var count := ExtractEmails(text, site);
      if count > 0 {
        events := events + [Found(origin, count, site)];
      }
    }

    /** The detailed scan of a result's page (app.py:180-190): fetch it and scan its body if there is one. */
    method ScanFetchedPage(net: BingNetwork, site: string, ghost start: Ledger, ghost done: seq<string>)
      requires Valid() && site != NoSource
      requires Collected() == Harvest(start, done, site)
      modifies this`emailSources, this`processedEmails, this`events
      ensures Valid()
      ensures Collected() == Harvest(start, done + FetchedTexts(net.fetch(site)), site)
      ensures old(events) <= events
      ensures ScanEvents(events[|old(events)|..], site)
    {
      ghost var e0 := |events|;
      events := events + [DetailedScan(site)];
      var content := FetchPageContent(net, site);
      ScanStep(old(events), events, e0, site);
      if content.Some? && content.value != "" {
        ghost var before := events;
        ScanText(content.value, site, PageContent);
        ScanStep(before, events, e0, site);
        HarvestSnoc(start, done, content.value, site);
      } else {
        assert done + FetchedTexts(net.fetch(site)) == done;
      }
    }

    /** The body of the loop over one page's results (app.py:172-192). */
    method ScanResult(net: BingNetwork, result: WebResult)
      requires Valid()
      modifies this`emailSources, this`processedEmails, this`events
      ensures Valid()
      ensures Collected() == Harvest(old(Collected()), ScannedTexts(net, result), result.url.GetOr(NoSource))
      ensures old(emailSources) <= emailSources
      ensures old(events) <= events
      ensures ScanEvents(events[|old(events)|..], result.url.GetOr(NoSource))
    {
      var site := result.url.GetOr(NoSource);
      var snippet := result.snippet.GetOr("");
      ghost var start := Collected();
      ScanText(snippet, site, Snippet);
      assert ScanEvents(events[|old(events)|..], site);
      HarvestSnoc(start, [], snippet, site);
      if site != NoSource {
        ghost var before := events;
        ScanFetchedPage(net, site, start, [snippet]);
        ScanStep(before, events, |old(events)|, site);
      }
      HarvestAppends(start, ScannedTexts(net, result), site);
    }

    /** The loop over one page's results (app.py:172-192). */
    method ScanPage(net: BingNetwork, results: seq<WebResult>)
      requires Valid()
      modifies this`emailSources, this`processedEmails, this`events
      ensures Valid()
      ensures Collected() == ScanAll(old(Collected()), net, results)
      ensures old(emailSources) <= emailSources
      ensures old(events) <= events
      ensures PageEvents(events[|old(events)|..])
    {
      ghost var e0 := |events|;
      for i := 0 to |results|
        invariant Valid()
        invariant Collected() == ScanAll(old(Collected()), net, results[..i])
        invariant old(emailSources) <= emailSources
        invariant e0 <= |events| && events[..e0] == old(events)
        invariant PageEvents(events[e0..])
      {
        ghost var before := events;
        ScanAllStep(old(Collected()), net, results, i);
        ScanResult(net, results[i]);
        ScanIsPageEvents(events[|before|..], results[i].url.GetOr(NoSource));
        PageEventsExtend(before, events, e0);
      }
      assert results[..|results|] == results;
    }

    /**
     * One pass of the loop (app.py:150-203): request the page at the cursor's
     * offset, scan its results, and return the cursor to go on with, if any.
     */
    method Visit(net: BingNetwork, c: Cursor) returns (next: Option<Cursor>)
      requires Valid()
      modifies this`emailSources, this`processedEmails, this`events
      ensures Valid()
      ensures next == Next(c, net.search(c.offset))
      ensures Collected() == PageLedger(old(Collected()), net, net.search(c.offset))
      ensures old(emailSources) <= emailSources
      ensures old(events) <= events
      ensures OffsetsOf(events[|old(events)|..]) == [c.offset]
      ensures SkipsNoSource(events[|old(events)|..])
    {
      events := events + [ScanningOffset(c.offset)];
      next := Respond(net, c, net.search(c.offset));
      VisitTrace(old(events), events, c.offset);
    }

    /** What follows the request of a page (app.py:162-203): a reply is rejected or accepted. */
    method Respond(net: BingNetwork, c: Cursor, reply: BingReply) returns (next: Option<Cursor>)
      requires Valid()
      modifies this`emailSources, this`processedEmails, this`events
      ensures Valid()
      ensures next == Next(c, reply)
      ensures Collected() == PageLedger(old(Collected()), net, reply)
      ensures old(emailSources) <= emailSources
      ensures old(events) <= events
      ensures PageEvents(events[|old(events)|..])
    {
      ghost var e0 := |events|;
      assert events[e0..] == [];
      if Results(reply).None? {
        next := None;
        Reject(reply, e0);
      } else {
        next := Accept(net, c, reply);
      }
    }

    /**
     * A reply the loop accepts (app.py:168-197): re-cap the total, scan the
     * results, report the total and move the offset past them; a page
     * without results ends the loop.
     */
    method Accept(net: BingNetwork, c: Cursor, reply: BingReply) returns (next: Option<Cursor>)
      requires Valid() && Results(reply).Some?
      modifies this`emailSources, this`processedEmails, this`events
      ensures Valid()
      ensures next == Next(c, reply)
      ensures Collected() == ScanAll(old(Collected()), net, Results(reply).value)
      ensures old(emailSources) <= emailSources
      ensures old(events) < events && events[|events| - 1] == TotalSoFar(|emailSources|)
      ensures Results(reply).value == [] ==> events == old(events) + [TotalSoFar(|emailSources|)]
      ensures PageEvents(events[|old(events)|..])
    {
      var results := Results(reply).value;
      var total := NewTotal(reply);
      next := None;
      if results != [] {
        ScanPage(net, results);
        next := Some(Cursor(c.offset + |results|, total));
      } else {
        assert events[|old(events)|..] == [];
      }
      Emit(TotalSoFar(|emailSources|), |old(events)|);
    }

    /**
     * The message for a reply the loop does not accept (app.py:162-164,
     * app.py:198-203): the status code, the exception, or nothing when
     * `webPages` or `value` is missing.
     */
    method Reject(reply: BingReply, ghost e0: nat)
      requires Results(reply).None?
      requires e0 <= |events| && PageEvents(events[e0..])
      modifies this`events
      ensures events == old(events) + match reply
        case Unreachable => [RunError]
        case Reply(status, body) =>
          if status != 200 then [StatusError(status)] else if body.NotJson? then [RunError] else []
      ensures PageEvents(events[e0..])
    {
      match reply {
        case Unreachable =>
          Emit(RunError, e0);
        case Reply(status, body) =>
          if status != 200 {
            Emit(StatusError(status), e0);
          } else if body.NotJson? {
            Emit(RunError, e0);
          }
      }
    }

    /** Emit a message that requests nothing. */
    method Emit(e: Event, ghost e0: nat)
      requires !e.ScanningOffset? && !e.PageRequest? && !e.ProviderRequest?
      requires e0 <= |events| && PageEvents(events[e0..])
      modifies this`events
      ensures events == old(events) + [e]
      ensures PageEvents(events[e0..])
    {
      events := events + [e];
      PageEventsExtend(old(events), events, e0);
    }

    /**
     * `run` (app.py:145-206): request pages by offset while the offset is
     * below the total, then report and emit the list.
     */
    method Run(net: BingNetwork)
      requires Valid()
      modifies this`emailSources, this`processedEmails, this`events
      ensures Valid()
      ensures Collected() == Crawled(old(Collected()), net, Initial)
      ensures old(emailSources) <= emailSources
      ensures old(events) <= events
      ensures OffsetsOf(events[|old(events)|..]) == Offsets(net, Initial)
      ensures SkipsNoSource(events[|old(events)|..])
      ensures |events| >= 2 && events[|events| - 2..] == [Summary(Completed, |emailSources|), Finished(emailSources)]
    {
      ghost var e0 := |events|;
      ghost var start := Collected();
      var offset: nat, total: int := 0, DefaultTotal;
      var going := true;
      while going && offset < total
        invariant Valid()
        invariant Reachable(Cursor(offset, total))
        invariant start.records <= emailSources
        invariant e0 <= |events| && events[..e0] == old(events)
        invariant SkipsNoSource(events[e0..])
        invariant OffsetsOf(events[e0..]) + (if going then Offsets(net, Cursor(offset, total)) else []) == Offsets(net, Initial)
        invariant Crawled(start, net, Initial) == if going then Crawled(Collected(), net, Cursor(offset, total)) else Collected()
        decreases if going then |Offsets(net, Cursor(offset, total))| else 0
      {
        ghost var before := events;
        var next := Visit(net, Cursor(offset, total));
        RunStep(before, events, e0, Cursor(offset, total).offset);
        OffsetsStep(net, Cursor(offset, total));
        AppendAssoc(OffsetsOf(before[e0..]), [offset], if next.Some? then Offsets(net, next.value) else []);
        if next.Some? {
          offset, total := next.value.offset, next.value.total;
        } else {
          going := false;
        }
      }
      ghost var before := events;
      events := events + [Summary(Completed, |emailSources|), Finished(emailSources)];
      ClosingTrace(before, events, e0);
    }
  }

  /** The events of one result's scan are those of a page scan. */
  lemma ScanIsPageEvents(run: seq<Event>, site: string)
    requires ScanEvents(run, site)
    ensures PageEvents(run)
  {
  }

  /** One pass requests exactly its own offset, and no placeholder page. */
  lemma VisitTrace(before: seq<Event>, after: seq<Event>, offset: int)
    requires |before| < |after| && after[..|before| + 1] == before + [ScanningOffset(offset)]
    requires PageEvents(after[|before| + 1..])
    ensures OffsetsOf(after[|before|..]) == [offset]
    ensures SkipsNoSource(after[|before|..])
  {
    var tail := after[|before| + 1..];
    assert after[|before|..] == [ScanningOffset(offset)] + tail;
    OffsetsOfConcat([ScanningOffset(offset)], tail);
    PageEventsRequestNoOffset(tail);
    assert OffsetsOf([ScanningOffset(offset)]) == [offset] by {
      assert [ScanningOffset(offset)][..0] == [];
    }
    SkipsNoSourceConcat([ScanningOffset(offset)], tail);
  }

  /** One pass of the loop adds its own offset to the trace. */
  lemma RunStep(before: seq<Event>, after: seq<Event>, e0: nat, offset: int)
    requires e0 <= |before| && before <= after
    requires SkipsNoSource(before[e0..])
    requires OffsetsOf(after[|before|..]) == [offset] && SkipsNoSource(after[|before|..])
    ensures after[..e0] == before[..e0]
    ensures SkipsNoSource(after[e0..])
    ensures OffsetsOf(after[e0..]) == OffsetsOf(before[e0..]) + [offset]
  {
    var a, b := before[e0..], after[|before|..];
    assert after[e0..] == a + b;
    OffsetsOfConcat(a, b);
    SkipsNoSourceConcat(a, b);
  }

  /** The offsets from a cursor below the total: its own, then those from the next cursor, if any. */
  lemma OffsetsStep(net: BingNetwork, c: Cursor)
    requires Reachable(c) && c.offset < c.total
    ensures var next := Next(c, net.search(c.offset));
      Offsets(net, c) == [c.offset] + if next.Some? then Offsets(net, next.value) else []
  {
  }

  /** The closing messages request nothing. */
  lemma ClosingTrace(before: seq<Event>, after: seq<Event>, e0: nat)
    requires e0 <= |before| && |after| == |before| + 2 && after[..|before|] == before
    requires after[|before|].Summary? && after[|before| + 1].Finished?
    requires SkipsNoSource(before[e0..])
    ensures after[..e0] == before[..e0]
    ensures OffsetsOf(after[e0..]) == OffsetsOf(before[e0..])
    ensures SkipsNoSource(after[e0..])
  {
    var tail := after[|before|..];
    assert after[e0..] == before[e0..] + tail;
    PageEventsRequestNoOffset(tail);
    OffsetsOfConcat(before[e0..], tail);
    SkipsNoSourceConcat(before[e0..], tail);
  }
}
