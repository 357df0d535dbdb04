/**
 * What a scraper run emits: the progress messages of `progress_update`, the
 * `current_results` and `finished` signals, and the network requests it
 * makes, as one trace of structured events (app.py:12-15, app.py:110-112).
 */
module Signals {
  import opened Optional
  import opened Extraction

  /** The placeholder `result.get("link", "No Source")` gives a result without a link (app.py:67, app.py:173). */
  const NoSource := "No Source"

  /** The two words of the closing message (app.py:106). */
  datatype Status = Completed | Stopped

  /** Where new addresses were found: the snippet, the fetched page, or the search API's copy of it. */
  datatype Origin = Snippet | PageContent | ProviderCopy

  datatype Event =
    | Stopping                                  // "Stopping the search process..."
    | ScanningPage(page: nat, url: string)      // "Scanning page n...", and the search request for `url`
    | ScanningOffset(offset: int)               // "Scanning Bing results (offset: n)...", and the request
    | Found(origin: Origin, count: nat, site: string)  // "Found n new emails from <origin>: site"
    | DetailedScan(site: string)                // "Performing detailed page scan: site"
    | PageRequest(site: string)                 // the GET of `fetch_page_content`
    | FetchFailed(site: string)
    | ProviderRequest(site: string)             // the search API's `fetch_page=site` request
    | ScanError                                 // "Error during page scan: ..."
    | Snapshot(records: seq<EmailRecord>)       // `current_results` after each new address
    | TotalSoFar(count: nat)                    // "Total n unique emails found. ..."
    | RunError                                  // "Error occurred: ..."
    | StatusError(code: int)                    // "Error: Bing API returned status code n"
    | Summary(status: Status, total: nat)       // "Search stopped!/completed! Total n ..." or "Scan completed! ..."
    | Finished(records: seq<EmailRecord>)       // the `finished` signal
  {
    /** The events that do work: a request to the network or a newly stored address. */
    predicate Acts() {
      ScanningPage? || ScanningOffset? || PageRequest? || ProviderRequest? || Snapshot?
    }
  }

  /**
   * Nothing acts in `run` unless the flag was up when it began and no
   * `Stopping` came before it.
   */
  predicate Quiet(run: seq<Event>, wasRunning: bool) {
    && (forall j :: 0 <= j < |run| && run[j].Acts() ==> wasRunning)
    && (forall i, j :: 0 <= i < j < |run| && run[i] == Stopping ==> !run[j].Acts())
  }

  /** No page fetch and no provider fetch is made for the "No Source" placeholder. */
  predicate SkipsNoSource(run: seq<Event>) {
    forall j :: 0 <= j < |run| && (run[j].PageRequest? || run[j].ProviderRequest?) ==> run[j].site != NoSource
  }

  /** The `current_results` signals emitted while `records` grew from its first `from` entries. */
  function Snapshots(records: seq<EmailRecord>, from: nat): seq<Event>
    requires from <= |records|
  {
    seq(|records| - from, k requires 0 <= k < |records| - from => Snapshot(records[..from + k + 1]))
  }

  lemma SnapshotsSnoc(records: seq<EmailRecord>, from: nat, r: EmailRecord)
    requires from <= |records|
    ensures Snapshots(records + [r], from) == Snapshots(records, from) + [Snapshot(records + [r])]
  {
    var rs := records + [r];
    var lhs, rhs := Snapshots(rs, from), Snapshots(records, from) + [Snapshot(rs)];
    assert |lhs| == |rhs|;
    forall k | 0 <= k < |lhs| ensures lhs[k] == rhs[k] {
      if k < |records| - from {
        assert rs[..from + k + 1] == records[..from + k + 1];
      } else {
        assert rs[..from + k + 1] == rs;
      }
    }
  }

  /**
   * The events of scanning one result whose link is `site`: no stop, and
   * requests only for `site`, which is never "No Source".
   */
  predicate ScanEvents(run: seq<Event>, site: string) {
    forall j :: 0 <= j < |run| ==>
      && run[j] != Stopping
      && !run[j].ScanningOffset?
      && !run[j].ScanningPage?
      && ((run[j].PageRequest? || run[j].ProviderRequest?) ==> run[j].site == site && site != NoSource)
  }

  /**
   * The events of `extract_emails` on one text while `records` grew from its
   * first `from` entries: the snapshots, then the "Found" message if
   * anything was stored.
   */
  function TextEvents(records: seq<EmailRecord>, from: nat, origin: Origin, site: string): seq<Event>
    requires from <= |records|
  {
    Snapshots(records, from) + if |records| > from then [Found(origin, |records| - from, site)] else []
  }

  /** The events of `extract_emails` and its message neither stop nor request anything. */
  lemma TextEventsAreSilent(records: seq<EmailRecord>, from: nat, origin: Origin, site: string)
    requires from <= |records|
    ensures ScanEvents(TextEvents(records, from, origin, site), site)
  {
  }

  lemma AppendAssoc<T>(a: seq<T>, b: seq<T>, c: seq<T>)
    ensures a + b + c == a + (b + c)
  {
  }

  /** The fetched body of a page, when the fetch succeeded and the body is not empty (`if page_content:`). */
  function FetchedTexts(page: Option<string>): seq<string> {
    if page.Some? && page.value != "" then [page.value] else []
  }

  /** A trace built of snapshots alone neither stops nor requests anything. */
  lemma SnapshotsAreSilent(records: seq<EmailRecord>, from: nat, site: string)
    requires from <= |records|
    ensures ScanEvents(Snapshots(records, from), site)
  {
  }

  /** Extending a scan trace by a piece that is itself a scan trace for the same link. */
  lemma ScanStep(before: seq<Event>, after: seq<Event>, e0: nat, site: string)
    requires e0 <= |before| <= |after| && after[..|before|] == before
    requires ScanEvents(before[e0..], site) && ScanEvents(after[|before|..], site)
    ensures ScanEvents(after[e0..], site)
    ensures before[..e0] <= after
  {
    var a, b := before[e0..], after[|before|..];
    assert after[e0..] == a + b;
    forall j | 0 <= j < |a + b|
      ensures (a + b)[j] != Stopping && !(a + b)[j].ScanningOffset? && !(a + b)[j].ScanningPage?
      ensures ((a + b)[j].PageRequest? || (a + b)[j].ProviderRequest?) ==> (a + b)[j].site == site && site != NoSource
    {
      if j >= |a| { assert (a + b)[j] == b[j - |a|]; }
    }
  }

  /** A trace without `Stopping` is quiet whenever the flag was up at its start. */
  lemma QuietWithoutStop(run: seq<Event>)
    requires Stopping !in run
    ensures Quiet(run, true)
  {
  }

  /** Quiet traces compose: the second part starts running only if the first neither began stopped nor stopped. */
  lemma QuietConcat(a: seq<Event>, b: seq<Event>, wasRunning: bool)
    requires Quiet(a, wasRunning)
    requires Quiet(b, wasRunning && Stopping !in a)
    ensures Quiet(a + b, wasRunning)
  {
    var ab := a + b;
    forall i, j | 0 <= i < j < |ab| && ab[i] == Stopping ensures !ab[j].Acts() {
      if j < |a| {
        assert ab[i] == a[i] && ab[j] == a[j];
      } else if i < |a| {
        assert a[i] == Stopping && ab[j] == b[j - |a|];
      } else {
        assert ab[i] == b[i - |a|] && ab[j] == b[j - |a|];
      }
    }
    forall j | 0 <= j < |ab| && ab[j].Acts() ensures wasRunning {
      if j >= |a| { assert ab[j] == b[j - |a|]; }
    }
  }

  lemma SkipsNoSourceConcat(a: seq<Event>, b: seq<Event>)
    requires SkipsNoSource(a) && SkipsNoSource(b)
    ensures SkipsNoSource(a + b)
  {
    var ab := a + b;
    forall j | 0 <= j < |ab| && (ab[j].PageRequest? || ab[j].ProviderRequest?) ensures ab[j].site != NoSource {
      if j >= |a| { assert ab[j] == b[j - |a|]; }
    }
  }

  /**
   * What one event may be, given the flag just before it: it acts only
   * while the flag is up, and it never requests "No Source".
   */
  predicate Allowed(e: Event, up: bool) {
    && (e.Acts() ==> up)
    && ((e.PageRequest? || e.ProviderRequest?) ==> e.site != NoSource)
  }

  /** A run, event by event: each event is allowed by the flag the events before it leave. */
  predicate Traced(run: seq<Event>, wasRunning: bool)
    decreases |run|
  {
    || run == []
    || (&& Traced(run[..|run| - 1], wasRunning)
        && Allowed(run[|run| - 1], wasRunning && Stopping !in run[..|run| - 1]))
  }

  /**
   * The facts a run's trace keeps: the flag is `running` at its end exactly
   * when it was up at its start and no `Stopping` came, and every event is
   * allowed by the flag before it (`TracedMeans` says what that amounts to).
   */
  predicate RunTrace(run: seq<Event>, wasRunning: bool, running: bool) {
    && running == (wasRunning && Stopping !in run)
    && Traced(run, wasRunning)
  }

  /**
   * What a traced run amounts to: nothing acts unless the flag was up at
   * its start and no `Stopping` came before it, and "No Source" is never
   * requested.
   */
  lemma {:induction false} TracedMeans(run: seq<Event>, wasRunning: bool)
    ensures Traced(run, wasRunning) <==> Quiet(run, wasRunning) && SkipsNoSource(run)
    decreases |run|
  {
    if run != [] {
      var init, e := run[..|run| - 1], run[|run| - 1];
      TracedMeans(init, wasRunning);
      assert run == init + [e];
      QuietSnoc(init, e, wasRunning);
      SkipsNoSourceSnoc(init, e);
    }
  }

  /** A quiet run stays quiet with one more event exactly when that event acts only while nothing has stopped it. */
  lemma QuietSnoc(init: seq<Event>, e: Event, wasRunning: bool)
    ensures Quiet(init + [e], wasRunning) <==> Quiet(init, wasRunning) && (e.Acts() ==> wasRunning && Stopping !in init)
  {
    var run := init + [e];
    assert run[|init|] == e;
    assert forall j :: 0 <= j < |init| ==> run[j] == init[j];
    if Quiet(init, wasRunning) && (e.Acts() ==> wasRunning && Stopping !in init) {
      forall i, j | 0 <= i < j < |run| && run[i] == Stopping ensures !run[j].Acts() {
        if j == |init| {
          assert init[i] == Stopping;
        }
      }
    }
    if Quiet(run, wasRunning) && e.Acts() {
      assert wasRunning;
    }
  }

  lemma SkipsNoSourceSnoc(init: seq<Event>, e: Event)
    ensures SkipsNoSource(init + [e]) <==>
      SkipsNoSource(init) && ((e.PageRequest? || e.ProviderRequest?) ==> e.site != NoSource)
  {
    var run := init + [e];
    assert run[|init|] == e;
    assert forall j :: 0 <= j < |init| ==> run[j] == init[j];
  }

  /** Run traces compose, the flag at the end of the first being the flag at the start of the second. */
  lemma RunTraceConcat(a: seq<Event>, b: seq<Event>, wasRunning: bool, mid: bool, running: bool)
    requires RunTrace(a, wasRunning, mid) && RunTrace(b, mid, running)
    ensures RunTrace(a + b, wasRunning, running)
  {
    TracedMeans(a, wasRunning);
    TracedMeans(b, mid);
    QuietConcat(a, b, wasRunning);
    SkipsNoSourceConcat(a, b);
    TracedMeans(a + b, wasRunning);
  }

  /** The same, for a trace `after` that extends `before`, both read from position `e0` on. */
  lemma RunTraceExtend(before: seq<Event>, after: seq<Event>, e0: nat, wasRunning: bool, mid: bool, running: bool)
    requires e0 <= |before| && before <= after
    requires RunTrace(before[e0..], wasRunning, mid) && RunTrace(after[|before|..], mid, running)
    ensures RunTrace(after[e0..], wasRunning, running)
    ensures after[..e0] == before[..e0]
  {
    assert after[e0..] == before[e0..] + after[|before|..];
    RunTraceConcat(before[e0..], after[|before|..], wasRunning, mid, running);
  }

  /** Scanning one result, begun with the flag up, leaves it up. */
  lemma ScanIsRunTrace(run: seq<Event>, site: string)
    requires ScanEvents(run, site)
    ensures RunTrace(run, true, true)
  {
    QuietWithoutStop(run);
    TracedMeans(run, true);
  }

  /** One event that is not `Stopping`, that acts only while the flag is up and requests no placeholder. */
  lemma OneEventRunTrace(e: Event, running: bool)
    requires e != Stopping && (e.Acts() ==> running)
    requires (e.PageRequest? || e.ProviderRequest?) ==> e.site != NoSource
    ensures RunTrace([e], running, running)
  {
    assert [e][..0] == [] && Traced([], running);
  }

  /** `Stopping` lowers the flag. */
  lemma StoppingRunTrace(wasRunning: bool)
    ensures RunTrace([Stopping], wasRunning, false)
  {
    assert [Stopping][..0] == [] && Traced([], wasRunning);
  }

  /** The offsets of the result pages requested in `run`, in order. */
  function OffsetsOf(run: seq<Event>): seq<int>
    decreases |run|
  {
    if run == [] then []
    else OffsetsOf(run[..|run| - 1]) + (if run[|run| - 1].ScanningOffset? then [run[|run| - 1].offset] else [])
  }

  lemma {:induction false} OffsetsOfConcat(a: seq<Event>, b: seq<Event>)
    ensures OffsetsOf(a + b) == OffsetsOf(a) + OffsetsOf(b)
    decreases |b|
  {
    if b != [] {
      var init := b[..|b| - 1];
      var last := if b[|b| - 1].ScanningOffset? then [b[|b| - 1].offset] else [];
      assert (a + b)[..|a + b| - 1] == a + init;
      assert (a + b)[|a + b| - 1] == b[|b| - 1];
      OffsetsOfConcat(a, init);
      assert OffsetsOf(a + b) == OffsetsOf(a + init) + last;
      assert OffsetsOf(b) == OffsetsOf(init) + last;
      assert OffsetsOf(a) + OffsetsOf(init) + last == OffsetsOf(a) + (OffsetsOf(init) + last);
    } else {
      assert a + b == a;
    }
  }

  /** The events of scanning a page of results: no page is requested, and "No Source" never is. */
  predicate PageEvents(run: seq<Event>) {
    && SkipsNoSource(run)
    && forall j :: 0 <= j < |run| ==> !run[j].ScanningOffset?
  }

  lemma {:induction false} PageEventsRequestNoOffset(run: seq<Event>)
    requires PageEvents(run)
    ensures OffsetsOf(run) == []
    decreases |run|
  {
    if run != [] {
      PageEventsRequestNoOffset(run[..|run| - 1]);
    }
  }

  lemma PageEventsConcat(a: seq<Event>, b: seq<Event>)
    requires PageEvents(a) && PageEvents(b)
    ensures PageEvents(a + b)
  {
    SkipsNoSourceConcat(a, b);
    forall j | 0 <= j < |a + b| ensures !(a + b)[j].ScanningOffset? {
      if j >= |a| { assert (a + b)[j] == b[j - |a|]; }
    }
  }

  /** The same, for a trace `after` that extends `before`, both read from position `e0` on. */
  lemma PageEventsExtend(before: seq<Event>, after: seq<Event>, e0: nat)
    requires e0 <= |before| && before <= after
    requires PageEvents(before[e0..]) && PageEvents(after[|before|..])
    ensures PageEvents(after[e0..])
    ensures after[..e0] == before[..e0]
  {
    assert after[e0..] == before[e0..] + after[|before|..];
    PageEventsConcat(before[e0..], after[|before|..]);
  }

  /** The search pages requested in `run`, in order. */
  function PagesOf(run: seq<Event>): seq<string>
    decreases |run|
  {
    if run == [] then []
    else PagesOf(run[..|run| - 1]) + (if run[|run| - 1].ScanningPage? then [run[|run| - 1].url] else [])
  }

  lemma {:induction false} PagesOfConcat(a: seq<Event>, b: seq<Event>)
    ensures PagesOf(a + b) == PagesOf(a) + PagesOf(b)
    decreases |b|
  {
    if b != [] {
      var init := b[..|b| - 1];
      var last := if b[|b| - 1].ScanningPage? then [b[|b| - 1].url] else [];
      assert (a + b)[..|a + b| - 1] == a + init;
      assert (a + b)[|a + b| - 1] == b[|b| - 1];
      PagesOfConcat(a, init);
      assert PagesOf(a + b) == PagesOf(a + init) + last;
      assert PagesOf(b) == PagesOf(init) + last;
      assert PagesOf(a) + PagesOf(init) + last == PagesOf(a) + (PagesOf(init) + last);
    } else {
      assert a + b == a;
    }
  }

  /** The pages requested from `e0` on, for a trace `after` that extends `before`. */
  lemma PagesExtend(before: seq<Event>, after: seq<Event>, e0: nat)
    requires e0 <= |before| && before <= after
    ensures PagesOf(after[e0..]) == PagesOf(before[e0..]) + PagesOf(after[|before|..])
    ensures after[..e0] == before[..e0]
  {
    assert after[e0..] == before[e0..] + after[|before|..];
    PagesOfConcat(before[e0..], after[|before|..]);
  }

  /** A trace without search-page events requests no search page. */
  lemma {:induction false} NoPagesRequested(run: seq<Event>)
    requires forall j :: 0 <= j < |run| ==> !run[j].ScanningPage?
    ensures PagesOf(run) == []
    decreases |run|
  {
    if run != [] {
      NoPagesRequested(run[..|run| - 1]);
    }
  }

  /** The events of scanning one result request no search page. */
  lemma ScanRequestsNoPage(run: seq<Event>, site: string)
    requires ScanEvents(run, site)
    ensures PagesOf(run) == []
  {
    NoPagesRequested(run);
  }

  /** A single search-page event requests exactly its page. */
  lemma OnePage(page: nat, url: string)
    ensures PagesOf([ScanningPage(page, url)]) == [url]
  {
    assert [ScanningPage(page, url)][..0] == [];
  }

  /** A page's trace: its `ScanningPage` request, then a trace that requests no page. */
  lemma PageOpens(before: seq<Event>, after: seq<Event>, page: nat, url: string, running: bool)
    requires |before| < |after| && after[|before|] == ScanningPage(page, url)
    requires RunTrace(after[|before| + 1..], true, running) && PagesOf(after[|before| + 1..]) == []
    ensures RunTrace(after[|before|..], true, running)
    ensures PagesOf(after[|before|..]) == [url]
  {
    var rest := after[|before| + 1..];
    assert after[|before|..] == [ScanningPage(page, url)] + rest;
    OneEventRunTrace(ScanningPage(page, url), true);
    RunTraceConcat([ScanningPage(page, url)], rest, true, true, running);
    PagesOfConcat([ScanningPage(page, url)], rest);
    OnePage(page, url);
  }

  /** A page's request appended to `before`, then a reply that requests no page. */
  lemma PageAnswered(before: seq<Event>, after: seq<Event>, page: nat, url: string, running: bool)
    requires before + [ScanningPage(page, url)] <= after
    requires RunTrace(after[|before| + 1..], true, running) && PagesOf(after[|before| + 1..]) == []
    ensures |before| < |after| && after[|before|] == ScanningPage(page, url)
    ensures RunTrace(after[|before|..], true, running)
    ensures PagesOf(after[|before|..]) == [url]
  {
    assert after[|before|] == (before + [ScanningPage(page, url)])[|before|];
    PageOpens(before, after, page, url, running);
  }

  /** The stop request lands at one of the flag reads numbered `lo` up to `hi`, `hi` excluded. */
  predicate StopIn(stopAt: Option<nat>, lo: nat, hi: nat) {
    stopAt.Some? && lo <= stopAt.value < hi
  }

  /** Adjacent windows of reads join. */
  lemma StopInSplit(stopAt: Option<nat>, lo: nat, mid: nat, hi: nat)
    requires lo <= mid <= hi
    ensures StopIn(stopAt, lo, hi) <==> StopIn(stopAt, lo, mid) || StopIn(stopAt, mid, hi)
  {
  }
}
