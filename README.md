# Email harvester: a verified model of the two scraping workers

`app.py` is a desktop tool that searches the web for a query and collects e-mail
addresses. It has two background workers:

- `EmailScraper` pages through Google results from a search API. It scans each
  result's snippet, the page the result links to, and the API's own copy of that
  page. The window can stop it through a flag.
- `BingEmailScraper` pages through Bing web-search results by offset. It scans each
  snippet and the linked page. It has no stop flag.

Both workers store each address once, ignoring letter case. They keep the casing of
the first occurrence and tag each address with the page it came from.

This project models the two workers as Dafny code and proves properties of the model:

- **The address pattern** `[a-zA-Z0-9._%+-]+@[a-zA-Z0-9.-]+\.[a-zA-Z]{2,}`, together
  with `re.findall`'s leftmost, greedy, non-overlapping scan. These are pure
  functions in `pattern.dfy`.
- **`extract_emails`**: the value-level specification of what it does to the two
  collections is in `extraction.dfy`. The in-place loop is a method of each worker
  class, proved against that specification.
- **Progress and result signals**: what the workers emit and request, recorded in a
  ghost event trace (`signals.dfy`). This trace carries two properties. Nothing
  acts after the read of the flag that sees the stop request, and the `No Source`
  placeholder is never fetched.
- **The Google worker**: the class `GoogleScraper.EmailScraper`, whose flag
  `isRunning` is read at the same points as in the source (`google.dfy`). Its page
  loop is proved against `GoogleScraper.Crawled`, a recursive function that gives,
  for a network and a stop request, the pages requested, the number of flag reads
  and the collections at the end.
- **The Bing worker**: the class `BingScraper.BingEmailScraper`, together with the
  cursor functions that specify its loop (`bing.dfy`).

The network is an input. A worker receives a `Network`/`BingNetwork` value made of
fixed functions:

- search reply by request URL (Google) or by offset (Bing);
- page body by page URL;
- the API's page copy by request URL.

A request that raises is modelled as `Raised`/`Unreachable`/`None`. The window's
stop request to the Google worker is the input `stopAt`: the index of the read of
`_is_running` at which `stop_scraping` has run.

## Model

| member | source | states |
|---|---|---|
| Pattern.IsEmail | app.py:32 | the definition of a whole-string match of the pattern: local characters, `@`, domain characters, `.` and two or more ASCII letters; `AddressShape` and `MatchAtIsSound` are about it |
| Pattern.RunEnd | app.py:32 | the end of the greedy run of one character class from a position, never before the position nor past the text; `RunEndIsMaximal` is about it |
| Pattern.LastTldStart | app.py:32 | the `.` that the domain run backtracks to, strictly inside the run when there is one; `LastTldStartIsSound` and `LastTldStartIsRightmost` are about it |
| Pattern.RunEndIsMaximal | app.py:32 | each greedy character-class run `[...]+` takes every character of its class and stops at the first that is not |
| Pattern.LastTldStartIsSound | app.py:32 | the position the domain run backtracks to is a `.` followed by two letters |
| Pattern.LastTldStartIsRightmost | app.py:32 | backtracking gives up as few domain characters as possible: no later position inside the run can start the `.` plus letters tail |
| Pattern.MatchAt | app.py:32 | the definition of the pattern's match at one position (greedy runs, backtracking to the last `.` plus two letters); `MatchAtIsSound` and `MatchAtIsLongest` are about it |
| Pattern.MatchAtIsSound | app.py:32 | a match reported at a position is matched by the whole pattern there |
| Pattern.MatchAtIsLongest | app.py:32 | if the pattern matches anything at a position, the reported match exists and is the longest one (greedy quantifiers) |
| Pattern.AddressShape | app.py:32 | every address matching the pattern has a non-empty local part of `[A-Za-z0-9._%+-]`, exactly one `@`, a domain of `[A-Za-z0-9.-]`, and ends in `.` plus at least two ASCII letters |
| Pattern.SliceIsEmail | app.py:32 | a matched slice, cut out of the text, matches the pattern in full |
| Pattern.Matches | app.py:32 | the spans of `findall` lie inside the text, each is the match at its start, and they are in order and do not overlap |
| Pattern.MatchesAreLeftmost | app.py:32 | the scan misses nothing: every position where a match could begin is inside a reported span |
| Pattern.FindAllFrom | app.py:32 | the strings `re.findall` returns from a position on, each one a whole match of the pattern; `FindAllFromSpans` ties them to `Matches` |
| Pattern.FindAll | app.py:32 | every string `findall` returns matches the pattern in full |
| Pattern.FindAllFromSpans | app.py:32 | the strings returned are exactly the texts of the scan's spans, in order |
| Pattern.DelimitedAddressMatches | app.py:32 | an address followed by the end of the text or by a character outside the domain class is matched in full at its start, and no further |
| Pattern.TwoAddressesFound | app.py:32 | a text made of two addresses separated by one character that belongs to neither the local nor the domain class yields exactly those two addresses, in order |
| Extraction.Lower | app.py:35-37 | the definition of `email.lower()` on the pattern's ASCII alphabet, the key of the seen set |
| Extraction.Selected | app.py:34-38 | the independent definition of the matches the loop records: those whose lower-cased form is in neither the seen set nor an earlier match, in match order; `ExtendAppends` proves `Extend` records exactly these |
| Extraction.Record | app.py:34-38 | the definition of one pass of the loop body: append the match with its URL and add its lower-cased form, unless that form is in the set; `RecordKeepsConsistent` is about it |
| Extraction.Extend | app.py:34-38 | the definition of the whole loop over the matches, in order; the `Extend…` lemmas below are about it |
| Extraction.ExtendAppends | app.py:33-41 | the loop only appends: the new list is the old one, then the first-seen new matches in match order, each tagged with the source URL; the set gains every match's lower-cased form |
| Extraction.FirstNewIsUnseen | app.py:34-35 | a match is stored exactly when its lower-cased form is neither in the set nor the form of an earlier match of the same text |
| Extraction.RecordKeepsConsistent | app.py:35-37 | one pass of the loop body keeps the de-duplication invariant: no two entries are case variants, and the set is exactly the lower-cased entries |
| Extraction.ExtendKeepsConsistent | app.py:33-38 | the whole loop keeps the de-duplication invariant |
| Extraction.ExtendKeepsShape | app.py:32-36 | the loop stores only strings that match the pattern in full |
| Extraction.ExtendSeen | app.py:34-35 | matches whose lower-cased forms are all in the set change nothing |
| Extraction.ExtendIsIdempotent | app.py:34-37 | running the loop again on the same matches, for any source URL, changes nothing |
| Extraction.ExtendGrows | app.py:34-38 | the list only grows, new entries carry the source URL, and no key is forgotten |
| Extraction.Harvest | app.py:70-91 | the definition of extraction from several texts in turn, every entry tagged with the same source URL; `HarvestAppends` is about it |
| Extraction.HarvestAppends | app.py:70-91 | scanning several texts of one result only appends entries tagged with that result's URL |
| Extraction.TwoCasingsFound | app.py:32 | `findall` on `Jane.Doe@Example.COM jane.doe@example.com` returns both casings, in text order |
| Extraction.FirstSeenCasing | app.py:32-37 | extracting from `Jane.Doe@Example.COM jane.doe@example.com` into empty collections stores `Jane.Doe@Example.COM` once, under the key `jane.doe@example.com`; the second casing is dropped |
| GoogleScraper.StartUrl | app.py:53 | the definition of the first search request's URL, with the query, the key and `num=100` |
| GoogleScraper.ProviderUrl | app.py:87 | the definition of the request for the search API's copy of a result page, with `fetch_page` set to the link |
| GoogleScraper.Live | app.py:56 | the definition of Python truthiness of `url`: present and not empty; `DeadStaysDead` and `Proceed` are about it |
| GoogleScraper.Site | app.py:67 | the definition of `result.get("link", "No Source")` |
| GoogleScraper.PageTexts | app.py:80-81 | the definition of the fetched body of a linked page, scanned only when the fetch succeeded and the body is not empty |
| GoogleScraper.CopyTexts | app.py:87-89 | the definition of the search API's copy of a linked page, scanned when that request succeeded |
| GoogleScraper.LinkedTexts | app.py:80-91 | the definition of a linked page's texts in scan order: the fetched body, then the API's copy |
| GoogleScraper.ScannedTexts | app.py:67-91 | the definition of one result's texts in scan order: the snippet ("" by default), then its linked page's texts unless the link is `No Source` |
| GoogleScraper.NextUrl | app.py:98 | the definition of the link that follows a page: the reply's `next`, none for an empty link or a raised request; `FollowedIsChain` is about the chain it builds |
| GoogleScraper.CrawlUrl | app.py:53-98 | the definition of the `k`-th link of the pagination chain from the first request; `DeadStaysDead` and `LiveBeforeEnd` are about it |
| GoogleScraper.ScanAll | app.py:63-95 | the definition of the collections after scanning a prefix of a page's results in order, each one's snippet then its linked texts |
| GoogleScraper.Scanned | app.py:64-65 | the definition of the results a page's loop scans: all of them, or those before the read the stop request lands at |
| GoogleScraper.PageReads | app.py:64-65 | the definition of that loop's reads: one per result scanned, plus the one that saw the flag down |
| GoogleScraper.ReplyReads | app.py:62-95 | the definition of the reads a reply's `organic_results` take: none for a raised request or a reply without them |
| GoogleScraper.ReplyLedger | app.py:62-95 | the definition of the collections after a reply's `organic_results` are scanned, as far as the stop request allows |
| GoogleScraper.NextLink | app.py:98 | the definition of the link a turn ends with: the reply's `next` when the read after the results sees the flag up, none otherwise or after a raised request |
| GoogleScraper.TurnEnd | app.py:56-104 | the definition of the reads made by the end of a turn: none for a raised request; otherwise the results' reads, the read of app.py:98, and the read of app.py:56 for a non-empty link |
| GoogleScraper.Walk | app.py:56-104 | the definition of the rest of the page loop from the `k`-th link: each turn's page, reads and collections, going on exactly when the link is non-empty and no stop landed in the turn |
| GoogleScraper.Crawled | app.py:53-104 | the definition of the whole page loop: the first read of app.py:56, then `Walk` from the first link if the flag was up and the stop did not land at that read |
| GoogleScraper.WalkAfterTurn | app.py:56-104 | the loop from a link is its turn's page followed by the loop from the next link when the turn goes on, and exactly that page otherwise |
| GoogleScraper.WalkReadsOn | app.py:56-104 | the loop never ends with fewer reads than it was entered with |
| GoogleScraper.WalkEndsAtStop | app.py:56-104 | once the stop request lands at one of the loop's reads, the loop makes at most one read after it |
| GoogleScraper.TurnEndsAtStop | app.py:64-98 | within one turn, the stop request is followed by at most one read: the read of app.py:98 after a stop during the results |
| GoogleScraper.WalkIgnoresLateStop | app.py:56-104 | a stop request that lands after the loop's last read leaves every page, read and collection as without one |
| GoogleScraper.TurnIgnoresLateStop | app.py:56-104 | a turn that ends by the read a stop lands at reads, links and ends as without a stop |
| GoogleScraper.CrawlEndsAtStop | app.py:53-104 | the page loop of `run` makes at most one read after the read the stop request lands at |
| GoogleScraper.CrawlIgnoresLateStop | app.py:53-104 | a stop request after the page loop's last read does not change the loop |
| GoogleScraper.StopDuringFirstPage | app.py:56-98 | a stop landing at the read before the `s`-th result of the first page ends the loop after that page: the `s - 1` results before it are scanned, and the reads end with the read of app.py:98 (`s + 2` reads in all) |
| GoogleScraper.FollowedIsChain | app.py:98 | the pages a run requested are the first links of the `serpapi_pagination.next` chain, in order |
| GoogleScraper.DeadStaysDead | app.py:56 | once the chain reaches an absent or empty link, it has no later link |
| GoogleScraper.LiveBeforeEnd | app.py:56 | every live link of the chain comes before its end |
| GoogleScraper.EmailScraper.constructor | app.py:17-23 | both collections start empty, the flag is up, nothing has been emitted |
| GoogleScraper.EmailScraper.StopScraping | app.py:25-28 | the flag goes down and "Stopping" is emitted |
| GoogleScraper.EmailScraper.ExtractEmails | app.py:30-41 | the collections become the specification's `Extend` of the old ones over `findall(text)`; the invariant is kept; the count returned is the number of entries appended; a `current_results` snapshot is emitted after each new entry |
| GoogleScraper.EmailScraper.FetchPageContent | app.py:43-50 | returns the page body, or none with a failure message when the request raised |
| GoogleScraper.EmailScraper.Poll | app.py:64-65 | a read of `_is_running`: the flag goes down exactly at the requested read, and is unchanged otherwise |
| GoogleScraper.EmailScraper.ScanText | app.py:71-73 | the collections become `Extend` of the old ones over `findall(text)`, tagged with the link; the events are exactly one snapshot per new entry, then "Found n new emails" with n the number stored, and that message only when n > 0; nothing is requested and nothing stops |
| GoogleScraper.EmailScraper.ScanFetchedPage | app.py:80-84 | a failed fetch or an empty body is skipped; otherwise the body is scanned, tagged with the result's URL |
| GoogleScraper.EmailScraper.ScanProviderCopy | app.py:86-95 | the API's copy is requested for the link; a failed request is followed by exactly "Error during page scan", and nothing is stored; otherwise the events are those of scanning the copy, and the collections are extended over its matches |
| GoogleScraper.EmailScraper.OpenLinkedPage | app.py:76-84 | "Performing detailed page scan" comes first; then the fetched body, if any, is scanned and the collections are extended over its matches |
| GoogleScraper.EmailScraper.ScanLinkedPage | app.py:76-95 | the linked page's body, then the API's copy, are scanned in that order; all requests name the link, and nothing stops |
| GoogleScraper.EmailScraper.ScanResult | app.py:67-95 | one result: its snippet, then its linked page unless its link is `No Source`, which is never fetched |
| GoogleScraper.EmailScraper.ScanNext | app.py:63-95 | the flag is read before the `i`-th result; if it is up, the collections become the specification's `ScanAll` over the first `i + 1` results, and otherwise nothing changes; afterwards the flag is up exactly when it was up at the start of the page and the stop request landed at none of its reads so far |
| GoogleScraper.EmailScraper.ScanPage | app.py:63-95 | the collections are `ScanAll` over a prefix of the results; the page makes one read per result scanned, plus one for a read that saw the flag down; the stop request landed at none of the scanned results' reads; a shorter prefix means the flag is down; no search page is requested |
| GoogleScraper.EmailScraper.ScanOrganic | app.py:62-95 | the collections are `ScanAll` over the results before the read the stop request lands at (all of them if it lands at none); the page makes exactly `PageReads` reads; the flag is down afterwards exactly when the stop landed at one of them; nothing acts after that read, and `No Source` is never fetched |
| GoogleScraper.EmailScraper.ScanReply | app.py:62-95 | for a reply that did not raise, its `organic_results`, if present, are scanned as `ScanOrganic` says; without them nothing is read or stored |
| GoogleScraper.EmailScraper.Tally | app.py:62-97 | the collections are `ReplyLedger` of the reply and the reads are exactly `ReplyReads`; the last event is "Total n unique emails" with n the current entry count; no search page is requested |
| GoogleScraper.EmailScraper.HandleReply | app.py:59-104 | the collections are `ReplyLedger` and the reads exactly `ReplyReads`; a raised request adds exactly "Error occurred", reads no flag and stores nothing; otherwise the last event is the running total with the current entry count |
| GoogleScraper.EmailScraper.ScanSearchPage | app.py:57-104 | the first event is "Scanning page n" with the request for this URL; the collections are `ReplyLedger` of that page's reply and the reads exactly `ReplyReads`; a raised request is followed by exactly "Error occurred"; otherwise the page ends with the running total; this URL is the only search page requested; the flag is down afterwards exactly when the stop request landed at one of the page's reads |
| GoogleScraper.EmailScraper.FollowLink | app.py:98 | the read of app.py:98 is made; the `next` link is taken exactly when the stop request has not landed at any read of the turn so far, this one included; one more read follows exactly when the link taken is non-empty; the loop goes on exactly when that link is non-empty and the flag is up |
| GoogleScraper.EmailScraper.Close | app.py:98-104 | a raised request ends the turn with no link and no further read; otherwise the link and the reads are those of `NextLink` and `TurnEnd` |
| GoogleScraper.EmailScraper.Proceed | app.py:56 | the flag is read, and the read counted, only for a non-empty link; the loop goes on exactly when the link is non-empty and the flag is up |
| GoogleScraper.EmailScraper.Advance | app.py:56-104 | one turn: the collections are `ReplyLedger` of the page's reply; the link is exactly `NextLink` and the reads end at exactly `TurnEnd`; the loop goes on exactly when that link is non-empty and the flag is up; this page is the only one requested; the flag is down exactly when the stop request landed at one of the turn's reads |
| GoogleScraper.EmailScraper.Turn | app.py:56-104 | the same turn inside the whole run: the flag is down exactly when it was down at the start or the stop landed at one of the run's reads so far |
| GoogleScraper.EmailScraper.Step | app.py:56-104 | the turn against the specification: if the loop's `Crawled` outcome was the pages so far followed by `Walk` from this link, it is afterwards the pages with this one followed by `Walk` from the next link, or exactly those pages with this turn's reads and collections when the loop ends |
| GoogleScraper.EmailScraper.Crawl | app.py:53-104 | the pages requested, the number of flag reads and the collections are exactly those of `Crawled` for this network, stop request and starting flag; the "Scanning page" requests are exactly `pages`, the first links of the pagination chain, in order; a run still going at the end has reached the chain's end; the flag is down exactly when it was down at the start or the stop request landed at one of the reads |
| GoogleScraper.EmailScraper.Conclude | app.py:106-108 | the last read decides the status: `completed` exactly when the flag was up and the stop request does not land at this read; then the summary with the entry count and `finished` with the list |
| GoogleScraper.EmailScraper.Report | app.py:107-108 | the last two events are exactly the summary with the status and entry count, then `finished` with the list; nothing acts |
| GoogleScraper.EmailScraper.Run | app.py:52-108 | the pages and the collections are those of `Crawled`, and the run reads the flag exactly once more than `Crawled` does; the status is `stopped` exactly when the flag was down at the start or the stop request landed at one of those reads; the flag agrees with the status; the last two signals are the summary and `finished` |
| Signals.FetchedTexts | app.py:80-81 | the definition of `if page_content:`: a fetched body is scanned only when the fetch succeeded and it is not empty |
| Signals.StopIn | app.py:56-106 | the definition of the stop request landing at one of a window of flag reads; every flag and status ensures of both workers is stated with it |
| Signals.TracedMeans | app.py:56-98 | a trace allowed event by event is exactly one in which nothing acts unless the flag was up at its start and no `Stopping` came before, and no request names `No Source` |
| BingScraper.Results | app.py:162-169 | the definition of the `value` list of a reply the loop accepts: status 200, a JSON body, and `webPages` with `value` present; none otherwise |
| BingScraper.NewTotal | app.py:170 | the definition of `min(totalEstimatedMatches or 50, 200)` for an accepted reply |
| BingScraper.ScannedTexts | app.py:172-187 | the definition of one result's texts in scan order: the snippet ("" by default), then its page's body unless the URL is `No Source` |
| BingScraper.ScanAll | app.py:172-193 | the definition of the collections after scanning a page's results in order, each one tagged with its URL; `BingEmailScraper.ScanPage` is proved against it |
| BingScraper.PageLedger | app.py:162-195 | the definition of the collections after one pass: the page's results scanned when the reply is accepted, unchanged otherwise |
| BingScraper.NextAsWritten | app.py:168-199 | the definition of the code's step: a reply without `webPages`/`value` or a failed request ends the loop; otherwise the offset grows by the page's result count and the total becomes the capped estimate, and the loop goes on while the offset is below it |
| BingScraper.PassesAsWritten | app.py:149-199 | the definition of `n` passes of the loop with the code's step; `EmptyPageSpins` is about it |
| BingScraper.Next | app.py:168-199 | a pass that continues moves the offset strictly forward and caps the total at 200 |
| BingScraper.NextMatchesAsWritten | app.py:195 | the corrected step differs from the code's only on a page whose `value` list is empty |
| BingScraper.EmptyPageSpins | app.py:149-195 | as written, a service that always answers with an empty `value` list keeps the loop at offset 0 for any number of passes |
| BingScraper.EmptyPageEnds | app.py:149-195 | with the corrected step, the same service gets one request |
| BingScraper.OffsetsAreBounded | app.py:149-195 | the offsets requested rise strictly and stay below 200, so the loop makes at most 200 requests |
| BingScraper.OffsetsAdvanceByPage | app.py:195 | each requested offset is the previous one plus the previous page's result count |
| BingScraper.OffsetsEnd | app.py:149-199 | the loop ends after an error or missing `webPages`/`value`, after an empty page, or once the offset reaches the total |
| BingScraper.OffsetsResume | app.py:168-195 | after any request but the last, the reply had results, and the requests that follow are exactly those of a loop started at the next offset with the total that reply set |
| BingScraper.Offsets | app.py:149-203 | the definition of the offsets the corrected loop requests, in order; `OffsetsAreBounded`, `OffsetsAdvanceByPage`, `OffsetsEnd` and `OffsetsResume` are about it |
| BingScraper.Crawled | app.py:149-203 | the definition of the collections after the corrected loop, page by page over those offsets; `BingEmailScraper.Run` is proved against it |
| BingScraper.BingEmailScraper.constructor | app.py:114-123 | both collections start empty |
| BingScraper.BingEmailScraper.ExtractEmails | app.py:125-134 | the same update as the Google worker's, with no snapshot signal |
| BingScraper.BingEmailScraper.FetchPageContent | app.py:136-143 | returns the page body, or none with a failure message when the request raised |
| BingScraper.BingEmailScraper.ScanText | app.py:176-179 | extraction from one text; the "Found" message is emitted exactly when something was stored |
| BingScraper.BingEmailScraper.ScanFetchedPage | app.py:181-193 | the detailed scan: a failed fetch or an empty body is skipped, otherwise the body is scanned |
| BingScraper.BingEmailScraper.ScanResult | app.py:172-193 | one result: its snippet, then its page unless its URL is `No Source`, which is never fetched |
| BingScraper.BingEmailScraper.ScanPage | app.py:172-193 | the collections are those after scanning all the page's results in order |
| BingScraper.BingEmailScraper.Accept | app.py:168-197 | an accepted reply: its results are scanned, the last event is "Total n unique emails" with the current entry count (the only event for an empty page), and the cursor moves as the corrected step says |
| BingScraper.BingEmailScraper.Respond | app.py:162-203 | a reply is rejected or accepted; the collections become the page's ledger, and the next cursor is the corrected step's |
| BingScraper.BingEmailScraper.Reject | app.py:162-203 | a rejected reply: a status error, an exception message, or silence when `webPages`/`value` is missing |
| BingScraper.BingEmailScraper.Visit | app.py:150-203 | one pass requests exactly its own offset; the collections become the page's ledger; the next cursor is the corrected step's |
| BingScraper.BingEmailScraper.Run | app.py:145-206 | the offsets requested are exactly `Offsets(Initial)`; the collections are the whole crawl's ledger; `No Source` is never fetched; the run ends with the summary and `finished` |

## Left out

- Qt threads and signals are not modelled as concurrency. Messages and signals become a ghost event trace. The stop request from the window thread is modelled as an input that lands at one chosen read of the flag.
- `time.sleep` (app.py:100, app.py:197) is left out. It has no logical effect.
- `MainWindow` and `save_results` (app.py:208-398) are left out: UI wiring and file export.
- `requests` and `response.json()` are left out. Every reply is an input value, and a reply that raises or is not JSON is one case of that value.
- Python's `str(page_data)` (app.py:89) is opaque text: the API's page copy is given directly as the string scanned.
- A JSON `null` field is read as if the field were missing, which is not what the code does with it:
  - a `null` snippet makes `re.findall` (app.py:32) raise. In Google this happens at app.py:71, outside the inner handler, so the run ends with "Error occurred". In Bing the outer handler at app.py:201-203 ends the run the same way. The model scans "" and goes on;
  - a `null` link or URL is not "No Source": the code tries to fetch it, asks the search API for `fetch_page=None`, and tags what it finds with `None`. The model treats it as "No Source" and scans only the snippet;
  - a `null` `totalEstimatedMatches` makes `min` raise at app.py:170, so the Bing run ends with "Error occurred". The model uses 50.
- The text of each progress message is not modelled, only its kind and its numbers.
- `Extraction.Lower` lower-cases ASCII only. The pattern admits only ASCII, so this is exact for every stored address.
- `current_results` emits the list object itself, which later appends change (aliasing). The model records a copy of the list at each emission.
- Bing's inner "Error during page scan" handler (app.py:191-193) cannot fire in the model: `fetch_page_content` catches its own errors, and extraction cannot raise.
- GoogleScraper.EmailScraper.Crawl: requires the pagination chain to end or a stop to be requested. Without either, the source itself loops forever, following `next` links.
- The Google worker follows `next` even when a page has no `organic_results`. The model does this too.
- The Bing worker has no cancellation. The window's stop button calls a method that this class does not have.

## Findings

| source | as written | input that shows it | evidently intended | confidence | as-written member | corrected member |
|---|---|---|---|---|---|---|
| app.py:195 | `offset += len(results)` also runs when `value` is an empty list, so the next request repeats the same offset while `offset < total_results` | every reply is status 200 with `webPages.value == []` and `totalEstimatedMatches == 100`: the offset stays 0 and the total 100 on every pass | a page without results ends the loop, like a missing `value` does | not executed | BingScraper.EmptyPageSpins | BingScraper.Next |

The model's Bing loop uses the corrected step. `BingScraper.NextAsWritten` is the
code's step, and `BingScraper.OffsetsAreBounded` proves the corrected loop makes at
most 200 requests.
