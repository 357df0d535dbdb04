/**
 * What `extract_emails` does to the scraper's two collections, as a
 * specification on values (app.py:30-41 and app.py:125-134): the list of
 * `(email, source_url)` pairs and the set of lower-cased addresses already
 * seen.
 */
module Extraction {
  import opened Pattern

  /** One entry of `email_sources`: an address with the page it came from. */
  datatype EmailRecord = EmailRecord(address: string, sourceUrl: string)

  /** Python's `str.lower()` on one character of the pattern's ASCII alphabet. */
  function LowerChar(c: char): char {
    if 'A' <= c <= 'Z' then (c as int + 32) as char else c
  }

  /** `str.lower()` for the addresses the pattern admits, which are all ASCII. */
  function Lower(s: string): string {
    seq(|s|, k requires 0 <= k < |s| => LowerChar(s[k]))
  }

  /** The two collections `extract_emails` updates: `email_sources` and `processed_emails`. */
  datatype Ledger = Ledger(records: seq<EmailRecord>, seen: set<string>)

  /** The lower-cased addresses of a list of entries. */
  function Keys(records: seq<EmailRecord>): set<string> {
    set k | 0 <= k < |records| :: Lower(records[k].address)
  }

  /** No two entries are case variants of one address. */
  predicate Distinct(records: seq<EmailRecord>) {
    forall i, j :: 0 <= i < j < |records| ==> Lower(records[i].address) != Lower(records[j].address)
  }

  /** The de-duplication invariant: the set is exactly the keys of the list, and the list has no duplicates. */
  predicate Consistent(l: Ledger) {
    Distinct(l.records) && l.seen == Keys(l.records)
  }

  /** One pass of the loop body for the match `email`. */
  function Record(l: Ledger, email: string, url: string): Ledger {
    var key := Lower(email);
    if key in l.seen then l
    else Ledger(l.records + [EmailRecord(email, url)], l.seen + {key})
  }

  /** The loop over the matches `found`, in order. */
  function Extend(l: Ledger, found: seq<string>, url: string): Ledger
    decreases |found|
  {
    if found == [] then l
    else Record(Extend(l, found[..|found| - 1], url), found[|found| - 1], url)
  }

  /** One more match extends the loop by one pass. */
  lemma ExtendStep(l: Ledger, found: seq<string>, i: nat, url: string)
    requires i < |found|
    ensures Extend(l, found[..i + 1], url) == Record(Extend(l, found[..i], url), found[i], url)
  {
    assert found[..i + 1][..i] == found[..i];
  }

  /** The lower-cased forms of all matches. */
  function LowerAll(found: seq<string>): set<string> {
    set k | 0 <= k < |found| :: Lower(found[k])
  }

  /**
   * The match at index `k` is the first of its case variants in `found` and
   * none of them was seen before: it is the one that gets stored.
   */
  predicate FirstNew(found: seq<string>, seen: set<string>, k: nat)
    requires k < |found|
  {
    Lower(found[k]) !in seen && forall j :: 0 <= j < k ==> Lower(found[j]) != Lower(found[k])
  }

  /** The matches among the first `n` that are first and new, in match order. */
  function Selected(found: seq<string>, seen: set<string>, n: nat): seq<string>
    requires n <= |found|
  {
    if n == 0 then []
    else Selected(found, seen, n - 1) + (if FirstNew(found, seen, n - 1) then [found[n - 1]] else [])
  }

  /** Each address tagged with the page it came from. */
  function Tag(addresses: seq<string>, url: string): seq<EmailRecord> {
    seq(|addresses|, k requires 0 <= k < |addresses| => EmailRecord(addresses[k], url))
  }

  /**
   * The loop only appends: the stored entries are the old ones followed by
   * the first-seen new matches in match order, each tagged with `url`, and
   * the set gains the lower-cased form of every match.
   */
  lemma {:induction false} ExtendAppends(l: Ledger, found: seq<string>, url: string)
    ensures Extend(l, found, url).records == l.records + Tag(Selected(found, l.seen, |found|), url)
    ensures Extend(l, found, url).seen == l.seen + LowerAll(found)
    decreases |found|
  {
    if found != [] {
      var n := |found| - 1;
      var init := found[..n];
      ExtendAppends(l, init, url);
      var mid := Extend(l, init, url);
      LowerAllSnoc(found);
      SelectedPrefix(found, l.seen, n);
      FirstNewIsUnseen(found, l.seen, n);
      if Lower(found[n]) !in mid.seen {
        TagSnoc(Selected(found, l.seen, n), found[n], url);
      }
    }
  }

  /** A match is first and new exactly when its key is not yet in the set the loop has built up to it. */
  lemma FirstNewIsUnseen(found: seq<string>, seen: set<string>, n: nat)
    requires n < |found|
    ensures FirstNew(found, seen, n) <==> Lower(found[n]) !in seen + LowerAll(found[..n])
  {
    var init := found[..n];
    if Lower(found[n]) in LowerAll(init) {
      var k :| 0 <= k < |init| && Lower(found[n]) == Lower(init[k]);
      assert Lower(found[k]) == Lower(found[n]);
    } else {
      forall j | 0 <= j < n ensures Lower(found[j]) != Lower(found[n]) {
        assert Lower(init[j]) in LowerAll(init);
      }
    }
  }

  lemma LowerAllSnoc(found: seq<string>)
    requires found != []
    ensures LowerAll(found) == LowerAll(found[..|found| - 1]) + {Lower(found[|found| - 1])}
  {
    var n := |found| - 1;
    var init := found[..n];
    forall x | x in LowerAll(found) ensures x in LowerAll(init) + {Lower(found[n])} {
      var k :| 0 <= k < |found| && x == Lower(found[k]);
      if k < n { assert x == Lower(init[k]); }
    }
    forall x | x in LowerAll(init) ensures x in LowerAll(found) {
      var k :| 0 <= k < |init| && x == Lower(init[k]);
      assert x == Lower(found[k]);
    }
  }

  /** `Selected` looks only at the first `n` matches. */
  lemma {:induction false} SelectedPrefix(found: seq<string>, seen: set<string>, n: nat)
    requires n < |found|
    ensures Selected(found[..n], seen, n) == Selected(found, seen, n)
    decreases n
  {
    if n > 0 {
      SelectedPrefix(found, seen, n - 1);
      assert Selected(found[..n], seen, n - 1) == Selected(found[..n - 1], seen, n - 1) by {
        SelectedPrefix(found[..n], seen, n - 1);
        assert found[..n][..n - 1] == found[..n - 1];
      }
      assert FirstNew(found[..n], seen, n - 1) == FirstNew(found, seen, n - 1);
    }
  }

  lemma TagSnoc(addresses: seq<string>, a: string, url: string)
    ensures Tag(addresses + [a], url) == Tag(addresses, url) + [EmailRecord(a, url)]
  {
    assert |Tag(addresses + [a], url)| == |Tag(addresses, url) + [EmailRecord(a, url)]|;
  }

  /** One loop pass keeps the de-duplication invariant. */
  lemma RecordKeepsConsistent(l: Ledger, email: string, url: string)
    requires Consistent(l)
    ensures Consistent(Record(l, email, url))
  {
    var key := Lower(email);
    if key !in l.seen {
      var rs := l.records + [EmailRecord(email, url)];
      assert Keys(rs) == l.seen + {key} by {
        forall x | x in Keys(rs) ensures x in l.seen + {key} {
          var k :| 0 <= k < |rs| && x == Lower(rs[k].address);
          if k < |l.records| { assert x == Lower(l.records[k].address); }
        }
        forall x | x in l.seen ensures x in Keys(rs) {
          var k :| 0 <= k < |l.records| && x == Lower(l.records[k].address);
          assert x == Lower(rs[k].address);
        }
        assert key == Lower(rs[|l.records|].address);
      }
      forall i, j | 0 <= i < j < |rs| ensures Lower(rs[i].address) != Lower(rs[j].address) {
        if j == |l.records| {
          assert Lower(l.records[i].address) in Keys(l.records);
        }
      }
    }
  }

  /** The whole loop keeps the de-duplication invariant. */
  lemma {:induction false} ExtendKeepsConsistent(l: Ledger, found: seq<string>, url: string)
    requires Consistent(l)
    ensures Consistent(Extend(l, found, url))
    decreases |found|
  {
    if found != [] {
      var init := found[..|found| - 1];
      ExtendKeepsConsistent(l, init, url);
      RecordKeepsConsistent(Extend(l, init, url), found[|found| - 1], url);
    }
  }

  /** The loop never stores a string the pattern does not match in full. */
  lemma {:induction false} ExtendKeepsShape(l: Ledger, found: seq<string>, url: string)
    requires forall k :: 0 <= k < |l.records| ==> IsEmail(l.records[k].address)
    requires forall k :: 0 <= k < |found| ==> IsEmail(found[k])
    ensures forall k :: 0 <= k < |Extend(l, found, url).records| ==> IsEmail(Extend(l, found, url).records[k].address)
    decreases |found|
  {
    if found != [] {
      var init := found[..|found| - 1];
      ExtendKeepsShape(l, init, url);
    }
  }

  /** Matches whose case variants were all seen before change nothing. */
  lemma {:induction false} ExtendSeen(l: Ledger, found: seq<string>, url: string)
    requires forall k :: 0 <= k < |found| ==> Lower(found[k]) in l.seen
    ensures Extend(l, found, url) == l
    decreases |found|
  {
    if found != [] {
      ExtendSeen(l, found[..|found| - 1], url);
    }
  }

  /**
   * Idempotence: running the loop a second time over the same matches, with
   * any source URL, stores nothing and adds no key.
   */
  lemma ExtendIsIdempotent(l: Ledger, found: seq<string>, url: string, url': string)
    ensures Extend(Extend(l, found, url), found, url') == Extend(l, found, url)
  {
    ExtendAppends(l, found, url);
    var once := Extend(l, found, url);
    forall k | 0 <= k < |found| ensures Lower(found[k]) in once.seen {
      assert Lower(found[k]) in LowerAll(found);
    }
    ExtendSeen(once, found, url');
  }

  /** Extraction from several texts in turn, every entry tagged with the same `url`. */
  function Harvest(l: Ledger, texts: seq<string>, url: string): Ledger
    decreases |texts|
  {
    if texts == [] then l
    else Extend(Harvest(l, texts[..|texts| - 1], url), FindAll(texts[|texts| - 1]), url)
  }

  lemma HarvestSnoc(l: Ledger, texts: seq<string>, t: string, url: string)
    ensures Harvest(l, texts + [t], url) == Extend(Harvest(l, texts, url), FindAll(t), url)
  {
    assert (texts + [t])[..|texts|] == texts;
  }

  /** Entries past index `from` all carry `url`. */
  predicate TaggedFrom(records: seq<EmailRecord>, from: nat, url: string) {
    forall k :: from <= k < |records| ==> records[k].sourceUrl == url
  }

  /** The loop over one text's matches only appends entries tagged with `url`, and forgets no key. */
  lemma ExtendGrows(l: Ledger, found: seq<string>, url: string)
    ensures l.records <= Extend(l, found, url).records
    ensures TaggedFrom(Extend(l, found, url).records, |l.records|, url)
    ensures l.seen <= Extend(l, found, url).seen
  {
    ExtendAppends(l, found, url);
  }

  /**
   * Extraction over several texts only appends entries tagged with `url`,
   * and forgets no key.
   */
  lemma {:induction false} HarvestAppends(l: Ledger, texts: seq<string>, url: string)
    ensures l.records <= Harvest(l, texts, url).records
    ensures TaggedFrom(Harvest(l, texts, url).records, |l.records|, url)
    ensures l.seen <= Harvest(l, texts, url).seen
    decreases |texts|
  {
    if texts != [] {
      var mid := Harvest(l, texts[..|texts| - 1], url);
      HarvestAppends(l, texts[..|texts| - 1], url);
      ExtendGrows(mid, FindAll(texts[|texts| - 1]), url);
      var r := Harvest(l, texts, url).records;
      assert r[..|mid.records|] == mid.records;
      forall k | |l.records| <= k < |r| ensures r[k].sourceUrl == url {
        if k < |mid.records| { assert r[k] == mid.records[k]; }
      }
    }
  }

  /** The first address of a text naming one address twice, in two casings, separated by a space. */
  lemma FirstLayout()
    ensures Split("Jane.Doe@Example.COM jane.doe@example.com", 0, 8, 16, 20)
  {
    var s := "Jane.Doe@Example.COM jane.doe@example.com";
    forall k | 0 <= k < 8 ensures InClass(s[k], Local) {}
    forall k | 8 < k < 16 ensures InClass(s[k], Domain) {}
    forall k | 16 < k < 20 ensures InClass(s[k], Letter) {}
  }

  /** The second address of that text, which runs to its end. */
  lemma SecondLayout()
    ensures |"Jane.Doe@Example.COM jane.doe@example.com"| == 41
    ensures Split("Jane.Doe@Example.COM jane.doe@example.com", 21, 29, 37, 41)
  {
    var s := "Jane.Doe@Example.COM jane.doe@example.com";
    forall k | 21 <= k < 29 ensures InClass(s[k], Local) {}
    forall k | 29 < k < 37 ensures InClass(s[k], Domain) {}
    forall k | 37 < k < 41 ensures InClass(s[k], Letter) {}
  }

  lemma TwoCasingsHalves()
    ensures "Jane.Doe@Example.COM jane.doe@example.com"[..20] == "Jane.Doe@Example.COM"
    ensures "Jane.Doe@Example.COM jane.doe@example.com"[21..] == "jane.doe@example.com"
  {
  }

  /** The pattern finds both casings in that text, in order. */
  lemma TwoCasingsFound()
    ensures FindAll("Jane.Doe@Example.COM jane.doe@example.com") == ["Jane.Doe@Example.COM", "jane.doe@example.com"]
  {
    FirstLayout();
    SecondLayout();
    TwoAddressesFound("Jane.Doe@Example.COM jane.doe@example.com", 20, 8, 16, 29, 37);
    TwoCasingsHalves();
  }

  /** Of the two casings, in this order, only the first is stored. */
  lemma CasingsRecorded(url: string)
    ensures Extend(Ledger([], {}), ["Jane.Doe@Example.COM", "jane.doe@example.com"], url)
         == Ledger([EmailRecord("Jane.Doe@Example.COM", url)], {"jane.doe@example.com"})
  {
    var first, second := "Jane.Doe@Example.COM", "jane.doe@example.com";
    assert Lower(first) == second;
    assert Lower(second) == second;
    var found := [first, second];
    assert found[..1] == [first] && [first][..0] == [];
  }

  /**
   * First-seen casing: of two case variants in one text, both are matched,
   * but only the first is stored, with its own casing.
   */
  lemma FirstSeenCasing(url: string)
    ensures Extend(Ledger([], {}), FindAll("Jane.Doe@Example.COM jane.doe@example.com"), url)
         == Ledger([EmailRecord("Jane.Doe@Example.COM", url)], {"jane.doe@example.com"})
  {
    TwoCasingsFound();
    CasingsRecorded(url);
  }
}
