/**
 * The address pattern `[a-zA-Z0-9._%+-]+@[a-zA-Z0-9.-]+\.[a-zA-Z]{2,}` and
 * what Python's `re.findall` returns for it (app.py:32 and app.py:127):
 * the non-overlapping matches, scanned left to right, each one the match a
 * backtracking engine finds first at its start position.
 */
module Pattern {
  import opened Optional

  predicate IsAsciiLetter(c: char) { 'a' <= c <= 'z' || 'A' <= c <= 'Z' }

  predicate IsDigit(c: char) { '0' <= c <= '9' }

  /** The class `[a-zA-Z0-9._%+-]` of the local part. */
  predicate IsLocalChar(c: char) {
    IsAsciiLetter(c) || IsDigit(c) || c == '.' || c == '_' || c == '%' || c == '+' || c == '-'
  }

  /** The class `[a-zA-Z0-9.-]` of the domain. */
  predicate IsDomainChar(c: char) {
    IsAsciiLetter(c) || IsDigit(c) || c == '.' || c == '-'
  }

  /** The three character classes the pattern uses. */
  datatype CharClass = Local | Domain | Letter

  predicate InClass(c: char, cls: CharClass) {
    match cls
    case Local => IsLocalChar(c)
    case Domain => IsDomainChar(c)
    case Letter => IsAsciiLetter(c)
  }

  /**
   * The slice `s[i..e]` splits into a local part `s[i..at]`, the `@`, a
   * domain run `s[at + 1..dot]`, the `.` and a final run of two or more
   * letters.
   */
  predicate Split(s: string, i: nat, at: nat, dot: nat, e: nat) {
    && i < at && at + 1 < dot && dot + 2 < e <= |s|
    && s[at] == '@' && s[dot] == '.'
    && (forall k :: i <= k < at ==> InClass(s[k], Local))
    && (forall k :: at < k < dot ==> InClass(s[k], Domain))
    && (forall k :: dot < k < e ==> InClass(s[k], Letter))
  }

  /** The whole pattern matches the slice `s[i..e]`. */
  ghost predicate EmailAt(s: string, i: nat, e: nat) {
    exists at, dot :: Split(s, i, at, dot, e)
  }

  /** The whole pattern matches all of `m`. */
  ghost predicate IsEmail(m: string) {
    EmailAt(m, 0, |m|)
  }

  /** The end of the longest run of characters of class `cls` that starts at `i`. */
  function RunEnd(s: string, i: nat, cls: CharClass): (e: nat)
    requires i <= |s|
    ensures i <= e <= |s|
    decreases |s| - i
  {
    if i == |s| || !InClass(s[i], cls) then i else RunEnd(s, i + 1, cls)
  }

  /** `RunEnd` is the end of the run, and the run cannot be extended. */
  lemma {:induction false} RunEndIsMaximal(s: string, i: nat, cls: CharClass)
    requires i <= |s|
    ensures forall k :: i <= k < RunEnd(s, i, cls) ==> InClass(s[k], cls)
    ensures RunEnd(s, i, cls) < |s| ==> !InClass(s[RunEnd(s, i, cls)], cls)
    decreases |s| - i
  {
    if i < |s| && InClass(s[i], cls) {
      RunEndIsMaximal(s, i + 1, cls);
    }
  }

  /** A run that is known to reach `e` ends there or later. */
  lemma {:induction false} RunReaches(s: string, j: nat, cls: CharClass, e: nat)
    requires j <= e <= |s|
    requires forall k :: j <= k < e ==> InClass(s[k], cls)
    ensures e <= RunEnd(s, j, cls)
    decreases e - j
  {
    if j < e {
      RunReaches(s, j + 1, cls, e);
    }
  }

  /** A run that is known to reach `e`, where a character outside the class stands, ends there. */
  lemma RunStops(s: string, j: nat, cls: CharClass, e: nat)
    requires j <= e < |s|
    requires forall k :: j <= k < e ==> InClass(s[k], cls)
    requires !InClass(s[e], cls)
    ensures RunEnd(s, j, cls) == e
  {
    RunReaches(s, j, cls, e);
    RunEndIsMaximal(s, j, cls);
  }

  /** A top-level domain `\.[a-zA-Z]{2,}` can begin at `k`. */
  predicate TldStart(s: string, k: nat) {
    k + 2 < |s| && s[k] == '.' && IsAsciiLetter(s[k + 1]) && IsAsciiLetter(s[k + 2])
  }

  /**
   * The right-most `k` with `lo < k < hi` where a top-level domain can begin:
   * the first position that backtracking out of the greedy run
   * `[a-zA-Z0-9.-]+` (which started at `lo` and ran to `hi`) accepts.
   */
  function LastTldStart(s: string, lo: nat, hi: nat): (d: Option<nat>)
    ensures d.Some? ==> lo < d.value < hi
    decreases hi
  {
    if hi <= lo + 1 then None
    else if TldStart(s, hi - 1) then Some(hi - 1)
    else LastTldStart(s, lo, hi - 1)
  }

  /** What `LastTldStart` finds is a place where a top-level domain begins. */
  lemma {:induction false} LastTldStartIsSound(s: string, lo: nat, hi: nat)
    ensures LastTldStart(s, lo, hi).Some? ==> TldStart(s, LastTldStart(s, lo, hi).value)
    decreases hi
  {
    if hi > lo + 1 && !TldStart(s, hi - 1) {
      LastTldStartIsSound(s, lo, hi - 1);
    }
  }

  /** No place where a top-level domain begins lies to the right of what `LastTldStart` finds. */
  lemma {:induction false} LastTldStartIsRightmost(s: string, lo: nat, hi: nat, t: nat)
    requires lo < t < hi && TldStart(s, t)
    ensures LastTldStart(s, lo, hi).Some? && t <= LastTldStart(s, lo, hi).value
    decreases hi
  {
    if t < hi - 1 && !TldStart(s, hi - 1) {
      LastTldStartIsRightmost(s, lo, hi - 1, t);
    }
  }

  /**
   * Where the match the regular-expression engine finds at `i` ends, if
   * there is one. `[a-zA-Z0-9._%+-]+` runs greedily and must stop right
   * before an `@` (giving characters back cannot help: none of them is `@`);
   * the domain run then gives characters back up to the right-most `.`
   * followed by two letters, and the final letter run is greedy.
   */
  function MatchAt(s: string, i: nat): (e: Option<nat>)
    requires i <= |s|
    ensures e.Some? ==> i < e.value <= |s|
  {
    var at := RunEnd(s, i, Local);
    if at == i || at == |s| || s[at] != '@' then None
    else
      var m := RunEnd(s, at + 1, Domain);
      match LastTldStart(s, at + 1, m)
      case None => None
      case Some(d) => Some(RunEnd(s, d + 1, Letter))
  }

  /** Every match the engine reports is a slice the pattern matches. */
  lemma MatchAtIsSound(s: string, i: nat)
    requires i <= |s| && MatchAt(s, i).Some?
    ensures EmailAt(s, i, MatchAt(s, i).value)
  {
    var at := RunEnd(s, i, Local);
    RunEndIsMaximal(s, i, Local);
    var hi := RunEnd(s, at + 1, Domain);
    RunEndIsMaximal(s, at + 1, Domain);
    var d := LastTldStart(s, at + 1, hi).value;
    LastTldStartIsSound(s, at + 1, hi);
    var e := RunEnd(s, d + 1, Letter);
    RunEndIsMaximal(s, d + 1, Letter);
    assert InClass(s[d + 1], Letter) && InClass(s[d + 2], Letter);
    assert d + 2 < e;
    assert MatchAt(s, i) == Some(e);
    assert Split(s, i, at, d, e);
  }

  /** The parts of a slice that the pattern matches. */
  lemma Anatomy(s: string, i: nat, e: nat) returns (at: nat, t: nat)
    requires EmailAt(s, i, e)
    ensures Split(s, i, at, t, e)
  {
    at, t :| Split(s, i, at, t, e);
  }

  /**
   * The shape of every address the pattern admits: a non-empty local part,
   * exactly one `@`, and a domain of domain characters that ends in a `.`
   * followed by two or more letters.
   */
  lemma AddressShape(m: string) returns (at: nat, dot: nat)
    requires IsEmail(m)
    ensures 0 < at < dot < |m| - 2 && m[at] == '@' && m[dot] == '.'
    ensures forall k :: 0 <= k < |m| && m[k] == '@' ==> k == at
    ensures forall k :: 0 <= k < at ==> IsLocalChar(m[k])
    ensures forall k :: at < k < |m| ==> IsDomainChar(m[k])
    ensures forall k :: dot < k < |m| ==> IsAsciiLetter(m[k])
  {
    at, dot := Anatomy(m, 0, |m|);
  }

  /** A match, cut out of the text, is an address on its own. */
  lemma SliceIsEmail(s: string, i: nat, e: nat)
    requires i <= e <= |s| && EmailAt(s, i, e)
    ensures IsEmail(s[i..e])
  {
    var at, t := Anatomy(s, i, e);
    var m := s[i..e];
    assert i <= at;
    assert m[at - i] == '@' && m[t - i] == '.';
    assert forall k :: 0 <= k < at - i ==> m[k] == s[k + i];
    assert forall k :: at - i < k < t - i ==> m[k] == s[k + i];
    assert forall k :: t - i < k < |m| ==> m[k] == s[k + i];
    assert Split(m, 0, at - i, t - i, |m|);
  }

  lemma MatchAtUnfold(s: string, i: nat, at: nat, d: nat)
    requires i < at < |s| && RunEnd(s, i, Local) == at && s[at] == '@'
    requires LastTldStart(s, at + 1, RunEnd(s, at + 1, Domain)) == Some(d)
    ensures MatchAt(s, i) == Some(RunEnd(s, d + 1, Letter))
  {
  }

  /**
   * An address standing on its own is matched whole: when `s[i..e]` splits
   * as the pattern demands and the character after it (if any) cannot
   * continue the domain, the engine's match at `i` ends exactly at `e`.
   */
  lemma DelimitedAddressMatches(s: string, i: nat, at: nat, dot: nat, e: nat)
    requires Split(s, i, at, dot, e)
    requires e == |s| || !InClass(s[e], Domain)
    ensures MatchAt(s, i) == Some(e)
  {
    RunStops(s, i, Local, at);
    DomainRunEnds(s, at, dot, e);
    LastTldStartIsRightmost(s, at + 1, e, dot);
    LastTldStartIsSound(s, at + 1, e);
    assert LastTldStart(s, at + 1, e) == Some(dot);
    MatchAtUnfold(s, i, at, dot);
  }

  /** The domain run and the final letter run both end where the address does. */
  lemma DomainRunEnds(s: string, at: nat, dot: nat, e: nat)
    requires at + 1 < dot && dot + 2 < e <= |s| && s[dot] == '.'
    requires forall k :: at < k < dot ==> InClass(s[k], Domain)
    requires forall k :: dot < k < e ==> InClass(s[k], Letter)
    requires e == |s| || !InClass(s[e], Domain)
    ensures RunEnd(s, at + 1, Domain) == e && RunEnd(s, dot + 1, Letter) == e
  {
    assert forall k :: at + 1 <= k < e ==> InClass(s[k], Domain);
    if e < |s| {
      RunStops(s, at + 1, Domain, e);
      RunStops(s, dot + 1, Letter, e);
    } else {
      RunReaches(s, at + 1, Domain, e);
      RunReaches(s, dot + 1, Letter, e);
    }
  }

  /**
   * Two addresses separated by one character that belongs to neither the
   * local nor the domain class are found as exactly those two, in order.
   */
  lemma TwoAddressesFound(s: string, gap: nat, at: nat, dot: nat, at': nat, dot': nat)
    requires Split(s, 0, at, dot, gap) && Split(s, gap + 1, at', dot', |s|)
    requires !InClass(s[gap], Domain) && !InClass(s[gap], Local)
    ensures FindAll(s) == [s[..gap], s[gap + 1..]]
  {
    DelimitedAddressMatches(s, 0, at, dot, gap);
    DelimitedAddressMatches(s, gap + 1, at', dot', |s|);
    FindTwo(s, gap);
  }

  /** The scan over a text with a match at 0 up to `gap`, none at `gap` and one from `gap + 1` to the end. */
  lemma FindTwo(s: string, gap: nat)
    requires gap < |s| && MatchAt(s, 0) == Some(gap) && MatchAt(s, gap + 1) == Some(|s|)
    requires !InClass(s[gap], Local)
    ensures FindAll(s) == [s[..gap], s[gap + 1..]]
  {
    assert FindAllFrom(s, |s|) == [];
    assert FindAllFrom(s, gap + 1) == [s[gap + 1..|s|]] + FindAllFrom(s, |s|);
    assert MatchAt(s, gap) == None;
    assert FindAllFrom(s, gap) == FindAllFrom(s, gap + 1);
    assert FindAllFrom(s, 0) == [s[0..gap]] + FindAllFrom(s, gap);
    assert s[0..gap] == s[..gap] && s[gap + 1..|s|] == s[gap + 1..];
  }

  /**
   * No match is missed and none is cut short: wherever the pattern matches a
   * slice `s[i..e']`, the engine finds a match at `i`, and it ends at `e'` or
   * later.
   */
  lemma MatchAtIsLongest(s: string, i: nat, e': nat)
    requires EmailAt(s, i, e')
    ensures MatchAt(s, i).Some? && e' <= MatchAt(s, i).value
  {
    var at, t := RunsOfMatch(s, i, e');
    var d := LongestParts(s, i, e', at, t);
    MatchAtUnfold(s, i, at, d);
  }

  /** Where the domain run gives back to, and how far the final letter run then reaches. */
  lemma LongestParts(s: string, i: nat, e': nat, at: nat, t: nat) returns (d: nat)
    requires at + 1 < t && t + 2 < e' <= |s| && TldStart(s, t)
    requires e' <= RunEnd(s, at + 1, Domain)
    requires e' <= RunEnd(s, t + 1, Letter)
    ensures LastTldStart(s, at + 1, RunEnd(s, at + 1, Domain)) == Some(d)
    ensures e' <= RunEnd(s, d + 1, Letter)
  {
    var hi := RunEnd(s, at + 1, Domain);
    LastTldStartIsRightmost(s, at + 1, hi, t);
    LastTldStartIsSound(s, at + 1, hi);
    d := LastTldStart(s, at + 1, hi).value;
    if d < e' {
      assert d == t by {
        if t < d {
          RunEndIsMaximal(s, t + 1, Letter);
        }
      }
    } else {
      assert d + 1 <= RunEnd(s, d + 1, Letter);
    }
  }

  /** How far the three greedy runs reach over a slice the pattern matches. */
  lemma RunsOfMatch(s: string, i: nat, e': nat) returns (at: nat, t: nat)
    requires EmailAt(s, i, e')
    ensures i < at < |s| && RunEnd(s, i, Local) == at && s[at] == '@'
    ensures at + 1 < t && t + 2 < e' && TldStart(s, t)
    ensures e' <= RunEnd(s, at + 1, Domain)
    ensures e' <= RunEnd(s, t + 1, Letter)
  {
    at, t := Anatomy(s, i, e');
    RunStops(s, i, Local, at);
    forall k | at + 1 <= k < e' ensures InClass(s[k], Domain) {
      if t < k {
        assert InClass(s[k], Letter);
      }
    }
    RunReaches(s, at + 1, Domain, e');
    RunReaches(s, t + 1, Letter, e');
    assert InClass(s[t + 1], Letter) && InClass(s[t + 2], Letter);
  }

  /** A match: the slice `s[start..end]`. */
  datatype Span = Span(start: nat, end: nat)

  /**
   * The matches `re.findall` reports from position `i` on: where a match is
   * found the scan resumes at its end, elsewhere at the next position.
   */
  function Matches(s: string, i: nat): (spans: seq<Span>)
    requires i <= |s|
    ensures forall k :: 0 <= k < |spans| ==>
      i <= spans[k].start < spans[k].end <= |s| && MatchAt(s, spans[k].start) == Some(spans[k].end)
    ensures forall k :: 0 < k < |spans| ==> spans[k - 1].end <= spans[k].start
    decreases |s| - i
  {
    if i == |s| then []
    else match MatchAt(s, i)
      case Some(e) => [Span(i, e)] + Matches(s, e)
      case None => Matches(s, i + 1)
  }

  predicate Covered(spans: seq<Span>, p: nat) {
    exists k :: 0 <= k < |spans| && spans[k].start <= p < spans[k].end
  }

  /** The scan is leftmost: every position where a match begins lies inside a reported match. */
  lemma {:induction false} MatchesAreLeftmost(s: string, i: nat, p: nat)
    requires i <= p < |s| && MatchAt(s, p).Some?
    ensures Covered(Matches(s, i), p)
    decreases |s| - i
  {
    var spans := Matches(s, i);
    match MatchAt(s, i)
    case Some(e) =>
      if p < e {
        assert spans[0] == Span(i, e);
      } else {
        MatchesAreLeftmost(s, e, p);
        var rest := Matches(s, e);
        var k :| 0 <= k < |rest| && rest[k].start <= p < rest[k].end;
        assert spans[k + 1] == rest[k];
      }
    case None =>
      MatchesAreLeftmost(s, i + 1, p);
  }

  /** `re.findall(pattern, s)`: the matched texts, left to right. */
  function FindAll(s: string): (found: seq<string>)
    ensures forall k :: 0 <= k < |found| ==> IsEmail(found[k])
  {
    FindAllFrom(s, 0)
  }

  /** The matched texts from position `i` on, found by the scan `Matches` describes. */
  function FindAllFrom(s: string, i: nat): (found: seq<string>)
    requires i <= |s|
    ensures forall k :: 0 <= k < |found| ==> IsEmail(found[k])
    decreases |s| - i
  {
    if i == |s| then []
    else match MatchAt(s, i)
      case Some(e) =>
        MatchAtIsSound(s, i);
        SliceIsEmail(s, i, e);
        [s[i..e]] + FindAllFrom(s, e)
      case None => FindAllFrom(s, i + 1)
  }

  /** The texts `FindAllFrom` reports are those of the spans of `Matches`, one for one. */
  lemma {:induction false} FindAllFromSpans(s: string, i: nat)
    requires i <= |s|
    ensures |FindAllFrom(s, i)| == |Matches(s, i)|
    ensures forall k :: 0 <= k < |Matches(s, i)| ==>
      FindAllFrom(s, i)[k] == s[Matches(s, i)[k].start..Matches(s, i)[k].end]
    decreases |s| - i
  {
    if i < |s| {
      match MatchAt(s, i)
      case Some(e) =>
        FindAllFromSpans(s, e);
        SlicesCons(s, i, e, FindAllFrom(s, e), Matches(s, e));
      case None =>
        FindAllFromSpans(s, i + 1);
    }
  }

  /** Putting one more span in front keeps texts and spans in step. */
  lemma SlicesCons(s: string, i: nat, e: nat, found: seq<string>, spans: seq<Span>)
    requires i <= e <= |s| && |found| == |spans|
    requires forall k :: 0 <= k < |spans| ==> spans[k].start <= spans[k].end <= |s|
    requires forall k :: 0 <= k < |spans| ==> found[k] == s[spans[k].start..spans[k].end]
    ensures forall k :: 0 <= k < |spans| + 1 ==>
      ([s[i..e]] + found)[k] == s[([Span(i, e)] + spans)[k].start..([Span(i, e)] + spans)[k].end]
  {
    forall k | 1 <= k < |spans| + 1
      ensures ([s[i..e]] + found)[k] == s[([Span(i, e)] + spans)[k].start..([Span(i, e)] + spans)[k].end]
    {
      assert ([s[i..e]] + found)[k] == found[k - 1] && ([Span(i, e)] + spans)[k] == spans[k - 1];
    }
  }
}
