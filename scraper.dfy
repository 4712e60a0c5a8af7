/** The extraction, deduplication and scroll-until-stable loop of the
    startup-directory scraper (class `StreamScraperService`).
    The browser is an oracle: the HTML parser's view of each snapshot is a
    list of `Card`s, and the page heights the browser reports are a list of
    integers. */
module StreamScraper {
  import opened Wrappers
  import opened PyStrings

  /** The container under a card that holds its description: absent, present
      without a `<span>`, or present with a first `<span>` of the given text. */
  datatype DescriptionBlock = NoBlock | BlockWithoutSpan | BlockWithSpan(text: string)

  /** One `<a>` company card as the HTML parser finds it: the text of its
      first name `<span>` and location `<span>` (None when there is none),
      its description block and its `href` attribute (None when absent). */
  datatype Card = Card(
    nameSpan: Option<string>,
    locationSpan: Option<string>,
    description: DescriptionBlock,
    href: Option<string>)

  /** The record `parse_page` emits for a card. */
  datatype Company = Company(name: string, location: string, description: string, link: string)

  /** The identity the scraper deduplicates on: (name, link). */
  type Key = (string, string)

  /** Sentinel for a field that could not be extracted. */
  const NotAvailable: string := "N/A"

  /** The listing the scraper is created for. */
  const DirectoryUrl: string := "https://www.ycombinator.com/companies?batch=Spring%202025"

  /** A text field after normalisation: the stripped text, or the sentinel
      when the element is missing or its text is blank. Never empty. */
  function FieldText(t: Option<string>): (r: string)
    ensures r != []
    ensures r == NotAvailable || (t.Some? && r == Strip(t.value))
    ensures t.Some? && !AllSpace(t.value) ==> r == Strip(t.value)
    ensures t.None? || AllSpace(t.value) ==> r == NotAvailable
  {
    if t.Some? && Strip(t.value) != [] then Strip(t.value) else NotAvailable
  }

  /** The text of the description `<span>`, if the block has one. */
  function DescriptionText(d: DescriptionBlock): Option<string> {
    match d
    case BlockWithSpan(text) => Some(text)
    case _ => None
  }

  /** The record extracted from one card: name, location and description
      are each the stripped element text or the sentinel (never ""), and
      the link is the `href` as written, or the sentinel when absent. */
  function Extract(c: Card): (r: Company)
    ensures r.name != [] && r.location != [] && r.description != []
    ensures r.name == NotAvailable || (c.nameSpan.Some? && r.name == Strip(c.nameSpan.value))
    ensures r.location == NotAvailable || (c.locationSpan.Some? && r.location == Strip(c.locationSpan.value))
    ensures r.description == NotAvailable
            || (c.description.BlockWithSpan? && r.description == Strip(c.description.text))
    ensures c.nameSpan.Some? && !AllSpace(c.nameSpan.value) ==> r.name == Strip(c.nameSpan.value)
    ensures c.locationSpan.Some? && !AllSpace(c.locationSpan.value) ==> r.location == Strip(c.locationSpan.value)
    ensures c.description.BlockWithSpan? && !AllSpace(c.description.text)
            ==> r.description == Strip(c.description.text)
    ensures c.nameSpan.None? ==> r.name == NotAvailable
    ensures c.description.NoBlock? || c.description.BlockWithoutSpan? ==> r.description == NotAvailable
    ensures r.link == if c.href.Some? then c.href.value else NotAvailable
  {
    Company(
      FieldText(c.nameSpan),
      FieldText(c.locationSpan),
      FieldText(DescriptionText(c.description)),
      c.href.GetOr(NotAvailable))
  }

  function KeyOf(r: Company): Key {
    (r.name, r.link)
  }

  /** The records extracted from the cards of one snapshot, card by card. */
  function Records(cards: seq<Card>): (rs: seq<Company>)
  {
    seq(|cards|, i requires 0 <= i < |cards| => Extract(cards[i]))
  }

  /** The snapshots of a pass, each as its extracted records. */
  function Views(snapshots: seq<seq<Card>>): (vs: seq<seq<Company>>)
  {
    seq(|snapshots|, i requires 0 <= i < |snapshots| => Records(snapshots[i]))
  }

  /** The keys of a list of records. */
  function KeysOf(rs: seq<Company>): set<Key> {
    set i | 0 <= i < |rs| :: KeyOf(rs[i])
  }

  /** Record `i` is emitted: its key is not among the ones already seen and
      no earlier record of the same snapshot has it. */
  predicate IsFirstNew(seen: set<Key>, rs: seq<Company>, i: int)
    requires 0 <= i < |rs|
  {
    && KeyOf(rs[i]) !in seen
    && forall j :: 0 <= j < i ==> KeyOf(rs[j]) != KeyOf(rs[i])
  }

  /** What one `parse_page` call returns, as a reference definition: in card
      order, every record that is the first of its key and whose key was not
      already seen. */
  function FirstNew(seen: set<Key>, rs: seq<Company>): seq<Company>
    decreases |rs|
  {
    if rs == [] then []
    else
      var n := |rs| - 1;
      FirstNew(seen, rs[..n]) + (if IsFirstNew(seen, rs, n) then [rs[n]] else [])
  }

  /** The concatenation of the views of a pass. */
  function Flatten(views: seq<seq<Company>>): seq<Company>
    decreases |views|
  {
    if views == [] then [] else Flatten(views[..|views| - 1]) + views[|views| - 1]
  }

  /** What a scroll pass accumulates: the lists the successive `parse_page`
      calls return, concatenated in order, each call seeing the keys of every
      earlier view of the pass. */
  function Pass(seen: set<Key>, views: seq<seq<Company>>): seq<Company>
    decreases |views|
  {
    if views == [] then []
    else
      var n := |views| - 1;
      Pass(seen, views[..n]) + FirstNew(seen + KeysOf(Flatten(views[..n])), views[n])
  }

  /** The reported heights stop changing at some scroll. */
  predicate Stabilises(heights: seq<int>) {
    exists k :: 1 <= k < |heights| && heights[k] == heights[k - 1]
  }

  /** The first scroll, at `i` or later, whose height equals the previous one. */
  function FirstStableFrom(heights: seq<int>, i: nat): (k: nat)
    requires 1 <= i
    requires exists k :: i <= k < |heights| && heights[k] == heights[k - 1]
    ensures i <= k < |heights| && heights[k] == heights[k - 1]
    ensures forall j :: i <= j < k ==> heights[j] != heights[j - 1]
    decreases |heights| - i
  {
    if heights[i] == heights[i - 1] then i else FirstStableFrom(heights, i + 1)
  }

  /** The scroll at which the pass ends: the first `k >= 1` whose height
      equals height `k - 1`. */
  function FirstStable(heights: seq<int>): (k: nat)
    requires Stabilises(heights)
    ensures 1 <= k < |heights| && heights[k] == heights[k - 1]
    ensures forall j :: 1 <= j < k ==> heights[j] != heights[j - 1]
  {
    FirstStableFrom(heights, 1)
  }

  class Scraper {
    const url: string
    /** The (name, link) keys emitted so far in the current pass. */
    var seenCompanies: set<Key>

    constructor ()
      ensures url == DirectoryUrl && seenCompanies == {}
    {
      url := DirectoryUrl;
      seenCompanies := {};
    }

    /** `parse_page` over the cards of one snapshot: returns the records of
        the cards whose key is new, in card order, and records every key. */
    method ParsePage(cards: seq<Card>) returns (companiesData: seq<Company>)
      modifies this
      ensures companiesData == FirstNew(old(seenCompanies), Records(cards))
      ensures seenCompanies == old(seenCompanies) + KeysOf(Records(cards))
      ensures cards == [] ==> companiesData == [] && seenCompanies == old(seenCompanies)
    {
      ghost var seen0 := seenCompanies;
      ghost var rs := Records(cards);
      companiesData := [];
      for i := 0 to |cards|
        invariant seenCompanies == seen0 + KeysOf(rs[..i])
        invariant companiesData == FirstNew(seen0, rs[..i])
      {
        var company := Extract(cards[i]);
        var companyId := (company.name, company.link);
        ParseStep(seen0, rs, i, seenCompanies, companiesData);
        if companyId !in seenCompanies {
          seenCompanies := seenCompanies + {companyId};
          companiesData := companiesData + [company];
        }
      }
      assert rs[..|cards|] == rs;
    }

    /** `scroll_and_parse` against a page oracle: `snapshots[0]` and
        `heights[0]` are the view and height before the first scroll,
        `snapshots[k]` and `heights[k]` those after scroll `k`. The pass
        clears the seen keys, parses the first view, then scrolls, reads
        the height and parses until a height repeats. */
    method ScrollAndParse(snapshots: seq<seq<Card>>, heights: seq<int>)
      returns (allCompanies: seq<Company>, scrolls: nat, parses: nat)
      requires |snapshots| == |heights|
      requires Stabilises(heights)
      modifies this
      ensures scrolls == FirstStable(heights) && parses == scrolls + 1
      ensures allCompanies == Pass({}, Views(snapshots)[..parses])
      ensures seenCompanies == KeysOf(Flatten(Views(snapshots)[..parses]))
    {
      ghost var stop := FirstStable(heights);
      allCompanies := [];
      seenCompanies := {};
      ghost var seenBefore := seenCompanies;
      var companies := ParsePage(snapshots[0]);
      ScrollStep(snapshots, 0, seenBefore, allCompanies, companies);
      allCompanies := allCompanies + companies;
      parses, scrolls := 1, 0;
      var lastHeight := heights[0];
      while true
        invariant scrolls < stop && parses == scrolls + 1
        invariant lastHeight == heights[scrolls]
        invariant allCompanies == Pass({}, Views(snapshots)[..parses])
        invariant seenCompanies == KeysOf(Flatten(Views(snapshots)[..parses]))
        decreases stop - scrolls
      {
        scrolls := scrolls + 1;
        var newHeight := heights[scrolls];
        seenBefore := seenCompanies;
        companies := ParsePage(snapshots[scrolls]);
        ScrollStep(snapshots, parses, seenBefore, allCompanies, companies);
        parses := parses + 1;
        allCompanies := allCompanies + companies;
        if newHeight == lastHeight {
          StableAt(heights, scrolls);
          break;
        }
        UnstableAt(heights, scrolls);
        lastHeight := newHeight;
      }
    }
  }

  lemma KeysOfConcat(a: seq<Company>, b: seq<Company>)
    ensures KeysOf(a + b) == KeysOf(a) + KeysOf(b)
  {
    var ab := a + b;
    forall k | k in KeysOf(ab) ensures k in KeysOf(a) + KeysOf(b) {
      var i :| 0 <= i < |ab| && KeyOf(ab[i]) == k;
      if i < |a| { assert ab[i] == a[i]; } else { assert ab[i] == b[i - |a|]; }
    }
    forall k | k in KeysOf(a) ensures k in KeysOf(ab) {
      var i :| 0 <= i < |a| && KeyOf(a[i]) == k;
      assert ab[i] == a[i];
    }
    forall k | k in KeysOf(b) ensures k in KeysOf(ab) {
      var i :| 0 <= i < |b| && KeyOf(b[i]) == k;
      assert ab[|a| + i] == b[i];
    }
  }

  lemma KeysOfEmpty(rs: seq<Company>)
    ensures KeysOf(rs) == {} <==> rs == []
  {
    if rs != [] {
      assert KeyOf(rs[0]) in KeysOf(rs);
    }
  }

  lemma KeysOfSingle(r: Company)
    ensures KeysOf([r]) == {KeyOf(r)}
  {
    assert [r][0] == r;
  }

  lemma KeysOfStep(rs: seq<Company>, i: int)
    requires 0 <= i < |rs|
    ensures KeysOf(rs[..i + 1]) == KeysOf(rs[..i]) + {KeyOf(rs[i])}
  {
    assert rs[..i + 1] == rs[..i] + [rs[i]];
    KeysOfConcat(rs[..i], [rs[i]]);
    KeysOfSingle(rs[i]);
  }

  /** The first-occurrence test is the set-membership test the scraper
      performs against the keys seen so far. */
  lemma IsFirstNewIff(seen: set<Key>, rs: seq<Company>, i: int)
    requires 0 <= i < |rs|
    ensures IsFirstNew(seen, rs, i) <==> KeyOf(rs[i]) !in seen + KeysOf(rs[..i])
  {
    var p := rs[..i];
    if KeyOf(rs[i]) in KeysOf(p) {
      var j :| 0 <= j < |p| && KeyOf(p[j]) == KeyOf(rs[i]);
      assert p[j] == rs[j];
    }
    if !IsFirstNew(seen, rs, i) && KeyOf(rs[i]) !in seen {
      var j :| 0 <= j < i && KeyOf(rs[j]) == KeyOf(rs[i]);
      assert p[j] == rs[j];
    }
  }

  lemma IsFirstNewPrefix(seen: set<Key>, rs: seq<Company>, n: int, i: int)
    requires 0 <= i < n <= |rs|
    ensures IsFirstNew(seen, rs[..n], i) == IsFirstNew(seen, rs, i)
  {
    assert forall j :: 0 <= j <= i ==> rs[..n][j] == rs[j];
  }

  /** `FirstNew` unfolded at its last record, with the first-occurrence test
      stated as set membership. */
  lemma FirstNewLast(seen: set<Key>, rs: seq<Company>)
    requires rs != []
    ensures FirstNew(seen, rs)
            == FirstNew(seen, rs[..|rs| - 1])
               + (if KeyOf(rs[|rs| - 1]) in seen + KeysOf(rs[..|rs| - 1]) then [] else [rs[|rs| - 1]])
  {
    IsFirstNewIff(seen, rs, |rs| - 1);
  }

  /** One step of `parse_page`'s loop, stated on the reference definition. */
  lemma FirstNewStep(seen: set<Key>, rs: seq<Company>, i: int)
    requires 0 <= i < |rs|
    ensures FirstNew(seen, rs[..i + 1])
            == FirstNew(seen, rs[..i])
               + (if KeyOf(rs[i]) in seen + KeysOf(rs[..i]) then [] else [rs[i]])
  {
    var p := rs[..i + 1];
    assert p[..i] == rs[..i];
    FirstNewLast(seen, p);
  }

  /** One iteration of `parse_page`'s loop keeps its invariant. */
  lemma ParseStep(seen0: set<Key>, rs: seq<Company>, i: int, seen: set<Key>, data: seq<Company>)
    requires 0 <= i < |rs|
    requires seen == seen0 + KeysOf(rs[..i]) && data == FirstNew(seen0, rs[..i])
    ensures KeyOf(rs[i]) !in seen ==>
              seen + {KeyOf(rs[i])} == seen0 + KeysOf(rs[..i + 1])
              && data + [rs[i]] == FirstNew(seen0, rs[..i + 1])
    ensures KeyOf(rs[i]) in seen ==>
              seen == seen0 + KeysOf(rs[..i + 1]) && data == FirstNew(seen0, rs[..i + 1])
  {
    FirstNewStep(seen0, rs, i);
    KeysOfStep(rs, i);
    assert data + [] == data;
  }

  /** One parse of `scroll_and_parse` keeps its loop invariant. */
  lemma ScrollStep(snapshots: seq<seq<Card>>, n: int, seen: set<Key>,
                   all: seq<Company>, companies: seq<Company>)
    requires 0 <= n < |snapshots|
    requires seen == KeysOf(Flatten(Views(snapshots)[..n])) && all == Pass({}, Views(snapshots)[..n])
    requires companies == FirstNew(seen, Records(snapshots[n]))
    ensures seen + KeysOf(Records(snapshots[n])) == KeysOf(Flatten(Views(snapshots)[..n + 1]))
    ensures all + companies == Pass({}, Views(snapshots)[..n + 1])
  {
    var views := Views(snapshots);
    assert views[n] == Records(snapshots[n]);
    PassStep({}, views, n);
    assert {} + KeysOf(Flatten(views[..n])) == seen;
  }

  /** A scroll at or before the end of the pass whose height repeats is the end. */
  lemma StableAt(heights: seq<int>, k: nat)
    requires Stabilises(heights) && 1 <= k <= FirstStable(heights)
    requires heights[k] == heights[k - 1]
    ensures k == FirstStable(heights)
  {
  }

  /** A scroll at or before the end of the pass whose height changes is before it. */
  lemma UnstableAt(heights: seq<int>, k: nat)
    requires Stabilises(heights) && 1 <= k <= FirstStable(heights)
    requires heights[k] != heights[k - 1]
    ensures k < FirstStable(heights)
  {
  }

  /** One step of `scroll_and_parse`'s loop, stated on the reference definitions. */
  lemma PassStep(seen: set<Key>, views: seq<seq<Company>>, n: int)
    requires 0 <= n < |views|
    ensures KeysOf(Flatten(views[..n + 1])) == KeysOf(Flatten(views[..n])) + KeysOf(views[n])
    ensures Pass(seen, views[..n + 1])
            == Pass(seen, views[..n]) + FirstNew(seen + KeysOf(Flatten(views[..n])), views[n])
  {
    assert views[..n + 1][..n] == views[..n];
    KeysOfConcat(Flatten(views[..n]), views[n]);
  }

  /** The keys `parse_page` emits are exactly the keys of the snapshot that
      were not seen before: every new key is emitted, no seen key is. */
  lemma {:induction false} FirstNewKeys(seen: set<Key>, rs: seq<Company>)
    ensures KeysOf(FirstNew(seen, rs)) == KeysOf(rs) - seen
    decreases |rs|
  {
    if rs != [] {
      var n := |rs| - 1;
      var p := rs[..n];
      var prev := FirstNew(seen, p);
      FirstNewKeys(seen, p);
      FirstNewLast(seen, rs);
      KeysOfStep(rs, n);
      assert rs[..n + 1] == rs;
      if KeyOf(rs[n]) in seen + KeysOf(p) {
        assert prev + [] == prev;
      } else {
        KeysOfConcat(prev, [rs[n]]);
        KeysOfSingle(rs[n]);
      }
    }
  }

  /** No emitted record has a key that was already seen on entry. */
  lemma FirstNewFresh(seen: set<Key>, rs: seq<Company>)
    ensures forall k :: 0 <= k < |FirstNew(seen, rs)| ==> KeyOf(FirstNew(seen, rs)[k]) !in seen
  {
    var out := FirstNew(seen, rs);
    FirstNewKeys(seen, rs);
    forall k | 0 <= k < |out| ensures KeyOf(out[k]) !in seen {
      assert KeyOf(out[k]) in KeysOf(out);
    }
  }

  /** No two records `parse_page` returns share a (name, link) key. */
  lemma {:induction false} FirstNewDistinct(seen: set<Key>, rs: seq<Company>)
    ensures forall i, j :: 0 <= i < j < |FirstNew(seen, rs)| ==>
              KeyOf(FirstNew(seen, rs)[i]) != KeyOf(FirstNew(seen, rs)[j])
    decreases |rs|
  {
    if rs != [] {
      var n := |rs| - 1;
      var p := rs[..n];
      var prev := FirstNew(seen, p);
      FirstNewDistinct(seen, p);
      FirstNewLast(seen, rs);
      if KeyOf(rs[n]) !in seen + KeysOf(p) {
        var out := prev + [rs[n]];
        FirstNewKeys(seen, p);
        forall i | 0 <= i < |prev| ensures KeyOf(out[i]) != KeyOf(out[|prev|]) {
          assert out[i] == prev[i];
          assert KeyOf(prev[i]) in KeysOf(prev);
        }
      } else {
        assert prev + [] == prev;
      }
    }
  }

  /** A record is returned exactly when it is the first of its key in the
      snapshot and its key was not seen. */
  lemma {:induction false} FirstNewMembers(seen: set<Key>, rs: seq<Company>, r: Company)
    ensures r in FirstNew(seen, rs) <==>
            exists i :: 0 <= i < |rs| && IsFirstNew(seen, rs, i) && r == rs[i]
    decreases |rs|
  {
    if rs != [] {
      var n := |rs| - 1;
      var p := rs[..n];
      FirstNewMembers(seen, p, r);
      if exists i :: 0 <= i < |p| && IsFirstNew(seen, p, i) && r == p[i] {
        var i :| 0 <= i < |p| && IsFirstNew(seen, p, i) && r == p[i];
        IsFirstNewPrefix(seen, rs, n, i);
      }
      if exists i :: 0 <= i < |rs| && IsFirstNew(seen, rs, i) && r == rs[i] {
        var i :| 0 <= i < |rs| && IsFirstNew(seen, rs, i) && r == rs[i];
        if i < n {
          IsFirstNewPrefix(seen, rs, n, i);
          assert p[i] == rs[i];
        }
      }
    }
  }

  /** A card without a name element is not skipped: if no earlier card of
      the snapshot and no key seen before has its key ("N/A", link), it is
      emitted, under the sentinel name. */
  lemma NamelessCardKept(seen: set<Key>, cards: seq<Card>, i: int)
    requires 0 <= i < |cards| && cards[i].nameSpan.None?
    requires (NotAvailable, cards[i].href.GetOr(NotAvailable)) !in seen
    requires forall j :: 0 <= j < i ==> KeyOf(Records(cards)[j]) != KeyOf(Records(cards)[i])
    ensures Extract(cards[i]) in FirstNew(seen, Records(cards))
    ensures Extract(cards[i]).name == NotAvailable
  {
    var rs := Records(cards);
    assert rs[i] == Extract(cards[i]);
    assert IsFirstNew(seen, rs, i);
    FirstNewMembers(seen, rs, rs[i]);
  }

  /** Records with pairwise distinct keys have as many keys as records. */
  lemma {:induction false} DistinctKeysCount(rs: seq<Company>)
    requires forall i, j :: 0 <= i < j < |rs| ==> KeyOf(rs[i]) != KeyOf(rs[j])
    ensures |KeysOf(rs)| == |rs|
    decreases |rs|
  {
    if rs != [] {
      var n := |rs| - 1;
      var p := rs[..n];
      DistinctKeysCount(p);
      KeysOfStep(rs, n);
      assert rs[..n + 1] == rs;
    }
  }

  /** One parse returns exactly as many records as the snapshot has keys
      that were not seen before. */
  lemma FirstNewCount(seen: set<Key>, rs: seq<Company>)
    ensures |FirstNew(seen, rs)| == |KeysOf(rs) - seen|
  {
    FirstNewDistinct(seen, rs);
    FirstNewKeys(seen, rs);
    DistinctKeysCount(FirstNew(seen, rs));
  }

  /** Parsing a snapshot a second time, with the keys of the first parse
      recorded, returns nothing. */
  lemma FirstNewAgain(seen: set<Key>, rs: seq<Company>)
    ensures FirstNew(seen + KeysOf(rs), rs) == []
  {
    var out := FirstNew(seen + KeysOf(rs), rs);
    FirstNewKeys(seen + KeysOf(rs), rs);
    KeysOfEmpty(out);
  }

  /** Parsing `a` then `b` with the keys carried over is parsing `a + b`. */
  lemma {:induction false} FirstNewAppend(seen: set<Key>, a: seq<Company>, b: seq<Company>)
    ensures FirstNew(seen, a + b) == FirstNew(seen, a) + FirstNew(seen + KeysOf(a), b)
    decreases |b|
  {
    if b == [] {
      assert a + b == a;
    } else {
      var n := |b| - 1;
      var ab := a + b;
      var m := |ab| - 1;
      assert ab[..m] == a + b[..n];
      assert ab[m] == b[n];
      FirstNewAppend(seen, a, b[..n]);
      FirstNewLast(seen, ab);
      FirstNewLast(seen + KeysOf(a), b);
      KeysOfConcat(a, b[..n]);
      assert seen + KeysOf(ab[..m]) == (seen + KeysOf(a)) + KeysOf(b[..n]);
    }
  }

  /** A whole scroll pass is one deduplication over all its views in order. */
  lemma {:induction false} PassIsFirstNew(seen: set<Key>, views: seq<seq<Company>>)
    ensures Pass(seen, views) == FirstNew(seen, Flatten(views))
    decreases |views|
  {
    if views != [] {
      var n := |views| - 1;
      PassIsFirstNew(seen, views[..n]);
      FirstNewAppend(seen, Flatten(views[..n]), views[n]);
    }
  }

  /** The records a scroll pass accumulates carry pairwise distinct keys. */
  lemma PassKeysDistinct(views: seq<seq<Company>>)
    ensures forall i, j :: 0 <= i < j < |Pass({}, views)| ==>
              KeyOf(Pass({}, views)[i]) != KeyOf(Pass({}, views)[j])
  {
    PassIsFirstNew({}, views);
    FirstNewDistinct({}, Flatten(views));
  }

  /** The keys a scroll pass emits are all the keys of all its views. */
  lemma PassKeys(views: seq<seq<Company>>)
    ensures KeysOf(Pass({}, views)) == KeysOf(Flatten(views))
  {
    PassIsFirstNew({}, views);
    FirstNewKeys({}, Flatten(views));
  }

  /** Heights 100, 200, 200 end the pass at the second scroll: two scroll
      evaluations and three parses. */
  lemma StopsAtFirstRepeat()
    ensures Stabilises([100, 200, 200]) && FirstStable([100, 200, 200]) == 2
  {
    var h := [100, 200, 200];
    assert h[2] == h[1];
  }
}
