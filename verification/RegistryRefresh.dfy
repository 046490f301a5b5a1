/** A refresh of the connector snapshot: crawl the registry's pages, build, check the caps, write, and
    summarise what changed. */
module RegistryRefresh {
  import opened Common
  import opened JsonText
  import opened Snapshot
  import opened SnapshotText

  const MAX_PAGES: nat := 2000
  const ATTEMPTS: nat := 8
  const MAX_ENTRIES: nat := 20000
  const MAX_BYTES: nat := 6 * 1024 * 1024
  const LISTED: nat := 40

  // ----- crawling -----

  /** A page's servers (as the filter sees them) and its next cursor, empty when there is none. */
  datatype Page = Page(servers: seq<Option<Entry>>, next: string)

  /** For every cursor, what successive attempts get: `None` is no usable answer. */
  type Registry = map<string, seq<Option<Page>>>

  function FirstAnswer(answers: seq<Option<Page>>, left: nat): Option<Page>
    decreases left
  {
    if left == 0 || answers == [] then None
    else if answers[0].Some? then answers[0]
    else FirstAnswer(answers[1..], left - 1)
  }

  function PageAt(registry: Registry, cursor: string): Option<Page> {
    if cursor in registry then FirstAnswer(registry[cursor], ATTEMPTS) else None
  }

  /** `fetch_page`: the first of eight attempts that answers, with a pause that grows by five seconds
      after each failure but the last. */
  method FetchPage(answers: seq<Option<Page>>) returns (page: Option<Page>, slept: nat)
    ensures page == FirstAnswer(answers, ATTEMPTS)
    ensures page.Some? ==> exists k | 0 <= k < |answers| && k < 8 ::
      answers[k] == page && (forall i | 0 <= i < k :: answers[i].None?) && 2 * slept == 5 * k * (k + 1)
    ensures page.None? ==> (forall i | 0 <= i < |answers| && i < 8 :: answers[i].None?) && slept == 140
  {
    slept := 0;
    var attempt := 1;
    while attempt <= ATTEMPTS
      invariant 1 <= attempt <= ATTEMPTS + 1
      invariant attempt - 1 <= |answers| ==> FirstAnswer(answers, ATTEMPTS) == FirstAnswer(answers[attempt - 1..], ATTEMPTS + 1 - attempt)
      invariant attempt - 1 > |answers| ==> FirstAnswer(answers, ATTEMPTS) == None
      invariant forall i | 0 <= i < attempt - 1 && i < |answers| :: answers[i].None?
      invariant attempt <= ATTEMPTS ==> 2 * slept == 5 * attempt * (attempt - 1)
      invariant attempt > ATTEMPTS ==> slept == 140
    {
      if attempt - 1 < |answers| {
        if answers[attempt - 1].Some? {
          return answers[attempt - 1], slept;
        }
        assert answers[attempt - 1..][1..] == answers[attempt..];
      }
      if attempt < ATTEMPTS {
        slept := slept + 5 * attempt;
      }
      attempt := attempt + 1;
    }
    page := None;
  }

  /** The pages a crawl gets, following cursors, at most `left` of them. */
  function Walk(registry: Registry, cursor: string, left: nat): seq<Page>
    decreases left
  {
    if left == 0 || PageAt(registry, cursor).None? then []
    else
      var page := PageAt(registry, cursor).value;
      [page] + if page.next == "" then [] else Walk(registry, page.next, left - 1)
  }

  function Servers(pages: seq<Page>): seq<Option<Entry>> {
    if pages == [] then [] else pages[0].servers + Servers(pages[1..])
  }

  predicate Ended(pages: seq<Page>) {
    pages != [] && pages[|pages| - 1].next == ""
  }

  datatype Outcome = Listed(items: seq<Option<Entry>>) | Unanswered | Endless

  /** How a crawl of at most `limit` pages ends, and after how many fetches, given the pages it gets. */
  function OutcomeOf(pages: seq<Page>, limit: nat): (Outcome, nat) {
    if Ended(pages) then (Listed(Servers(pages)), |pages|)
    else if |pages| == limit then (Endless, limit)
    else (Unanswered, |pages| + 1)
  }

  function CrawlOf(registry: Registry): (Outcome, nat) {
    OutcomeOf(Walk(registry, "", MAX_PAGES), MAX_PAGES)
  }

  lemma {:induction false} ServersAppend(pages: seq<Page>, page: Page)
    ensures Servers(pages + [page]) == Servers(pages) + page.servers
  {
    if pages == [] {
      assert [page][1..] == [];
    } else {
      assert (pages + [page])[1..] == pages[1..] + [page];
      ServersAppend(pages[1..], page);
    }
  }

  lemma {:induction false} WalkStep(registry: Registry, cursor: string, left: nat, page: Page)
    requires left > 0 && PageAt(registry, cursor) == Some(page)
    ensures Walk(registry, cursor, left) == [page] + if page.next == "" then [] else Walk(registry, page.next, left - 1)
  {
  }

  lemma {:induction false} Shift<T>(all: seq<T>, before: seq<T>, next: seq<T>, rest: seq<T>)
    requires all == before + (next + rest)
    ensures all == (before + next) + rest
  {
  }

  /** One page of a crawl: its servers are added, and the crawl goes on from its cursor. */
  lemma {:induction false} PageRead(registry: Registry, all: seq<Page>, pages: seq<Page>, cursor: string, left: nat, page: Page)
    requires left > 0 && PageAt(registry, cursor) == Some(page) && all == pages + Walk(registry, cursor, left)
    ensures Servers(pages + [page]) == Servers(pages) + page.servers
    ensures all == pages + [page] + if page.next == "" then [] else Walk(registry, page.next, left - 1)
  {
    WalkStep(registry, cursor, left, page);
    ServersAppend(pages, page);
    Shift(all, pages, [page], if page.next == "" then [] else Walk(registry, page.next, left - 1));
  }

  method FetchAt(registry: Registry, cursor: string) returns (page: Option<Page>)
    ensures page == PageAt(registry, cursor)
  {
    page := None;
    if cursor in registry {
      var slept;
      page, slept := FetchPage(registry[cursor]);
    }
  }

  /** Where a crawl stands: after some pages, none of them the last, with their servers. */
  ghost predicate Reached(registry: Registry, all: seq<Page>, pages: seq<Page>, items: seq<Option<Entry>>, cursor: string, left: nat) {
    items == Servers(pages) && !Ended(pages) && all == pages + Walk(registry, cursor, left)
  }

  lemma {:induction false} NothingRead(registry: Registry, first: string, limit: nat)
    ensures Reached(registry, Walk(registry, first, limit), [], [], first, limit)
  {
  }

  lemma {:induction false} NoAnswer(registry: Registry, all: seq<Page>, pages: seq<Page>, items: seq<Option<Entry>>, cursor: string, left: nat)
    requires Reached(registry, all, pages, items, cursor, left) && left > 0 && PageAt(registry, cursor).None?
    ensures OutcomeOf(all, |pages| + left) == (Unanswered, |pages| + 1)
  {
    assert all == pages;
  }

  lemma {:induction false} Exhausted(registry: Registry, all: seq<Page>, pages: seq<Page>, items: seq<Option<Entry>>, cursor: string)
    requires Reached(registry, all, pages, items, cursor, 0)
    ensures OutcomeOf(all, |pages|) == (Endless, |pages|)
  {
    assert all == pages;
  }

  lemma {:induction false} Onwards(registry: Registry, all: seq<Page>, pages: seq<Page>, items: seq<Option<Entry>>, cursor: string, left: nat, page: Page)
    requires Reached(registry, all, pages, items, cursor, left) && left > 0 && PageAt(registry, cursor) == Some(page)
    ensures page.next == "" ==> OutcomeOf(all, |pages| + left) == (Listed(items + page.servers), |pages| + 1)
    ensures page.next != "" ==> Reached(registry, all, pages + [page], items + page.servers, page.next, left - 1)
  {
    PageRead(registry, all, pages, cursor, left, page);
    assert page.next == "" ==> all == pages + [page];
  }

  method CrawlPages(registry: Registry, first: string, limit: nat) returns (outcome: Outcome, fetches: nat)
    ensures (outcome, fetches) == OutcomeOf(Walk(registry, first, limit), limit)
  {
    var cursor := first;
    var items: seq<Option<Entry>> := [];
    ghost var all := Walk(registry, first, limit);
    ghost var pages: seq<Page> := [];
    NothingRead(registry, first, limit);
    fetches := 0;
    while fetches < limit
      invariant fetches <= limit && |pages| == fetches
      invariant Reached(registry, all, pages, items, cursor, limit - fetches)
    {
      var page := FetchAt(registry, cursor);
      if page.None? {
        NoAnswer(registry, all, pages, items, cursor, limit - fetches);
        return Unanswered, fetches + 1;
      }
      Onwards(registry, all, pages, items, cursor, limit - fetches, page.value);
      items := items + page.value.servers;
      pages := pages + [page.value];
      fetches := fetches + 1;
      cursor := page.value.next;
      if cursor == "" {
        return Listed(items), fetches;
      }
    }
    Exhausted(registry, all, pages, items, cursor);
    outcome := Endless;
  }

  method Crawl(registry: Registry) returns (outcome: Outcome, fetches: nat)
    ensures (outcome, fetches) == CrawlOf(registry)
  {
    outcome, fetches := CrawlPages(registry, "", MAX_PAGES);
  }

  /** Each page is the one its predecessor's cursor names. */
  predicate Follows(registry: Registry, cursor: string, pages: seq<Page>)
    decreases |pages|
  {
    pages == [] ||
    (PageAt(registry, cursor) == Some(pages[0]) &&
     (|pages| > 1 ==> pages[0].next != "" && Follows(registry, pages[0].next, pages[1..])))
  }

  lemma {:induction false} WalkIsTheChain(registry: Registry, cursor: string, pages: seq<Page>, left: nat)
    requires Follows(registry, cursor, pages) && |pages| <= left
    requires Ended(pages) || |pages| == left
    ensures Walk(registry, cursor, left) == pages
    decreases left
  {
    if |pages| == 1 {
      assert pages == [pages[0]] + [];
    } else if |pages| > 1 {
      WalkIsTheChain(registry, pages[0].next, pages[1..], left - 1);
      assert pages == [pages[0]] + pages[1..];
    }
  }

  /** A cursor is answered by the first of its first eight attempts that got an answer. */
  lemma {:induction false} AnsweredIff(registry: Registry, cursor: string, page: Page)
    ensures PageAt(registry, cursor) == Some(page) <==>
      cursor in registry &&
      exists k | 0 <= k < |registry[cursor]| && k < 8 ::
        registry[cursor][k] == Some(page) && forall i | 0 <= i < k :: registry[cursor][i].None?
  {
    if cursor in registry {
      FirstAnswerIff(registry[cursor], 8, page);
    }
  }

  lemma {:induction false} FirstAnswerIff(answers: seq<Option<Page>>, left: nat, page: Page)
    ensures FirstAnswer(answers, left) == Some(page) <==>
      exists k | 0 <= k < |answers| && k < left :: answers[k] == Some(page) && forall i | 0 <= i < k :: answers[i].None?
    decreases left
  {
    if left > 0 && answers != [] && answers[0].None? {
      FirstAnswerIff(answers[1..], left - 1, page);
      if k :| 0 <= k < |answers[1..]| && k < left - 1 && answers[1..][k] == Some(page) && forall i | 0 <= i < k :: answers[1..][i].None? {
        forall i | 0 <= i < k + 1 ensures answers[i].None? {
          assert i > 0 ==> answers[i] == answers[1..][i - 1];
        }
        assert answers[k + 1] == Some(page);
      }
      if k :| 0 <= k < |answers| && k < left && answers[k] == Some(page) && forall i | 0 <= i < k :: answers[i].None? {
        assert answers[1..][k - 1] == Some(page) && forall i | 0 <= i < k - 1 :: answers[1..][i] == answers[i + 1];
      }
    }
  }

  /** A registry whose chain has p pages, at most 2000, is read whole, in order, in p fetches. */
  lemma {:induction false} WholeChainIsRead(registry: Registry, pages: seq<Page>)
    requires Follows(registry, "", pages) && Ended(pages) && |pages| <= 2000
    ensures CrawlOf(registry) == (Listed(Servers(pages)), |pages|)
  {
    WalkIsTheChain(registry, "", pages, MAX_PAGES);
  }

  lemma {:induction false} WalkFollows(registry: Registry, cursor: string, left: nat)
    ensures Follows(registry, cursor, Walk(registry, cursor, left)) && |Walk(registry, cursor, left)| <= left
    decreases left
  {
    if left > 0 && PageAt(registry, cursor).Some? {
      var page := PageAt(registry, cursor).value;
      var rest := if page.next == "" then [] else Walk(registry, page.next, left - 1);
      WalkStep(registry, cursor, left, page);
      if page.next != "" {
        WalkFollows(registry, page.next, left - 1);
      }
      assert ([page] + rest)[1..] == rest;
    }
  }

  /** A chain of 2000 pages that goes on, whether it ends later, breaks later or never ends, fails after
      exactly 2000 fetches. */
  lemma {:induction false} LongChainFails(registry: Registry, pages: seq<Page>)
    requires Follows(registry, "", pages) && |pages| == 2000 && !Ended(pages)
    ensures CrawlOf(registry) == (Endless, 2000)
  {
    WalkIsTheChain(registry, "", pages, MAX_PAGES);
  }

  /** A chain that breaks off, at a cursor no attempt answers for, fails there: one fetch more than the
      pages it gave. */
  lemma {:induction false} BrokenChainFails(registry: Registry, pages: seq<Page>)
    requires Follows(registry, "", pages) && !Ended(pages) && |pages| < 2000
    requires PageAt(registry, if pages == [] then "" else pages[|pages| - 1].next).None?
    ensures CrawlOf(registry) == (Unanswered, |pages| + 1)
  {
    WalkBreaks(registry, "", pages, MAX_PAGES);
  }

  lemma {:induction false} WalkBreaks(registry: Registry, cursor: string, pages: seq<Page>, left: nat)
    requires Follows(registry, cursor, pages) && !Ended(pages) && |pages| < left
    requires PageAt(registry, if pages == [] then cursor else pages[|pages| - 1].next).None?
    ensures Walk(registry, cursor, left) == pages
    decreases left
  {
    if pages != [] {
      WalkBreaks(registry, pages[0].next, pages[1..], left - 1);
      assert pages == [pages[0]] + pages[1..];
    }
  }

  ghost predicate LongChain(registry: Registry) {
    exists pages :: Follows(registry, "", pages) && |pages| == 2000 && !Ended(pages)
  }

  ghost predicate ShortChain(registry: Registry) {
    exists pages :: Follows(registry, "", pages) && |pages| <= 2000 && Ended(pages)
  }

  /** Which of the three ways a crawl ends: it lists exactly the chains that end within the limit, and
      fails at the limit exactly on those that go on. */
  lemma {:induction false} CrawlEndsIff(registry: Registry)
    ensures CrawlOf(registry).0.Listed? <==> ShortChain(registry)
    ensures CrawlOf(registry).0.Endless? <==> LongChain(registry)
  {
    var walked := Walk(registry, "", MAX_PAGES);
    WalkFollows(registry, "", MAX_PAGES);
    if ShortChain(registry) {
      var pages :| Follows(registry, "", pages) && |pages| <= 2000 && Ended(pages);
      WholeChainIsRead(registry, pages);
    }
    if LongChain(registry) {
      var pages :| Follows(registry, "", pages) && |pages| == 2000 && !Ended(pages);
      LongChainFails(registry, pages);
    }
  }

  /** Every cursor of a set is answered, and names another one of the set. */
  predicate NeverEnds(registry: Registry, cursors: set<string>) {
    forall c | c in cursors :: PageAt(registry, c).Some? && PageAt(registry, c).value.next in cursors && PageAt(registry, c).value.next != ""
  }

  lemma {:induction false} EndlessWalk(registry: Registry, cursors: set<string>, cursor: string, left: nat)
    requires NeverEnds(registry, cursors) && cursor in cursors
    ensures |Walk(registry, cursor, left)| == left && !Ended(Walk(registry, cursor, left))
    decreases left
  {
    if left > 0 {
      EndlessWalk(registry, cursors, PageAt(registry, cursor).value.next, left - 1);
    }
  }

  /** A cyclic chain is one: it fails after exactly 2000 fetches. */
  lemma {:induction false} CycleFails(registry: Registry, cursors: set<string>)
    requires NeverEnds(registry, cursors) && "" in cursors
    ensures CrawlOf(registry) == (Endless, 2000)
  {
    EndlessWalk(registry, cursors, "", MAX_PAGES);
    WalkFollows(registry, "", MAX_PAGES);
    LongChainFails(registry, Walk(registry, "", MAX_PAGES));
  }

  // ----- what changed -----

  ghost function SortedOf(keys: set<string>): (r: seq<string>)
    ensures Ascending(r) && forall k :: k in r <==> k in keys
  {
    if keys == {} then []
    else
      var k :| k in keys;
      InsertSpec(k, SortedOf(keys - {k}));
      Insert(k, SortedOf(keys - {k}))
  }

  lemma {:induction false} AscendingAreEqual(a: seq<string>, b: seq<string>)
    requires Ascending(a) && Ascending(b) && forall k :: k in a <==> k in b
    ensures a == b
  {
    assert b != [] ==> b[0] in b && b[0] in a;
    if a != [] {
      assert a[0] in a && a[0] in b && b[0] in a;
      LeastFirst(a, b[0]);
      LeastFirst(b, a[0]);
      if a[0] != b[0] {
        LessIsStrict(a[0], b[0]);
      }
      TailWithoutFirst(a);
      TailWithoutFirst(b);
      AscendingAreEqual(a[1..], b[1..]);
      assert a == [a[0]] + a[1..] && b == [b[0]] + b[1..];
    }
  }

  lemma {:induction false} LeastFirst(keys: seq<string>, k: string)
    requires Ascending(keys) && k in keys
    ensures k == keys[0] || Less(keys[0], k)
  {
    var i :| 0 <= i < |keys| && keys[i] == k;
  }

  lemma {:induction false} TailWithoutFirst(keys: seq<string>)
    requires Ascending(keys) && keys != []
    ensures Ascending(keys[1..]) && forall k :: k in keys[1..] <==> k in keys && k != keys[0]
  {
    forall k | k in keys[1..] ensures k != keys[0] {
      var i :| 0 <= i < |keys[1..]| && keys[1..][i] == k;
      assert keys[i + 1] == k;
      LessIsStrict(keys[0], k);
    }
    assert forall k | k in keys :: k == keys[0] || k in keys[1..];
  }

  method Sorted(keys: set<string>) returns (sorted: seq<string>)
    ensures sorted == SortedOf(keys)
  {
    sorted := [];
    var left := keys;
    while left != {}
      invariant left <= keys && Ascending(sorted)
      invariant forall k :: k in sorted <==> k in keys && k !in left
    {
      var k :| k in left;
      InsertSpec(k, sorted);
      sorted := Insert(k, sorted);
      left := left - {k};
    }
    AscendingAreEqual(sorted, SortedOf(keys));
  }

  function Added(old_: map<string, Json>, new_: map<string, Json>): set<string> {
    new_.Keys - old_.Keys
  }

  function Changed(old_: map<string, Json>, new_: map<string, Json>): set<string> {
    set k | k in new_.Keys && k in old_.Keys && new_[k] != old_[k]
  }

  /** The old snapshot with the removed keys dropped and the added and changed ones taken from the new. */
  function Overlay(old_: map<string, Json>, new_: map<string, Json>): map<string, Json> {
    (old_ - Added(new_, old_)) + map k | k in Added(old_, new_) + Changed(old_, new_) :: new_[k]
  }

  lemma {:induction false} OverlayGivesNew(old_: map<string, Json>, new_: map<string, Json>)
    ensures Overlay(old_, new_) == new_
  {
    var over := Overlay(old_, new_);
    forall k ensures (k in over <==> k in new_) && (k in over ==> over[k] == new_[k]) {
    }
  }

  lemma {:induction false} CountsAddUp(old_: map<string, Json>, new_: map<string, Json>)
    ensures |new_| == |old_| + |Added(old_, new_)| - |Added(new_, old_)|
  {
    var common := old_.Keys * new_.Keys;
    assert old_.Keys == common + Added(new_, old_);
    assert new_.Keys == common + Added(old_, new_);
    assert |old_| == |old_.Keys| && |new_| == |new_.Keys|;
  }

  /** The three sets of keys are disjoint, overlaying them on the old snapshot gives the new one, and
      the counts add up. */
  lemma {:induction false} DiffIsExact(old_: map<string, Json>, new_: map<string, Json>)
    ensures Added(old_, new_) !! Added(new_, old_) !! Changed(old_, new_)
    ensures Overlay(old_, new_) == new_
    ensures |new_| == |old_| + |Added(old_, new_)| - |Added(new_, old_)|
  {
    OverlayGivesNew(old_, new_);
    CountsAddUp(old_, new_);
  }

  datatype Line = Counts(added: nat, removed: nat, changed: nat) | Key(mark: char, key: string) | More(mark: char, count: nat)

  function Listing(mark: char, keys: seq<string>): seq<Line> {
    if keys == [] then [] else [Key(mark, keys[0])] + Listing(mark, keys[1..])
  }

  function Section(mark: char, keys: seq<string>): seq<Line> {
    if |keys| > LISTED then Listing(mark, keys[..LISTED]) + [More(mark, |keys| - LISTED)] else Listing(mark, keys)
  }

  function Sections(of: seq<(char, seq<string>)>): seq<Line> {
    if of == [] then [] else Section(of[0].0, of[0].1) + Sections(of[1..])
  }

  ghost function SummaryOf(old_: map<string, Json>, new_: map<string, Json>): seq<Line> {
    [Counts(|Added(old_, new_)|, |Added(new_, old_)|, |Changed(old_, new_)|)] +
    Sections([('+', SortedOf(Added(old_, new_))), ('-', SortedOf(Added(new_, old_))), ('~', SortedOf(Changed(old_, new_)))])
  }

  lemma {:induction false} AscendingSize(keys: seq<string>, of: set<string>)
    requires Ascending(keys) && forall k :: k in keys <==> k in of
    ensures |keys| == |of|
  {
    if keys == [] {
      assert of == {};
    } else {
      TailWithoutFirst(keys);
      AscendingSize(keys[1..], of - {keys[0]});
    }
  }

  method AppendSection(before: seq<Line>, mark: char, keys: seq<string>) returns (lines: seq<Line>)
    ensures lines == before + Section(mark, keys)
  {
    lines := before;
    var shown := if |keys| > LISTED then keys[..LISTED] else keys;
    ghost var listed := before + Listing(mark, shown);
    var i := 0;
    while i < |shown|
      invariant i <= |shown| && listed == lines + Listing(mark, shown[i..])
    {
      assert shown[i..][1..] == shown[i + 1..];
      Shift(listed, lines, [Key(mark, shown[i])], Listing(mark, shown[i + 1..]));
      lines := lines + [Key(mark, shown[i])];
      i := i + 1;
    }
    assert lines == listed;
    if |keys| > LISTED {
      lines := lines + [More(mark, |keys| - LISTED)];
    }
  }

  method AppendSections(before: seq<Line>, sections: seq<(char, seq<string>)>) returns (lines: seq<Line>)
    ensures lines == before + Sections(sections)
  {
    lines := before;
    ghost var all := before + Sections(sections);
    var s := 0;
    while s < |sections|
      invariant s <= |sections| && all == lines + Sections(sections[s..])
    {
      assert sections[s..][1..] == sections[s + 1..];
      Shift(all, lines, Section(sections[s].0, sections[s].1), Sections(sections[s + 1..]));
      lines := AppendSection(lines, sections[s].0, sections[s].1);
      s := s + 1;
    }
  }

  /** `summary`, growing its list section by section. */
  method Summary(old_: map<string, Json>, new_: map<string, Json>) returns (lines: seq<Line>)
    ensures lines == SummaryOf(old_, new_)
  {
    var added := Sorted(Added(old_, new_));
    var removed := Sorted(Added(new_, old_));
    var changed := Sorted(Changed(old_, new_));
    AscendingSize(added, Added(old_, new_));
    AscendingSize(removed, Added(new_, old_));
    AscendingSize(changed, Changed(old_, new_));
    lines := AppendSections([Counts(|added|, |removed|, |changed|)], [('+', added), ('-', removed), ('~', changed)]);
  }

  /** How many keys a section stands for: one per listed key, and what its last line counts. */
  function StandsFor(lines: seq<Line>): nat {
    if lines == [] then 0
    else (match lines[0] case Counts(_, _, _) => 0 case Key(_, _) => 1 case More(_, n) => n) + StandsFor(lines[1..])
  }

  lemma {:induction false} StandsForConcat(a: seq<Line>, b: seq<Line>)
    ensures StandsFor(a + b) == StandsFor(a) + StandsFor(b)
  {
    if a == [] {
      assert a + b == b;
    } else {
      assert (a + b)[1..] == a[1..] + b;
      StandsForConcat(a[1..], b);
    }
  }

  lemma {:induction false} ListingStandsFor(mark: char, keys: seq<string>)
    ensures StandsFor(Listing(mark, keys)) == |keys| == |Listing(mark, keys)|
  {
    if keys != [] {
      ListingStandsFor(mark, keys[1..]);
    }
  }

  /** Listed plus "more" accounts for every key, in at most 41 lines a section. */
  lemma {:induction false} SectionAccounts(mark: char, keys: set<string>)
    ensures StandsFor(Section(mark, SortedOf(keys))) == |keys|
    ensures |Section(mark, SortedOf(keys))| <= 41
  {
    var sorted := SortedOf(keys);
    AscendingSize(sorted, keys);
    if |sorted| > LISTED {
      var more := [More(mark, |sorted| - LISTED)];
      ListingStandsFor(mark, sorted[..LISTED]);
      StandsForConcat(Listing(mark, sorted[..LISTED]), more);
      assert more[1..] == [] && StandsFor(more) == |sorted| - LISTED;
    } else {
      ListingStandsFor(mark, sorted);
    }
  }

  /** `lines` lists the keys of a set under a mark: ascending, one a line, the first forty when there are
      more, and then how many are left out. */
  ghost predicate Lists(lines: seq<Line>, mark: char, keys: set<string>) {
    exists sorted :: Ascending(sorted) && (forall k :: k in sorted <==> k in keys) && |sorted| == |keys| &&
      if |keys| <= 40 then |lines| == |keys| && forall i | 0 <= i < |keys| :: lines[i] == Key(mark, sorted[i])
      else |lines| == 41 && lines[40] == More(mark, |keys| - 40) && forall i | 0 <= i < 40 :: lines[i] == Key(mark, sorted[i])
  }

  lemma {:induction false} ListingAt(mark: char, keys: seq<string>)
    ensures |Listing(mark, keys)| == |keys| && forall i | 0 <= i < |keys| :: Listing(mark, keys)[i] == Key(mark, keys[i])
  {
    if keys != [] {
      ListingAt(mark, keys[1..]);
    }
  }

  lemma {:induction false} SectionLists(mark: char, keys: set<string>)
    ensures Lists(Section(mark, SortedOf(keys)), mark, keys)
  {
    var sorted := SortedOf(keys);
    AscendingSize(sorted, keys);
    ListingAt(mark, sorted);
    if |sorted| > 40 {
      ListingAt(mark, sorted[..40]);
    }
  }

  /** The summary: the three counts, then the added keys, the removed keys and the changed keys. */
  lemma {:induction false} SummaryMeans(old_: map<string, Json>, new_: map<string, Json>) returns (added: seq<Line>, removed: seq<Line>, changed: seq<Line>)
    ensures
      var gained := new_.Keys - old_.Keys;
      var lost := old_.Keys - new_.Keys;
      var differing := set k | k in old_.Keys && k in new_.Keys && old_[k] != new_[k];
      && SummaryOf(old_, new_) == [Counts(|gained|, |lost|, |differing|)] + added + removed + changed
      && Lists(added, '+', gained) && Lists(removed, '-', lost) && Lists(changed, '~', differing)
  {
    var differing := set k | k in old_.Keys && k in new_.Keys && old_[k] != new_[k];
    assert Changed(old_, new_) == differing;
    added, removed, changed := TheSections(Added(old_, new_), Added(new_, old_), differing);
    var rest := Sections([('+', SortedOf(Added(old_, new_))), ('-', SortedOf(Added(new_, old_))), ('~', SortedOf(differing))]);
    Counted(Counts(|Added(old_, new_)|, |Added(new_, old_)|, |differing|), rest, added, removed, changed);
  }

  lemma {:induction false} Counted(counts: Line, rest: seq<Line>, a: seq<Line>, b: seq<Line>, c: seq<Line>)
    requires rest == a + b + c
    ensures [counts] + rest == [counts] + a + b + c
  {
  }

  lemma {:induction false} TheSections(gained: set<string>, lost: set<string>, differing: set<string>)
    returns (a: seq<Line>, b: seq<Line>, c: seq<Line>)
    ensures Sections([('+', SortedOf(gained)), ('-', SortedOf(lost)), ('~', SortedOf(differing))]) == a + b + c
    ensures Lists(a, '+', gained) && Lists(b, '-', lost) && Lists(c, '~', differing)
  {
    a, b, c := Section('+', SortedOf(gained)), Section('-', SortedOf(lost)), Section('~', SortedOf(differing));
    SectionLists('+', gained);
    SectionLists('-', lost);
    SectionLists('~', differing);
    ThreeSections('+', SortedOf(gained), '-', SortedOf(lost), '~', SortedOf(differing));
  }

  lemma {:induction false} SectionsStep(mark: char, keys: seq<string>, rest: seq<(char, seq<string>)>)
    ensures Sections([(mark, keys)] + rest) == Section(mark, keys) + Sections(rest)
  {
    assert ([(mark, keys)] + rest)[1..] == rest;
  }

  lemma {:induction false} ThreeSections(a: char, x: seq<string>, b: char, y: seq<string>, c: char, z: seq<string>)
    ensures Sections([(a, x), (b, y), (c, z)]) == Section(a, x) + Section(b, y) + Section(c, z)
  {
    SectionsStep(c, z, []);
    SectionsStep(b, y, [(c, z)] + []);
    SectionsStep(a, x, [(b, y)] + ([(c, z)] + []));
    assert [(a, x), (b, y), (c, z)] == [(a, x)] + ([(b, y)] + ([(c, z)] + []));
  }

  // ----- the refresh -----

  function Utf8Size(s: string): nat {
    if s == [] then 0
    else (if s[0] < '\U{0080}' then 1 else if s[0] < '\U{0800}' then 2 else if s[0] < '\U{10000}' then 3 else 4) + Utf8Size(s[1..])
  }

  lemma {:induction false} Utf8Concat(a: string, b: string)
    ensures Utf8Size(a + b) == Utf8Size(a) + Utf8Size(b)
  {
    if a == [] {
      assert a + b == b;
    } else {
      assert (a + b)[1..] == a[1..] + b;
      Utf8Concat(a[1..], b);
    }
  }

  /** One to four bytes carry 7, 11, 16 and 21 bits of a code point (RFC 3629, section 3), and no
      character takes more of them than it needs. */
  lemma {:induction false} Utf8OfChar(c: char)
    ensures
      var n := Utf8Size([c]);
      && 1 <= n <= 4
      && c as int < (if n == 1 then 0x80 else if n == 2 then 0x800 else if n == 3 then 0x10000 else 0x200000)
      && c as int >= (if n == 1 then 0 else if n == 2 then 0x80 else if n == 3 then 0x800 else 0x10000)
  {
    assert [c][1..] == [];
  }

  predicate WithinCaps(entries: seq<Entry>, text: string) {
    |entries| <= MAX_ENTRIES && Utf8Size(text) <= MAX_BYTES
  }

  datatype Status = OldUnreadable | CrawlFailed | TooBig | Wrote(lines: seq<Line>)

  class SnapshotFile {
    /** The file's text, when it exists. */
    var text: Option<string>

    constructor (text: Option<string>)
      ensures this.text == text
    {
      this.text := text;
    }

    /** `main`. */
    method Refresh(registry: Registry) returns (status: Status)
      modifies this
      ensures !status.Wrote? ==> text == old(text)
      ensures
        var (outcome, fetches) := CrawlOf(registry);
        (old(text).Some? ==> ReadSnapshotText(old(text).value).Some?) && outcome.Listed? ==>
          (status == TooBig <==> |Build(outcome.items)| > 20000 || Utf8Size(Render(Build(outcome.items))) > 6291456)
      ensures
        var was := if old(text).Some? then ReadSnapshotText(old(text).value) else Some(map[]);
        var (outcome, fetches) := CrawlOf(registry);
        if was.None? then status == OldUnreadable
        else if !outcome.Listed? then status == CrawlFailed
        else
          var entries := Build(outcome.items);
          if !WithinCaps(entries, Render(entries)) then status == TooBig
          else text == Some(Render(entries)) && status == Wrote(SummaryOf(was.value, ByKey(entries, map[])))
    {
      var was: Option<map<string, Json>> := Some(map[]);
      if text.Some? {
        was := ReadSnapshotText(text.value);
      }
      if was.None? {
        return OldUnreadable;
      }
      var outcome, fetches := Crawl(registry);
      if !outcome.Listed? {
        return CrawlFailed;
      }
      var entries := Build(outcome.items);
      var rendered := Render(entries);
      if !WithinCaps(entries, rendered) {
        return TooBig;
      }
      text := Some(rendered);
      var lines := Summary(was.value, ByKey(entries, map[]));
      status := Wrote(lines);
    }
  }

  /** What a refresh wrote reads back as exactly the snapshot it built. */
  lemma {:induction false} WrittenReadsBack(items: seq<Option<Entry>>, key: string)
    ensures
      var read := ReadSnapshotText(Render(Build(items)));
      && read == Some(ByKey(Build(items), map[]))
      && (key in read.value <==> Belongs(items, key))
      && (Belongs(items, key) ==> read.value[key] == EntryJson(LastWithKey(items, key).value))
  {
    var entries := Build(items);
    BuildMeetsSpec(items);
    SortedAreDistinct(entries);
    ReadRendered(entries, map[]);
    SnapshotRoundTrip(entries, key);
    NoEntry(entries, key);
    KeptIsLast(items, key);
    if Belongs(items, key) {
      var e :| e in entries && e.key == key;
      LastOfDistinct(entries, e);
    }
  }

  /** A second refresh of an unchanged registry reports nothing added, removed or changed. */
  lemma {:induction false} SecondRefreshChangesNothing(items: seq<Option<Entry>>)
    ensures
      var read := ReadSnapshotText(Render(Build(items)));
      read.Some? && SummaryOf(read.value, ByKey(Build(items), map[])) == [Counts(0, 0, 0)]
  {
    WrittenReadsBack(items, "");
    var same := ByKey(Build(items), map[]);
    assert Added(same, same) == {} && Changed(same, same) == {};
    assert SortedOf({}) == [];
  }
}
