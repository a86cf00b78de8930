/** The export of an audit chain in bounded pages, and the indexes over them. */
module AuditExport {
  import opened Outcome
  import opened Audit

  const PAGE_BYTES := 1048576
  const PAGE_EVENTS := 100
  /** The bytes of a page around its events. */
  const ENVELOPE := 57

  /** A page, and what the manifest says of it; its events stand for its digest. */
  datatype Page = Page(events: seq<Event>, count: nat, first: nat, last: nat, previous: Option<Digest>, lastHash: Digest)

  /** The encoded size of a page: its envelope, its events and the commas between them. */
  function PageSize(size: Event -> nat, events: seq<Event>): nat {
    if events == [] then ENVELOPE
    else PageSize(size, events[..|events| - 1]) + size(events[|events| - 1]) + if |events| > 1 then 1 else 0
  }

  predicate Fits(size: Event -> nat, events: seq<Event>) {
    |events| <= PAGE_EVENTS && PageSize(size, events) <= PAGE_BYTES
  }

  function PageOf(chunk: seq<Event>): Page
    requires chunk != []
  {
    var first, last := chunk[0], chunk[|chunk| - 1];
    Page(chunk, |chunk|, first.core.sequence, last.core.sequence, first.core.previous, last.hash)
  }

  function Concat(pages: seq<Page>): seq<Event> {
    if pages == [] then [] else Concat(pages[..|pages| - 1]) + pages[|pages| - 1].events
  }

  /** Events that follow each other. */
  ghost predicate Linked(events: seq<Event>) {
    forall i :: 0 <= i < |events| ==>
      && events[i].core.sequence == i + 1
      && events[i].core.previous == if i == 0 then None else Some(events[i - 1].hash)
  }

  /** Every page is nonempty, within both bounds, and describes itself. */
  ghost predicate PageInOrder(size: Event -> nat, p: Page) {
    p.events != [] && Fits(size, p.events) && p == PageOf(p.events)
  }

  predicate Follows(p: Page, q: Page) {
    q.previous == Some(p.lastHash) && q.first == p.last + 1
  }

  ghost predicate PagesLinked(pages: seq<Page>) {
    && (forall i :: 0 < i < |pages| ==> Follows(pages[i - 1], pages[i]))
    && (pages != [] ==> pages[0].previous == None && pages[0].first == 1)
  }

  /** The page has no room for the first event of the next one. */
  predicate NoRoom(size: Event -> nat, p: Page, next: seq<Event>) {
    next != [] && !Fits(size, p.events + [next[0]])
  }

  ghost predicate Greedy(size: Event -> nat, pages: seq<Page>) {
    forall i :: 0 < i < |pages| ==> NoRoom(size, pages[i - 1], pages[i].events)
  }

  lemma {:induction false} SinglePage(size: Event -> nat, e: Event)
    requires size(e) <= MAX_EVENT_BYTES
    ensures Fits(size, [e])
  {
    assert [e][..0] == [];
  }

  lemma {:induction false} ConcatNext(pages: seq<Page>, p: Page)
    ensures Concat(pages + [p]) == Concat(pages) + p.events
  {
    assert (pages + [p])[..|pages|] == pages;
  }

  lemma {:induction false} PageEnds(size: Event -> nat, p: Page, events: seq<Event>, n: nat)
    requires Linked(events) && PageInOrder(size, p) && n + |p.events| <= |events| && events[n..n + |p.events|] == p.events
    ensures p.first == n + 1 && p.previous == if n == 0 then None else Some(events[n - 1].hash)
    ensures p.last == n + |p.events| && p.lastHash == events[n + |p.events| - 1].hash
  {
    hide Fits;
    assert p.events[0] == events[n];
    assert p.events[|p.events| - 1] == events[n + |p.events| - 1];
  }

  lemma {:induction false} LinkNext(pages: seq<Page>, p: Page)
    requires PagesLinked(pages)
    requires if pages == [] then p.previous == None && p.first == 1 else Follows(pages[|pages| - 1], p)
    ensures PagesLinked(pages + [p])
  {
    hide Follows;
  }

  /** Cutting a chain anywhere gives pages that are linked. */
  lemma {:induction false} CutsAreLinked(size: Event -> nat, pages: seq<Page>, events: seq<Event>, rest: seq<Event>)
    requires Linked(events) && events == Concat(pages) + rest && forall p <- pages :: PageInOrder(size, p)
    ensures PagesLinked(pages)
    ensures pages == [] <==> Concat(pages) == []
    ensures pages != [] ==> pages[|pages| - 1].last == |Concat(pages)|
                            && pages[|pages| - 1].lastHash == events[|Concat(pages)| - 1].hash
  {
    if pages != [] {
      var init, p := pages[..|pages| - 1], pages[|pages| - 1];
      assert pages == init + [p] && p in pages;
      assert forall q <- init :: q in pages;
      assert p.events != [];
      var n := |Concat(init)|;
      assert events == Concat(init) + (p.events + rest) && n + |p.events| == |Concat(pages)|;
      hide Linked, PageInOrder, Concat;
      CutsAreLinked(size, init, events, p.events + rest);
      assert events[n..n + |p.events|] == p.events;
      PageEnds(size, p, events, n);
      hide PagesLinked;
      LinkNext(init, p);
    }
  }

  /** The state of pagination: finished pages, and the page being filled. */
  ghost predicate Paging(size: Event -> nat, pages: seq<Page>, chunk: seq<Event>) {
    && (forall p <- pages :: PageInOrder(size, p))
    && Greedy(size, pages)
    && Fits(size, chunk)
    && (pages != [] ==> NoRoom(size, pages[|pages| - 1], chunk))
  }

  lemma {:induction false} PageDone(size: Event -> nat, pages: seq<Page>, chunk: seq<Event>)
    requires Paging(size, pages, chunk) && chunk != []
    ensures forall p <- pages + [PageOf(chunk)] :: PageInOrder(size, p)
    ensures Greedy(size, pages + [PageOf(chunk)])
    ensures Concat(pages + [PageOf(chunk)]) == Concat(pages) + chunk
  {
    hide Fits;
    ConcatNext(pages, PageOf(chunk));
  }

  lemma {:induction false} PagingNext(size: Event -> nat, pages: seq<Page>, chunk: seq<Event>, e: Event)
    requires Paging(size, pages, chunk) && size(e) <= MAX_EVENT_BYTES && (chunk == [] ==> pages == [])
    ensures if chunk != [] && !Fits(size, chunk + [e]) then Paging(size, pages + [PageOf(chunk)], [e])
            else Paging(size, pages, chunk + [e])
  {
    SinglePage(size, e);
    if chunk == [] {
      assert chunk + [e] == [e];
    } else {
      PageDone(size, pages, chunk);
    }
    hide Fits;
  }

  /** Greedy pagination: the pages are the chain, cut within both bounds and no earlier than
      needed, each linked to the one before. */
  method Paginate(size: Event -> nat, events: seq<Event>) returns (pages: seq<Page>)
    requires forall e <- events :: size(e) <= MAX_EVENT_BYTES
    ensures Concat(pages) == events
    ensures forall p <- pages :: PageInOrder(size, p)
    ensures Greedy(size, pages)
    ensures Linked(events) ==> PagesLinked(pages)
  {
    pages := [];
    var chunk: seq<Event> := [];
    assert Paging(size, pages, chunk);
    hide Paging, Fits, Concat;
    assert Concat([]) == [] by {
      NoPages();
    }
    for n := 0 to |events|
      invariant Concat(pages) + chunk == events[..n]
      invariant Paging(size, pages, chunk) && (chunk == [] ==> pages == [])
    {
      var event := events[n];
      PagingNext(size, pages, chunk, event);
      assert events[..n + 1] == events[..n] + [event];
      if chunk != [] && !Fits(size, chunk + [event]) {
        PageDone(size, pages, chunk);
        pages := pages + [PageOf(chunk)];
        chunk := [event];
      } else {
        assert Concat(pages) + (chunk + [event]) == Concat(pages) + chunk + [event];
        chunk := chunk + [event];
      }
    }
    assert events[..|events|] == events;
    if chunk != [] {
      PageDone(size, pages, chunk);
      pages := pages + [PageOf(chunk)];
    } else {
      assert events == [] && pages == [];
    }
    if Linked(events) {
      assert Concat(pages) + [] == events;
      CutsAreLinked(size, pages, events, []);
    }
  }

  lemma {:induction false} NoPages()
    ensures Concat([]) == []
  {
  }

  // ---- Indexes ----

  /** One event as an index sees it: the page it is on, its key, and its other key. */
  datatype Mark<P(==), K(==), V(==)> = Mark(page: P, key: K, other: V)

  datatype Index<P, V> = Index(count: nat, others: set<V>, pages: seq<P>)

  function Bump<P(==), V(==)>(i: Index<P, V>, page: P, other: V): Index<P, V> {
    Index(i.count + 1, i.others + {other}, if page in i.pages then i.pages else i.pages + [page])
  }

  function Table<P(==), K(==), V(==)>(marks: seq<Mark<P, K, V>>): map<K, Index<P, V>> {
    if marks == [] then map[]
    else
      var before := Table(marks[..|marks| - 1]);
      var m := marks[|marks| - 1];
      before[m.key := Bump(if m.key in before then before[m.key] else Index(0, {}, []), m.page, m.other)]
  }

  function CountOf<P(==), K(==), V(==)>(marks: seq<Mark<P, K, V>>, k: K): nat {
    if marks == [] then 0
    else CountOf(marks[..|marks| - 1], k) + if marks[|marks| - 1].key == k then 1 else 0
  }

  ghost predicate NoDuplicates<P(!new)>(s: seq<P>) {
    forall i, j :: 0 <= i < j < |s| ==> s[i] != s[j]
  }

  /** What a key's index should be: its event count, the other keys seen with it, and each
      page that has such an event, once. */
  ghost predicate Describes<P(!new), K(!new), V(!new)>(i: Index<P, V>, marks: seq<Mark<P, K, V>>, k: K) {
    && i.count == CountOf(marks, k)
    && (forall m <- marks :: m.key == k ==> m.other in i.others && m.page in i.pages)
    && (forall v <- i.others :: SeenWith(marks, k, v))
    && (forall p <- i.pages :: SeenOn(marks, k, p))
    && NoDuplicates(i.pages)
  }

  ghost predicate SeenWith<P(!new), K(!new), V(!new)>(marks: seq<Mark<P, K, V>>, k: K, v: V) {
    exists m <- marks :: m.key == k && m.other == v
  }

  ghost predicate SeenOn<P(!new), K(!new), V(!new)>(marks: seq<Mark<P, K, V>>, k: K, p: P) {
    exists m <- marks :: m.key == k && m.page == p
  }

  lemma {:induction false} SeenGrows<P(!new), K(!new), V(!new)>(marks: seq<Mark<P, K, V>>, last: Mark<P, K, V>, k: K)
    ensures forall v :: SeenWith(marks, k, v) ==> SeenWith(marks + [last], k, v)
    ensures forall p :: SeenOn(marks, k, p) ==> SeenOn(marks + [last], k, p)
    ensures SeenWith(marks + [last], last.key, last.other) && SeenOn(marks + [last], last.key, last.page)
    ensures CountOf(marks + [last], k) == CountOf(marks, k) + if last.key == k then 1 else 0
  {
    assert (marks + [last])[..|marks|] == marks;
    assert last in marks + [last];
    forall v | SeenWith(marks, k, v) ensures SeenWith(marks + [last], k, v) {
      var m :| m in marks && m.key == k && m.other == v;
      assert m in marks + [last];
    }
    forall p | SeenOn(marks, k, p) ensures SeenOn(marks + [last], k, p) {
      var m :| m in marks && m.key == k && m.page == p;
      assert m in marks + [last];
    }
  }

  lemma {:induction false} PushDistinct<P(!new)>(pages: seq<P>, p: P)
    requires NoDuplicates(pages)
    ensures NoDuplicates(if p in pages then pages else pages + [p])
  {
  }

  lemma {:induction false} BumpDescribes<P(!new), K(!new), V(!new)>(i: Index<P, V>, marks: seq<Mark<P, K, V>>,
          last: Mark<P, K, V>)
    requires Describes(i, marks, last.key)
    ensures Describes(Bump(i, last.page, last.other), marks + [last], last.key)
  {
    hide SeenWith, SeenOn, NoDuplicates, CountOf;
    var k, grown, pages := last.key, marks + [last], if last.page in i.pages then i.pages else i.pages + [last.page];
    SeenGrows(marks, last, k);
    PushDistinct(i.pages, last.page);
    assert forall p :: p in pages <==> p in i.pages || p == last.page;
    forall m | m in grown && m.key == k ensures m.other in i.others + {last.other} && m.page in pages {
      assert m in marks || m == last;
    }
    forall v | v in i.others + {last.other} ensures SeenWith(grown, k, v) {
    }
    forall p | p in pages ensures SeenOn(grown, k, p) {
    }
    assert Bump(i, last.page, last.other) == Index(i.count + 1, i.others + {last.other}, pages);
  }

  lemma {:induction false} OtherDescribes<P(!new), K(!new), V(!new)>(i: Index<P, V>, marks: seq<Mark<P, K, V>>,
          last: Mark<P, K, V>, k: K)
    requires Describes(i, marks, k) && last.key != k
    ensures Describes(i, marks + [last], k)
  {
    SeenGrows(marks, last, k);
    hide SeenWith, SeenOn, NoDuplicates, CountOf;
  }

  /** An index holds a key exactly when some event has it, and then describes it. */
  lemma {:induction false} TableMeaning<P(!new), K(!new), V(!new)>(marks: seq<Mark<P, K, V>>, k: K)
    ensures k in Table(marks) <==> CountOf(marks, k) > 0
    ensures k in Table(marks) ==> Describes(Table(marks)[k], marks, k)
    ensures k !in Table(marks) ==> Describes(Index<P, V>.Index(0, {}, []), marks, k)
  {
    if marks != [] {
      var init, last := marks[..|marks| - 1], marks[|marks| - 1];
      assert marks == init + [last];
      TableMeaning(init, k);
      hide Describes, Bump;
      var before := if k in Table(init) then Table(init)[k] else Index(0, {}, []);
      if last.key == k {
        BumpDescribes(before, init, last);
      } else {
        OtherDescribes(before, init, last, k);
      }
    }
  }

  /** The events of a page, by run and by day. */
  function RunMarks(page: seq<Event>, events: seq<Event>): seq<Mark<seq<Event>, string, int>> {
    if events == [] then []
    else
      var core := events[|events| - 1].core;
      RunMarks(page, events[..|events| - 1]) + [Mark(page, core.entry.runId, core.day)]
  }

  function DayMarks(page: seq<Event>, events: seq<Event>): seq<Mark<seq<Event>, int, string>> {
    if events == [] then []
    else
      var core := events[|events| - 1].core;
      DayMarks(page, events[..|events| - 1]) + [Mark(page, core.day, core.entry.runId)]
  }

  function AllRunMarks(pages: seq<Page>): seq<Mark<seq<Event>, string, int>> {
    if pages == [] then []
    else
      var last := pages[|pages| - 1].events;
      AllRunMarks(pages[..|pages| - 1]) + RunMarks(last, last)
  }

  function AllDayMarks(pages: seq<Page>): seq<Mark<seq<Event>, int, string>> {
    if pages == [] then []
    else
      var last := pages[|pages| - 1].events;
      AllDayMarks(pages[..|pages| - 1]) + DayMarks(last, last)
  }

  lemma {:induction false} TableNext<P, K, V>(marks: seq<Mark<P, K, V>>, m: Mark<P, K, V>)
    ensures Table(marks + [m]) ==
            Table(marks)[m.key := Bump(if m.key in Table(marks) then Table(marks)[m.key] else Index(0, {}, []), m.page, m.other)]
  {
    assert (marks + [m])[..|marks|] == marks;
  }

  lemma {:induction false} MarksNext(runs: seq<Mark<seq<Event>, string, int>>, days: seq<Mark<seq<Event>, int, string>>,
                         page: seq<Event>, events: seq<Event>, i: nat)
    requires i < |events|
    ensures runs + RunMarks(page, events[..i + 1]) ==
            runs + RunMarks(page, events[..i]) + [Mark(page, events[i].core.entry.runId, events[i].core.day)]
    ensures days + DayMarks(page, events[..i + 1]) ==
            days + DayMarks(page, events[..i]) + [Mark(page, events[i].core.day, events[i].core.entry.runId)]
  {
    assert events[..i + 1][..i] == events[..i];
  }

  lemma {:induction false} MarksOfPage(pages: seq<Page>, n: nat)
    requires n < |pages|
    ensures var es := pages[n].events;
            && AllRunMarks(pages[..n + 1]) == AllRunMarks(pages[..n]) + RunMarks(es, es[..|es|])
            && AllDayMarks(pages[..n + 1]) == AllDayMarks(pages[..n]) + DayMarks(es, es[..|es|])
  {
    assert pages[..n + 1][..n] == pages[..n] && pages[n].events[..|pages[n].events|] == pages[n].events;
  }

  /** Both indexes, filled in one pass over the pages. */
  method Indexes(pages: seq<Page>) returns (runs: map<string, Index<seq<Event>, int>>,
          days: map<int, Index<seq<Event>, string>>)
    ensures runs == Table(AllRunMarks(pages)) && days == Table(AllDayMarks(pages))
  {
    runs, days := map[], map[];
    NothingMarked(pages);
    hide Table, AllRunMarks, AllDayMarks, RunMarks, DayMarks, Bump;
    for n := 0 to |pages|
      invariant runs == Table(AllRunMarks(pages[..n])) && days == Table(AllDayMarks(pages[..n]))
    {
      MarksOfPage(pages, n);
      runs, days := IndexPage(AllRunMarks(pages[..n]), AllDayMarks(pages[..n]), runs, days, pages[n].events);
    }
    assert pages[..|pages|] == pages;
  }

  lemma {:induction false} NothingMarked(pages: seq<Page>)
    ensures Table(AllRunMarks(pages[..0])) == map[] && Table(AllDayMarks(pages[..0])) == map[]
  {
  }

  /** The events of one page entered into both indexes. */
  method IndexPage(ghost runMarks: seq<Mark<seq<Event>, string, int>>, ghost dayMarks: seq<Mark<seq<Event>, int, string>>,
                   runs0: map<string, Index<seq<Event>, int>>, days0: map<int, Index<seq<Event>, string>>, page: seq<Event>)
    returns (runs: map<string, Index<seq<Event>, int>>, days: map<int, Index<seq<Event>, string>>)
    requires runs0 == Table(runMarks) && days0 == Table(dayMarks)
    ensures runs == Table(runMarks + RunMarks(page, page[..|page|])) && days == Table(dayMarks + DayMarks(page, page[..|page|]))
  {
    runs, days := runs0, days0;
    assert runMarks + RunMarks(page, page[..0]) == runMarks && dayMarks + DayMarks(page, page[..0]) == dayMarks;
    hide Table, RunMarks, DayMarks, Bump;
    for i := 0 to |page|
      invariant runs == Table(runMarks + RunMarks(page, page[..i]))
      invariant days == Table(dayMarks + DayMarks(page, page[..i]))
    {
      var run, day := page[i].core.entry.runId, page[i].core.day;
      MarksNext(runMarks, dayMarks, page, page, i);
      TableNext(runMarks + RunMarks(page, page[..i]), Mark(page, run, day));
      TableNext(dayMarks + DayMarks(page, page[..i]), Mark(page, day, run));
      runs := runs[run := Bump(if run in runs then runs[run] else Index(0, {}, []), page, day)];
      days := days[day := Bump(if day in days then days[day] else Index(0, {}, []), page, run)];
    }
  }

  /** The direct count of the events of a list that satisfy a condition. */
  function CountIf(events: seq<Event>, f: Event -> bool): nat {
    if events == [] then 0
    else CountIf(events[..|events| - 1], f) + if f(events[|events| - 1]) then 1 else 0
  }

  function OfRun(run: string): Event -> bool {
    (e: Event) => e.core.entry.runId == run
  }

  function OfDay(day: int): Event -> bool {
    (e: Event) => e.core.day == day
  }

  lemma {:induction false} CountConcat<P, K, V>(a: seq<Mark<P, K, V>>, b: seq<Mark<P, K, V>>, k: K)
    ensures CountOf(a + b, k) == CountOf(a, k) + CountOf(b, k)
  {
    if b == [] {
      assert a + b == a;
    } else {
      CountConcat(a, b[..|b| - 1], k);
      assert (a + b)[..|a + b| - 1] == a + b[..|b| - 1];
    }
  }

  lemma {:induction false} CountIfConcat(a: seq<Event>, b: seq<Event>, f: Event -> bool)
    ensures CountIf(a + b, f) == CountIf(a, f) + CountIf(b, f)
  {
    if b == [] {
      assert a + b == a;
    } else {
      CountIfConcat(a, b[..|b| - 1], f);
      assert (a + b)[..|a + b| - 1] == a + b[..|b| - 1];
    }
  }

  lemma {:induction false} MarksCount(page: seq<Event>, events: seq<Event>, run: string, day: int)
    ensures CountOf(RunMarks(page, events), run) == CountIf(events, OfRun(run))
    ensures CountOf(DayMarks(page, events), day) == CountIf(events, OfDay(day))
  {
    if events != [] {
      var init := events[..|events| - 1];
      MarksCount(page, init, run, day);
      var runs, days := RunMarks(page, events), DayMarks(page, events);
      assert runs[..|runs| - 1] == RunMarks(page, init) && days[..|days| - 1] == DayMarks(page, init);
    }
  }

  /** Over the pages of a chain, the indexes count exactly the events of the chain that have
      the run or the day, however it was cut into pages. */
  lemma {:induction false} CountsAgree(pages: seq<Page>, run: string, day: int)
    ensures CountOf(AllRunMarks(pages), run) == CountIf(Concat(pages), OfRun(run))
    ensures CountOf(AllDayMarks(pages), day) == CountIf(Concat(pages), OfDay(day))
  {
    if pages != [] {
      var init, last := pages[..|pages| - 1], pages[|pages| - 1].events;
      CountsAgree(init, run, day);
      CountConcat(AllRunMarks(init), RunMarks(last, last), run);
      CountConcat(AllDayMarks(init), DayMarks(last, last), day);
      MarksCount(last, last, run, day);
      CountIfConcat(Concat(init), last, OfRun(run));
      CountIfConcat(Concat(init), last, OfDay(day));
    }
  }

  /** A chain that reads is linked, and its events are within the byte bound. */
  lemma {:induction false} ChainIsLinked(c: Codec, rows: seq<Row>)
    requires Chain(c, rows)
    ensures Linked(Events(rows)) && forall e <- Events(rows) :: c.size(e) <= MAX_EVENT_BYTES
  {
    var es := Events(rows);
    forall i | 0 <= i < |es|
      ensures es[i].core.sequence == i + 1 && c.size(es[i]) <= MAX_EVENT_BYTES
      ensures es[i].core.previous == if i == 0 then None else Some(es[i - 1].hash)
    {
      assert Readable(c, rows[i]) && Continues(rows[..i], rows[i]);
    }
  }

  /** What the manifest holds. */
  datatype Snapshot = Snapshot(pages: seq<Page>, runs: map<string, Index<seq<Event>, int>>, days: map<int, Index<seq<Event>, string>>,
                               watermark: nat, head: Option<Digest>)

  const MANIFEST_BYTES := 8388608
  const MANIFEST_PAGES := 10000

  /** What a store's manifest must say: all of its chain, in linked pages within both bounds. */
  ghost predicate Faithful(store: AuditStore, s: Snapshot)
    reads store
  {
    && Concat(s.pages) == Events(store.rows)
    && (forall p <- s.pages :: PageInOrder(store.codec.size, p))
    && PagesLinked(s.pages) && Greedy(store.codec.size, s.pages)
    && s.runs == Table(AllRunMarks(s.pages)) && s.days == Table(AllDayMarks(s.pages))
    && s.watermark == |store.rows| && s.head == Head(store.rows)
  }

  /** The export of a store: refused if the chain is broken anywhere, or if its manifest is too
      large; in the second case the pages are written all the same. `size` is the length of an
      encoded manifest. */
  method ExportSnapshot(store: AuditStore, size: Snapshot -> nat) returns (r: Result<Snapshot>, written: Option<Snapshot>)
    ensures written.Some? <==> Chain(store.codec, store.rows)
    ensures written.Some? ==> Faithful(store, written.value)
    ensures r.Ok? <==> written.Some? && size(written.value) <= MANIFEST_BYTES && |written.value.pages| <= MANIFEST_PAGES
    ensures r.Ok? ==> Some(r.value) == written
  {
    hide Linked, Chain, PageInOrder, PagesLinked, Greedy, Table, AllRunMarks, AllDayMarks;
    written := None;
    var events :- store.Iterate();
    ChainIsLinked(store.codec, store.rows);
    var pages := Paginate(store.codec.size, events);
    var runs, days := Indexes(pages);
    Watermark(store.codec, store.rows, pages);
    var snapshot := Snapshot(pages, runs, days, if pages == [] then 0 else pages[|pages| - 1].last,
                             if pages == [] then None else Some(pages[|pages| - 1].lastHash));
    written := Some(snapshot);
    if size(snapshot) > MANIFEST_BYTES || |pages| > MANIFEST_PAGES {
      return Err(BadValue), written;
    }
    r := Ok(snapshot);
  }

  lemma {:induction false} Watermark(c: Codec, rows: seq<Row>, pages: seq<Page>)
    requires Chain(c, rows) && Concat(pages) == Events(rows) && forall p <- pages :: PageInOrder(c.size, p)
    ensures pages == [] <==> rows == []
    ensures pages != [] ==> pages[|pages| - 1].last == |rows| && Some(pages[|pages| - 1].lastHash) == Head(rows)
  {
    ChainIsLinked(c, rows);
    assert Events(rows) == Concat(pages) + [];
    CutsAreLinked(c.size, pages, Events(rows), []);
  }
}
