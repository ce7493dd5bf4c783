/** The driver `run_scraping`: for every genre it estimates the page count, fetches every
    page, and merges the records into one dictionary keyed by identifier, keeping the
    first record seen for each; then it adds tags and community statistics to every
    record. Also the `__main__` block that parses the genre list and writes the file. */
module RunScraping {
  import opened Wrappers
  import opened JsonValues
  import opened Books
  import opened Text
  import opened Dedup
  import opened DataOperations
  import opened FileOperations

  /** The answers of the website, one per request URL: the page-count request that
      depends on genre and batch size, the page requests that also depend on the page
      number, and the tag and statistics requests that depend on the identifier. */
  datatype Server = Server(
    total: (string, int) -> Attempt,
    page: (string, int, int) -> seq<Attempt>,
    tags: Json -> seq<Attempt>,
    statistics: Json -> seq<Attempt>)

  /** The `batch_size` `run_scraping` uses unless told otherwise. */
  const DefaultBatchSize: int := 60

  // ----- page range -----

  /** `max_pages_to_use`: the cap `max_pages` when it is given and not above the estimate,
      the estimate otherwise. */
  function PagesToUse(maxPages: Option<int>, total: int): (n: int)
    ensures maxPages.None? ==> n == total
    ensures maxPages.Some? ==> n <= maxPages.value && n <= total
    ensures maxPages.Some? ==> n == maxPages.value || n == total
  {
    if maxPages.Some? then
      if maxPages.value > total then total else maxPages.value
    else total
  }

  /** `[*range(1, n + 1, 1)]`. */
  function PageList(n: int): (pages: seq<int>)
    ensures |pages| == if n > 0 then n else 0
    ensures forall i :: 0 <= i < |pages| ==> pages[i] == i + 1
  {
    seq(if n > 0 then n else 0, i => i + 1)
  }

  /** The page list holds exactly the numbers 1 to `n`, in ascending order, and nothing
      when `n` is not positive. */
  lemma PageListExactly(n: int)
    ensures forall p :: p in PageList(n) <==> 1 <= p <= n
    ensures forall i, j :: 0 <= i < j < |PageList(n)| ==> PageList(n)[i] < PageList(n)[j]
    ensures n <= 0 ==> PageList(n) == []
  {
    var pages := PageList(n);
    forall p | 1 <= p <= n
      ensures p in pages
    {
      assert pages[p - 1] == p;
    }
  }

  // ----- genre list -----

  /** `[item.strip() for item in args.genres.split(',')]`. */
  function ParseGenres(arg: string): (genres: seq<string>)
    ensures |genres| == |Split(arg, ',')|
    ensures forall i :: 0 <= i < |genres| ==> genres[i] == Strip(Split(arg, ',')[i])
  {
    var parts := Split(arg, ',');
    seq(|parts|, i requires 0 <= i < |parts| => Strip(parts[i]))
  }

  /** One genre per comma-separated segment, and none of them begins or ends with
      whitespace or holds a comma. */
  lemma ParseGenresShape(arg: string)
    ensures |ParseGenres(arg)| == Count(arg, ',') + 1
    ensures forall i :: 0 <= i < |ParseGenres(arg)| ==> ',' !in ParseGenres(arg)[i]
    ensures forall i :: 0 <= i < |ParseGenres(arg)| ==> Trimmed(ParseGenres(arg)[i])
  {
    SplitLength(arg, ',');
    var parts := Split(arg, ',');
    forall i | 0 <= i < |parts|
      ensures ',' !in ParseGenres(arg)[i]
    {
      StripKeepsAbsent(parts[i], ',');
    }
  }

  /** Parsing a comma-joined list of genres without commas and without surrounding
      whitespace gives the list back. */
  lemma ParseGenresJoin(genres: seq<string>)
    requires genres != []
    requires forall i :: 0 <= i < |genres| ==> ',' !in genres[i]
    requires forall i :: 0 <= i < |genres| ==> Trimmed(genres[i])
    ensures ParseGenres(Join(genres, ',')) == genres
  {
    SplitJoin(genres, ',');
    forall i | 0 <= i < |genres|
      ensures Strip(genres[i]) == genres[i]
    {
      StripUnchanged(genres[i]);
    }
  }

  // ----- first-wins merge -----

  /** The dictionary key of an identifier: Python's `True` and `1` (`False` and `0`) are
      the same key. */
  function Key(v: Json): (k: Json)
    ensures !k.JBool?
    ensures !v.JBool? ==> k == v
  {
    match v
    case JBool(b) => JNum(if b then 1.0 else 0.0)
    case _ => v
  }

  /** Two identifiers are the same dictionary key exactly when they are equal, or are
      `True` and `1`, or `False` and `0`. */
  lemma KeySame(v: Json, w: Json)
    ensures Key(v) == Key(w) <==>
      v == w || {v, w} == {JBool(true), JNum(1.0)} || {v, w} == {JBool(false), JNum(0.0)}
  {
  }

  /** Whether an identifier can be a dictionary key: lists and dicts are unhashable, and
      testing `in` with one raises TypeError. */
  predicate Hashable(v: Json) {
    !v.JArr? && !v.JObj?
  }

  /** The keys of a list of records, in list order. */
  function KeysOf(ds: seq<BookData>): (ks: seq<Json>)
    ensures |ks| == |ds|
    ensures forall i :: 0 <= i < |ds| ==> ks[i] == Key(ds[i].identifier)
  {
    seq(|ds|, i requires 0 <= i < |ds| => Key(ds[i].identifier))
  }

  /** The keys of a list of book objects. The identifier is a constant of the object, so
      unlike `KeysOf(DataOf(books))` this reads no heap, and the merge functions built on
      it need no `reads` clause. */
  function ObjectKeys(books: seq<Book>): (ks: seq<Json>)
    ensures |ks| == |books|
    ensures forall i :: 0 <= i < |books| ==> ks[i] == Key(books[i].identifier)
  {
    seq(|books|, i requires 0 <= i < |books| => Key(books[i].identifier))
  }

  /** `if book_instance.identifier not in books: books[book_instance.identifier] =
      book_instance` on the dictionary `entries`, kept as its values in insertion order. */
  function Insert(entries: seq<Book>, book: Book): seq<Book> {
    if Key(book.identifier) in ObjectKeys(entries) then entries else entries + [book]
  }

  /** The dictionary after inserting every book of `page`, in order. */
  function Absorb(entries: seq<Book>, page: seq<Book>): seq<Book> {
    if page == [] then entries
    else Insert(Absorb(entries, page[..|page| - 1]), page[|page| - 1])
  }

  /** The reference definition: the first element for every key, in order of first
      appearance; `keys` holds the key of each element. */
  function FirstPerKey<T>(s: seq<T>, keys: seq<Json>): (r: seq<T>)
    requires |keys| == |s|
    ensures |r| == |FirstOccurrences(keys)|
  {
    Pick(s, FirstOccurrences(keys))
  }

  /** The books of `s`, first per identifier. */
  function FirstBooks(s: seq<Book>): seq<Book> {
    FirstPerKey(s, ObjectKeys(s))
  }

  /** The records of `ds`, first per identifier. */
  function FirstRecords(ds: seq<BookData>): seq<BookData> {
    FirstPerKey(ds, KeysOf(ds))
  }

  /** Inserting into the first-per-key selection of `s` selects from `s` extended. */
  lemma InsertFirstBooks(s: seq<Book>, book: Book)
    ensures Insert(FirstBooks(s), book) == FirstBooks(s + [book])
  {
    var ks := ObjectKeys(s);
    var ks2 := ObjectKeys(s + [book]);
    assert ks2[..|s|] == ks;
    assert ks2[|s|] == Key(book.identifier);
    var idx := FirstOccurrences(ks);
    assert ObjectKeys(FirstBooks(s)) == DistinctKeys(ks);
    FirstOccurrencesCover(ks);
    if Key(book.identifier) in DistinctKeys(ks) {
      assert FirstOccurrences(ks2) == idx;
    } else {
      assert Key(book.identifier) !in ks;
      assert FirstOccurrences(ks2) == idx + [|s|];
    }
  }

  /** Merging a page into the first-per-key selection of everything seen so far gives the
      first-per-key selection of everything seen including the page. */
  lemma {:induction false} AbsorbFirstBooks(s: seq<Book>, page: seq<Book>)
    ensures Absorb(FirstBooks(s), page) == FirstBooks(s + page)
  {
    if page == [] {
      assert s + page == s;
    } else {
      var init := page[..|page| - 1];
      AbsorbFirstBooks(s, init);
      InsertFirstBooks(s + init, page[|page| - 1]);
      assert s + init + [page[|page| - 1]] == s + page;
    }
  }

  /** Merging two pages one after the other is merging their concatenation. */
  lemma {:induction false} AbsorbAppend(entries: seq<Book>, a: seq<Book>, b: seq<Book>)
    ensures Absorb(entries, a + b) == Absorb(Absorb(entries, a), b)
  {
    if b == [] {
      assert a + b == a;
    } else {
      AbsorbAppend(entries, a, b[..|b| - 1]);
      assert (a + b)[..|a + b| - 1] == a + b[..|b| - 1];
    }
  }

  /** The first books per identifier are books of `s`. */
  lemma FirstBooksFrom(s: seq<Book>)
    ensures forall b :: b in FirstBooks(s) ==> b in s
  {
  }

  /** The attributes of the first books per identifier are the first records per
      identifier of their attributes. */
  lemma DataOfFirstBooks(s: seq<Book>)
    ensures DataOf(FirstBooks(s)) == FirstRecords(DataOf(s))
  {
    assert ObjectKeys(s) == KeysOf(DataOf(s));
  }

  lemma FirstRecordsPair(s: seq<BookData>, i: int, j: int)
    requires 0 <= i < j < |FirstOccurrences(KeysOf(s))|
    ensures Key(FirstRecords(s)[i].identifier) != Key(FirstRecords(s)[j].identifier)
  {
    var ks := KeysOf(s);
    var idx := FirstOccurrences(ks);
    FirstOccurrencesDistinct(ks);
    assert ks[idx[i]] != ks[idx[j]];
  }

  /** The merged keys are pairwise distinct. */
  lemma FirstRecordsDistinct(s: seq<BookData>)
    ensures forall i, j :: 0 <= i < j < |FirstRecords(s)| ==>
      Key(FirstRecords(s)[i].identifier) != Key(FirstRecords(s)[j].identifier)
  {
    forall i, j | 0 <= i < j < |FirstRecords(s)|
      ensures Key(FirstRecords(s)[i].identifier) != Key(FirstRecords(s)[j].identifier)
    {
      FirstRecordsPair(s, i, j);
    }
  }

  /** The merged keys are exactly the keys seen. */
  lemma FirstRecordsKeys(s: seq<BookData>)
    ensures forall k :: k in KeysOf(FirstRecords(s)) <==> k in KeysOf(s)
  {
    FirstOccurrencesCover(KeysOf(s));
    assert KeysOf(FirstRecords(s)) == DistinctKeys(KeysOf(s));
  }

  /** Every merged record is the first one seen with its key: an entry is never replaced
      by a later record with the same key. */
  lemma FirstRecordsFirst(s: seq<BookData>)
    ensures forall i :: 0 <= i < |FirstRecords(s)| ==>
      var p := FirstOccurrences(KeysOf(s))[i];
      FirstRecords(s)[i] == s[p] &&
      forall q :: 0 <= q < p ==> Key(s[q].identifier) != Key(s[p].identifier)
  {
    FirstOccurrencesAreFirst(KeysOf(s));
  }

  /** The inner loop over one page's books list. `ok == false` stands for the TypeError
      an unhashable identifier raises; the books before it have been merged. */
  method MergePage(entries: seq<Book>, page: seq<Book>) returns (merged: seq<Book>, ok: bool)
    ensures ok <==> forall i :: 0 <= i < |page| ==> Hashable(page[i].identifier)
    ensures ok ==> merged == Absorb(entries, page)
    ensures forall b :: b in merged ==> b in entries || b in page
  {
    merged := entries;
    var i := 0;
    while i < |page|
      invariant 0 <= i <= |page|
      invariant forall j :: 0 <= j < i ==> Hashable(page[j].identifier)
      invariant merged == Absorb(entries, page[..i])
      invariant forall b :: b in merged ==> b in entries || b in page
    {
      if !Hashable(page[i].identifier) {
        return merged, false;
      }
      if Key(page[i].identifier) !in ObjectKeys(merged) {
        merged := merged + [page[i]];
      }
      assert page[..i + 1][..i] == page[..i];
      i := i + 1;
    }
    assert page[..i] == page;
    ok := true;
  }

  /** All the books lists of one genre, in page order. */
  function Flatten(lists: seq<seq<Book>>): seq<Book> {
    if lists == [] then [] else Flatten(lists[..|lists| - 1]) + lists[|lists| - 1]
  }

  /** The books of a prefix of the lists are books of all the lists. */
  lemma {:induction false} FlattenPrefix(lists: seq<seq<Book>>, k: nat)
    requires k <= |lists|
    ensures forall b :: b in Flatten(lists[..k]) ==> b in Flatten(lists)
    decreases |lists|
  {
    if k < |lists| {
      var n := |lists|;
      assert lists[..n - 1][..k] == lists[..k];
      FlattenPrefix(lists[..n - 1], k);
    } else {
      assert lists[..k] == lists;
    }
  }

  /** Flattening a list in front of others puts its books first. */
  lemma {:induction false} FlattenCons(books: seq<Book>, lists: seq<seq<Book>>)
    ensures Flatten([books] + lists) == books + Flatten(lists)
    decreases |lists|
  {
    if lists != [] {
      var n := |lists|;
      assert ([books] + lists)[..n] == [books] + lists[..n - 1];
      FlattenCons(books, lists[..n - 1]);
    }
  }

  /** The records of all the lists are the records of each list, one after the other. */
  lemma {:induction false} DataOfFlatten(lists: seq<seq<Book>>, dss: seq<seq<BookData>>)
    requires |dss| == |lists|
    requires forall q :: 0 <= q < |lists| ==> DataOf(lists[q]) == dss[q]
    ensures DataOf(Flatten(lists)) == Concat(dss)
  {
    if lists != [] {
      var n := |lists|;
      DataOfFlatten(lists[..n - 1], dss[..n - 1]);
      DataOfAppend(Flatten(lists[..n - 1]), lists[n - 1]);
    }
  }

  /** The loop over `pool.starmap(get_books, ...)` for one genre: empty lists are skipped
      and every other list is merged. */
  method MergeGenre(entries: seq<Book>, lists: seq<seq<Book>>)
    returns (merged: seq<Book>, ok: bool)
    ensures ok <==> forall b :: b in Flatten(lists) ==> Hashable(b.identifier)
    ensures ok ==> merged == Absorb(entries, Flatten(lists))
    ensures forall b :: b in merged ==> b in entries || b in Flatten(lists)
  {
    merged := entries;
    var k := 0;
    while k < |lists|
      invariant 0 <= k <= |lists|
      invariant forall b :: b in Flatten(lists[..k]) ==> Hashable(b.identifier)
      invariant merged == Absorb(entries, Flatten(lists[..k]))
      invariant forall b :: b in merged ==> b in entries || b in Flatten(lists)
    {
      var booksList := lists[k];
      assert lists[..k + 1][..k] == lists[..k];
      FlattenPrefix(lists, k + 1);
      AbsorbAppend(entries, Flatten(lists[..k]), booksList);
      if booksList != [] {
        var pageOk;
        merged, pageOk := MergePage(merged, booksList);
        if !pageOk {
          return merged, false;
        }
      }
      k := k + 1;
    }
    assert lists[..k] == lists;
    ok := true;
  }

  // ----- the run, as a value -----

  /** The records the page request yields, nothing when it never settles. */
  function PageData(genre: string, batchSize: int, page: int, server: Server,
                    clean: Json -> Option<Json>): seq<BookData>
  {
    var reply := Reply(server.page(genre, batchSize, page));
    if reply.Some? then PageOutcome(reply.value, clean).books else []
  }

  /** The records of every page, page by page. */
  function PageRecords(genre: string, batchSize: int, pages: seq<int>, server: Server,
                       clean: Json -> Option<Json>): (rs: seq<seq<BookData>>)
    ensures |rs| == |pages|
    ensures forall q :: 0 <= q < |pages| ==> rs[q] == PageData(genre, batchSize, pages[q], server, clean)
  {
    seq(|pages|, q requires 0 <= q < |pages| => PageData(genre, batchSize, pages[q], server, clean))
  }

  /** The lists one after the other. */
  function Concat(dss: seq<seq<BookData>>): seq<BookData> {
    if dss == [] then [] else Concat(dss[..|dss| - 1]) + dss[|dss| - 1]
  }

  /** The records of a genre, page after page. */
  function GenreData(genre: string, batchSize: int, pages: seq<int>, server: Server,
                     clean: Json -> Option<Json>): seq<BookData>
  {
    Concat(PageRecords(genre, batchSize, pages, server, clean))
  }

  /** Every page request of the genre ends its retry loop. */
  predicate PagesSettle(genre: string, batchSize: int, pages: seq<int>, server: Server) {
    forall k :: 0 <= k < |pages| ==> Reply(server.page(genre, batchSize, pages[k])).Some?
  }

  /** The pages `run_scraping` requests for a genre, or None where estimating their number
      raises. */
  function GenrePages(genre: string, batchSize: int, maxPages: Option<int>, server: Server)
    : Option<seq<int>>
  {
    var total :- ApproxMaxPages(server.total(genre, batchSize), batchSize);
    Some(PageList(PagesToUse(maxPages, total)))
  }

  /** Why a run stops early. `Hung` stands for a request that never yields a usable body,
      on which the source retries forever; `Aborted` for an exception that reaches the
      `try` of `run_scraping`. */
  datatype Stop = Hung | Aborted

  /** How a run ends. */
  datatype RunOutcome = Completed | Stopped(why: Stop)

  /** The state after some genres: `stopped` holds the reason once one of them ended the
      run, and `seen` every record fetched while the run went on. */
  datatype Progress = Progress(stopped: Option<Stop>, seen: seq<BookData>)

  /** What fetching one genre gives: the reason the run stops, or the records of all its
      pages. */
  datatype Fetch = Failed(why: Stop) | Fetched(records: seq<BookData>)

  /** One genre's fetch: the page estimate comes first, then every page (all of them, as
      `starmap` returns only once each has). */
  function GenreFetch(genre: string, batchSize: int, maxPages: Option<int>, server: Server,
                      clean: Json -> Option<Json>): Fetch
  {
    match GenrePages(genre, batchSize, maxPages, server)
    case None => Failed(Aborted)
    case Some(pages) =>
      if !PagesSettle(genre, batchSize, pages, server) then Failed(Hung)
      else Fetched(GenreData(genre, batchSize, pages, server, clean))
  }

  /** Every identifier of the records can be a dictionary key. */
  predicate AllHashable(ds: seq<BookData>) {
    forall i :: 0 <= i < |ds| ==> Hashable(ds[i].identifier)
  }

  /** One genre, after the records `seen` of the earlier ones: the fetch, then the merge,
      in which an unhashable identifier raises. */
  function GenreStep(seen: seq<BookData>, genre: string, batchSize: int,
                     maxPages: Option<int>, server: Server, clean: Json -> Option<Json>)
    : Progress
  {
    match GenreFetch(genre, batchSize, maxPages, server, clean)
    case Failed(why) => Progress(Some(why), seen)
    case Fetched(records) =>
      if AllHashable(records) then Progress(None, seen + records)
      else Progress(Some(Aborted), seen)
  }

  /** A loop over genres, genre after genre, until one of them stops it; `step` is what
      one genre does after the records seen before it. */
  function Genres(genres: seq<string>, step: (seq<BookData>, string) -> Progress): Progress {
    if genres == [] then Progress(None, [])
    else
      var before := Genres(genres[..|genres| - 1], step);
      if before.stopped.Some? then before else step(before.seen, genres[|genres| - 1])
  }

  /** Once a genre stops the loop, the later genres are never visited. */
  lemma {:induction false} GenresStop(genres: seq<string>, n: nat,
                                      step: (seq<BookData>, string) -> Progress)
    requires n <= |genres|
    requires Genres(genres[..n], step).stopped.Some?
    ensures Genres(genres, step) == Genres(genres[..n], step)
    decreases |genres|
  {
    if n < |genres| {
      var m := |genres| - 1;
      assert genres[..m][..n] == genres[..n];
      GenresStop(genres[..m], n, step);
    } else {
      assert genres[..n] == genres;
    }
  }

  /** The genre loop of `run_scraping`. */
  function Scrape(genres: seq<string>, batchSize: int, maxPages: Option<int>, server: Server,
                  clean: Json -> Option<Json>): Progress
  {
    Genres(genres, (seen, genre) => GenreStep(seen, genre, batchSize, maxPages, server, clean))
  }

  /** A record after both enrichment passes. */
  function Enriched(d: BookData, server: Server): BookData {
    WithStatistics(WithTags(d, Reply(server.tags(d.identifier))),
                   Reply(server.statistics(d.identifier)))
  }

  /** Enrichment changes only the tags and the three counters, never the identifier. */
  lemma EnrichedKeepsRecord(d: BookData, server: Server)
    ensures Enriched(d, server).identifier == d.identifier
    ensures Enriched(d, server) == d.(tags := Enriched(d, server).tags,
      numberOfReaders := Enriched(d, server).numberOfReaders,
      numberOfOwners := Enriched(d, server).numberOfOwners,
      numberOfWishlist := Enriched(d, server).numberOfWishlist)
  {
    var t := WithTags(d, Reply(server.tags(d.identifier)));
    assert t == d.(tags := t.tags);
  }

  /** Every tag and statistics request of the records ends its retry loop. */
  predicate EnrichmentSettles(ds: seq<BookData>, server: Server) {
    (forall i :: 0 <= i < |ds| ==> Reply(server.tags(ds[i].identifier)).Some?) &&
    (forall i :: 0 <= i < |ds| ==> Reply(server.statistics(ds[i].identifier)).Some?)
  }

  /** After all genres, the dictionary holds the first record of every identifier fetched
      across all genres and pages, each key once: the one dictionary persists across
      genres. */
  lemma ScrapeMerged(genres: seq<string>, batchSize: int, maxPages: Option<int>,
                     server: Server, clean: Json -> Option<Json>)
    ensures var seen := Scrape(genres, batchSize, maxPages, server, clean).seen;
      (forall k :: k in KeysOf(FirstRecords(seen)) <==> k in KeysOf(seen)) &&
      forall i, j :: 0 <= i < j < |FirstRecords(seen)| ==>
        Key(FirstRecords(seen)[i].identifier) != Key(FirstRecords(seen)[j].identifier)
  {
    var seen := Scrape(genres, batchSize, maxPages, server, clean).seen;
    FirstRecordsKeys(seen);
    FirstRecordsDistinct(seen);
  }

  // ----- the run, step by step -----

  /** `get_books(genre, batch_size, page)` against the website. */
  method FetchPage(genre: string, batchSize: int, page: int, server: Server,
                   clean: Json -> Option<Json>)
    returns (settled: bool, books: seq<Book>)
    ensures settled <==> Reply(server.page(genre, batchSize, page)).Some?
    ensures settled ==> DataOf(books) == PageData(genre, batchSize, page, server, clean)
    ensures forall b :: b in books ==> fresh(b)
  {
    var delays;
    settled, books, delays := GetBooks(server.page(genre, batchSize, page), clean);
  }

  /** `pool.starmap(get_books, ...)` over the pages of one genre, in page order.
      `settled == false` stands for a page request that never settles. */
  method FetchPages(genre: string, batchSize: int, pages: seq<int>, server: Server,
                    clean: Json -> Option<Json>)
    returns (settled: bool, lists: seq<seq<Book>>)
    ensures settled <==> PagesSettle(genre, batchSize, pages, server)
    ensures settled ==> |lists| == |pages|
    ensures settled ==> forall q :: 0 <= q < |pages| ==>
      DataOf(lists[q]) == PageData(genre, batchSize, pages[q], server, clean)
    ensures forall b :: b in Flatten(lists) ==> fresh(b)
    decreases |pages|
  {
    if pages == [] {
      return true, [];
    }
    var ok, books := FetchPage(genre, batchSize, pages[0], server, clean);
    if !ok {
      return false, [];
    }
    var rest;
    settled, rest := FetchPages(genre, batchSize, pages[1..], server, clean);
    FlattenCons(books, rest);
    lists := [books] + rest;
    assert lists[0] == books && lists[1..] == rest;
  }

  /** The estimate and the page requests of the genre loop for one genre. */
  method FetchGenre(genre: string, batchSize: int, maxPages: Option<int>, server: Server,
                    clean: Json -> Option<Json>)
    returns (stopped: Option<Stop>, lists: seq<seq<Book>>)
    ensures stopped.Some? <==> GenreFetch(genre, batchSize, maxPages, server, clean).Failed?
    ensures stopped.Some? ==>
      stopped.value == GenreFetch(genre, batchSize, maxPages, server, clean).why
    ensures stopped.None? ==>
      DataOf(Flatten(lists)) == GenreFetch(genre, batchSize, maxPages, server, clean).records
    ensures forall b :: b in Flatten(lists) ==> fresh(b)
  {
    lists := [];
    var total := ApproxMaxPages(server.total(genre, batchSize), batchSize);
    if total.None? {
      return Some(Aborted), lists;
    }
    var pages := PageList(PagesToUse(maxPages, total.value));
    var settled;
    settled, lists := FetchPages(genre, batchSize, pages, server, clean);
    if !settled {
      return Some(Hung), lists;
    }
    DataOfFlatten(lists, PageRecords(genre, batchSize, pages, server, clean));
    stopped := None;
  }

  /** The body of the genre loop for one genre, on the dictionary `entries` that holds the
      first book per identifier of `before`; `fetched` are the books of the genre's
      pages. */
  method ScrapeGenre(entries: seq<Book>, ghost before: seq<Book>, ghost seen: seq<BookData>,
                     genre: string, batchSize: int, maxPages: Option<int>, server: Server,
                     clean: Json -> Option<Json>)
    returns (stopped: Option<Stop>, merged: seq<Book>, ghost fetched: seq<Book>)
    requires entries == FirstBooks(before)
    ensures stopped == GenreStep(seen, genre, batchSize, maxPages, server, clean).stopped
    ensures stopped.None? ==> merged == FirstBooks(before + fetched)
    ensures stopped.None? ==>
      GenreStep(seen, genre, batchSize, maxPages, server, clean).seen == seen + DataOf(fetched)
    ensures forall b :: b in fetched ==> fresh(b)
    ensures forall b :: b in merged ==> b in entries || b in fetched
  {
    var lists;
    stopped, lists := FetchGenre(genre, batchSize, maxPages, server, clean);
    merged, fetched := entries, [];
    if stopped.Some? {
      return;
    }
    fetched := Flatten(lists);
    ghost var records := DataOf(fetched);
    var ok;
    merged, ok := MergeGenre(entries, lists);
    if !ok {
      ghost var b :| b in fetched && !Hashable(b.identifier);
      ghost var i :| 0 <= i < |fetched| && fetched[i] == b;
      assert records[i].identifier == b.identifier;
      return Some(Aborted), merged, fetched;
    }
    forall i | 0 <= i < |records|
      ensures Hashable(records[i].identifier)
    {
      assert fetched[i] in fetched;
    }
    AbsorbFirstBooks(before, fetched);
  }

  /** `pool.imap(add_tags_to_book, books)`, one book after the other; the list that comes
      back holds the same books in the same order. */
  method TagPass(books: seq<Book>, server: Server) returns (settled: bool, result: seq<Book>)
    requires forall i, j :: 0 <= i < j < |books| ==> books[i] != books[j]
    modifies set b | b in books
    ensures settled <==>
      forall i :: 0 <= i < |books| ==> Reply(server.tags(books[i].identifier)).Some?
    ensures settled ==> result == books
    ensures settled ==> forall i :: 0 <= i < |books| ==>
      books[i].Data() == WithTags(old(books[i].Data()), Reply(server.tags(books[i].identifier)))
  {
    result := [];
    var i := 0;
    while i < |books|
      invariant 0 <= i <= |books|
      invariant result == books[..i]
      invariant forall j :: 0 <= j < i ==> Reply(server.tags(books[j].identifier)).Some?
      invariant forall j :: 0 <= j < i ==>
        books[j].Data() == WithTags(old(books[j].Data()), Reply(server.tags(books[j].identifier)))
      invariant forall j :: i <= j < |books| ==> books[j].Data() == old(books[j].Data())
    {
      var book, ok, delays := AddTagsToBook(books[i], server.tags(books[i].identifier));
      if !ok {
        return false, result;
      }
      result := result + [book];
      i := i + 1;
    }
    settled := true;
  }

  /** `pool.imap(add_community_statistics_to_book, books)`, one book after the other. */
  method StatisticsPass(books: seq<Book>, server: Server)
    returns (settled: bool, result: seq<Book>)
    requires forall i, j :: 0 <= i < j < |books| ==> books[i] != books[j]
    modifies set b | b in books
    ensures settled <==>
      forall i :: 0 <= i < |books| ==> Reply(server.statistics(books[i].identifier)).Some?
    ensures settled ==> result == books
    ensures settled ==> forall i :: 0 <= i < |books| ==>
      books[i].Data() ==
        WithStatistics(old(books[i].Data()), Reply(server.statistics(books[i].identifier)))
  {
    result := [];
    var i := 0;
    while i < |books|
      invariant 0 <= i <= |books|
      invariant result == books[..i]
      invariant forall j :: 0 <= j < i ==> Reply(server.statistics(books[j].identifier)).Some?
      invariant forall j :: 0 <= j < i ==>
        books[j].Data() ==
          WithStatistics(old(books[j].Data()), Reply(server.statistics(books[j].identifier)))
      invariant forall j :: i <= j < |books| ==> books[j].Data() == old(books[j].Data())
    {
      var book, ok, delays :=
        AddCommunityStatisticsToBook(books[i], server.statistics(books[i].identifier));
      if !ok {
        return false, result;
      }
      result := result + [book];
      i := i + 1;
    }
    settled := true;
  }

  /** The genre loop runs one more genre exactly when no earlier one stopped it. */
  lemma ScrapeSnoc(genres: seq<string>, g: nat, batchSize: int, maxPages: Option<int>,
                   server: Server, clean: Json -> Option<Json>)
    requires g < |genres|
    ensures var before := Scrape(genres[..g], batchSize, maxPages, server, clean);
      Scrape(genres[..g + 1], batchSize, maxPages, server, clean) ==
        if before.stopped.Some? then before
        else GenreStep(before.seen, genres[g], batchSize, maxPages, server, clean)
  {
    assert genres[..g + 1][..g] == genres[..g];
  }

  /** One round of the genre loop, from the state after the first `g` genres. */
  method ScrapeNext(entries: seq<Book>, ghost all: seq<Book>, ghost seen: seq<BookData>,
                    genres: seq<string>, g: nat, batchSize: int, maxPages: Option<int>,
                    server: Server, clean: Json -> Option<Json>)
    returns (stopped: Option<Stop>, merged: seq<Book>, ghost all': seq<Book>,
             ghost seen': seq<BookData>)
    requires g < |genres|
    requires Scrape(genres[..g], batchSize, maxPages, server, clean) == Progress(None, seen)
    requires entries == FirstBooks(all) && DataOf(all) == seen
    ensures stopped.Some? ==> Scrape(genres, batchSize, maxPages, server, clean).stopped == stopped
    ensures stopped.None? ==>
      Scrape(genres[..g + 1], batchSize, maxPages, server, clean) == Progress(None, seen') &&
      merged == FirstBooks(all') && DataOf(all') == seen'
    ensures forall b :: b in all' ==> b in all || fresh(b)
    ensures forall b :: b in merged ==> b in entries || fresh(b)
  {
    ScrapeSnoc(genres, g, batchSize, maxPages, server, clean);
    ghost var fetched;
    stopped, merged, fetched :=
      ScrapeGenre(entries, all, seen, genres[g], batchSize, maxPages, server, clean);
    all', seen' := all, seen;
    if stopped.Some? {
      GenresStop(genres, g + 1,
        (seen, genre) => GenreStep(seen, genre, batchSize, maxPages, server, clean));
      return;
    }
    DataOfAppend(all, fetched);
    all' := all + fetched;
    seen' := seen + DataOf(fetched);
  }

  /** The genre loop of `run_scraping`. */
  method ScrapeAll(genres: seq<string>, batchSize: int, maxPages: Option<int>, server: Server,
                   clean: Json -> Option<Json>)
    returns (stopped: Option<Stop>, entries: seq<Book>)
    ensures stopped == Scrape(genres, batchSize, maxPages, server, clean).stopped
    ensures stopped.None? ==>
      DataOf(entries) == FirstRecords(Scrape(genres, batchSize, maxPages, server, clean).seen)
    ensures forall b :: b in entries ==> fresh(b)
  {
    entries := [];
    ghost var all: seq<Book> := [];
    ghost var seen: seq<BookData> := [];
    var g := 0;
    while g < |genres|
      invariant 0 <= g <= |genres|
      invariant Scrape(genres[..g], batchSize, maxPages, server, clean) == Progress(None, seen)
      invariant entries == FirstBooks(all)
      invariant DataOf(all) == seen
      invariant forall b :: b in all ==> fresh(b)
      invariant forall b :: b in entries ==> fresh(b)
    {
      stopped, entries, all, seen :=
        ScrapeNext(entries, all, seen, genres, g, batchSize, maxPages, server, clean);
      if stopped.Some? {
        return;
      }
      g := g + 1;
    }
    assert genres[..g] == genres;
    DataOfFirstBooks(all);
    stopped := None;
  }

  /** The two enrichment passes over the merged books, whose attributes are `records`. */
  method Enrich(entries: seq<Book>, ghost records: seq<BookData>, server: Server)
    returns (settled: bool, books: seq<Book>)
    requires DataOf(entries) == records
    requires forall i, j :: 0 <= i < j < |records| ==>
      Key(records[i].identifier) != Key(records[j].identifier)
    modifies set b | b in entries
    ensures settled <==> EnrichmentSettles(records, server)
    ensures settled ==> books == entries
    ensures settled ==> forall i :: 0 <= i < |books| ==> books[i].Data() == Enriched(records[i], server)
  {
    assert forall i :: 0 <= i < |entries| ==> entries[i].identifier == records[i].identifier;
    settled, books := TagPass(entries, server);
    if !settled {
      return;
    }
    settled, books := StatisticsPass(books, server);
  }

  /** `run_scraping(genres, batch_size, max_pages)` against the website `server`, with
      `clean` for the markup stripping. On `Completed` the result is the merged records,
      each key once, in order of first appearance, each enriched. */
  method Run(genres: seq<string>, batchSize: int, maxPages: Option<int>, server: Server,
             clean: Json -> Option<Json>)
    returns (outcome: RunOutcome, books: seq<Book>)
    ensures var p := Scrape(genres, batchSize, maxPages, server, clean);
      p.stopped.Some? ==> outcome == Stopped(p.stopped.value)
    ensures var p := Scrape(genres, batchSize, maxPages, server, clean);
      p.stopped.None? ==>
        (outcome == Completed <==> EnrichmentSettles(FirstRecords(p.seen), server)) &&
        (outcome == Completed || outcome == Stopped(Hung))
    ensures var p := Scrape(genres, batchSize, maxPages, server, clean);
      outcome == Completed ==>
        |books| == |FirstRecords(p.seen)| &&
        forall i :: 0 <= i < |books| ==> books[i].Data() == Enriched(FirstRecords(p.seen)[i], server)
    ensures outcome == Completed ==>
      forall i, j :: 0 <= i < j < |books| ==> Key(books[i].identifier) != Key(books[j].identifier)
  {
    var stopped, entries := ScrapeAll(genres, batchSize, maxPages, server, clean);
    if stopped.Some? {
      return Stopped(stopped.value), entries;
    }
    ghost var records := FirstRecords(Scrape(genres, batchSize, maxPages, server, clean).seen);
    FirstRecordsDistinct(Scrape(genres, batchSize, maxPages, server, clean).seen);
    var settled;
    settled, books := Enrich(entries, records, server);
    if !settled {
      return Stopped(Hung), books;
    }
    assert forall i :: 0 <= i < |books| ==> books[i].identifier == records[i].identifier;
    outcome := Completed;
  }

  /** The `__main__` block: parse the genre list, scrape with the default batch size, and
      write the result. When the run was aborted, `books` is still the dictionary: its
      first element is a key without `to_json`, so the write stops with an exception right
      after the opening `{"books": [`, and an empty dictionary writes nothing. */
  method ScrapeAndWrite(genresArg: string, maxPages: Option<int>, server: Server,
                        clean: Json -> Option<Json>, toJson: BookData -> string,
                        file: OutputFile)
    returns (outcome: RunOutcome, books: seq<Book>)
    modifies file
    ensures outcome == Completed ==>
      file.content == old(file.content) + Document(Rendered(books, toJson))
    ensures outcome == Stopped(Aborted) ==>
      file.content == old(file.content) + (if books == [] then "" else Opening)
    ensures outcome == Stopped(Hung) ==> file.content == old(file.content)
  {
    var genres := ParseGenres(genresArg);
    outcome, books := Run(genres, DefaultBatchSize, maxPages, server, clean);
    if outcome == Completed {
      file.WriteDataToFile(books, toJson);
    } else if outcome == Stopped(Aborted) && books != [] {
      file.content := file.content + Opening;
    }
  }
}
