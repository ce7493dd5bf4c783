/** The fetchers: the page query `get_books` with the record extraction `get_book_data`,
    the enrichment queries `add_tags_to_book` and `add_community_statistics_to_book`, the
    stopword filter `remove_stopwords` and the page-count estimate `get_approx_max_pages`.
    Every HTTP request is replaced by a sequence of attempt outcomes. */
module DataOperations {
  import opened Wrappers
  import opened JsonValues
  import opened Books
  import opened Text

  /** The bound the retry loops compare `retry_counter` with. */
  const MaxRetries: nat := 3

  /** The first wait after a failed try, in seconds. */
  const InitialRetryTime: nat := 2

  /** One try of `requests.get(url).json()`: it raises (no connection, a body that does not
      decode) or it yields the decoded body. */
  datatype Attempt = Raised | Replied(body: Json)

  /** The value `json_string` starts with, Python's `""`. The retry loops go on exactly as
      long as `json_string` still equals it. */
  const Unassigned: Json := JStr("")

  /** A try that ends the retry loop: it assigns `json_string` a value other than `""`. */
  predicate Settles(a: Attempt) {
    a.Replied? && a.body != Unassigned
  }

  /** The index of the try that ends the loop: the first one that settles. */
  function Settle(attempts: seq<Attempt>): (r: Option<nat>)
    ensures r.Some? ==> r.value < |attempts| && Settles(attempts[r.value])
    ensures r.Some? ==> forall j :: 0 <= j < r.value ==> !Settles(attempts[j])
    ensures r.None? <==> forall j :: 0 <= j < |attempts| ==> !Settles(attempts[j])
  {
    if attempts == [] then None
    else if Settles(attempts[0]) then Some(0)
    else
      match Settle(attempts[1..])
      case None => None
      case Some(k) => Some(k + 1)
  }

  /** The body the loop ends with, or None when no try ends it. */
  function Reply(attempts: seq<Attempt>): (r: Option<Json>)
    ensures r.Some? <==> Settle(attempts).Some?
    ensures r.Some? ==> r.value != Unassigned && Replied(r.value) == attempts[Settle(attempts).value]
  {
    match Settle(attempts)
    case None => None
    case Some(s) => Some(attempts[s].body)
  }

  function Pow2(k: nat): nat {
    if k == 0 then 1 else 2 * Pow2(k - 1)
  }

  /** The waits after the first `k` failed tries: `retry_time` starts at 2 and doubles
      after every wait. */
  function Backoff(k: nat): (r: seq<nat>)
    ensures |r| == k
    ensures forall j :: 0 <= j < k ==> r[j] == Pow2(j + 1)
  {
    if k == 0 then [] else Backoff(k - 1) + [Pow2(k)]
  }

  function Sum(s: seq<nat>): nat {
    if s == [] then 0 else Sum(s[..|s| - 1]) + s[|s| - 1]
  }

  /** The first wait is 2 seconds and every later one doubles the one before. */
  lemma BackoffDoubles(k: nat)
    ensures k > 0 ==> Backoff(k)[0] == InitialRetryTime
    ensures forall j :: 0 < j < k ==> Backoff(k)[j] == 2 * Backoff(k)[j - 1]
  {
    if k > 0 {
      assert Pow2(1) == 2 * Pow2(0);
    }
  }

  /** After `k` failed tries the loop has slept `2 + 4 + ... + 2^k = 2^(k+1) - 2` seconds. */
  lemma {:induction false} BackoffTotal(k: nat)
    ensures Sum(Backoff(k)) + 2 == Pow2(k + 1)
  {
    if k > 0 {
      BackoffTotal(k - 1);
      assert Backoff(k)[..k - 1] == Backoff(k - 1);
    }
  }

  /** How often the loop sleeps: once for each try before the one that ends it, and once
      more when handling that last body raises (`finalRaises`); once for each try when no
      try ends the loop. */
  function Failures(attempts: seq<Attempt>, finalRaises: bool): (n: nat)
    ensures n <= |attempts|
    ensures Settle(attempts).None? ==> n == |attempts|
  {
    match Settle(attempts)
    case None => |attempts|
    case Some(s) => s + (if finalRaises then 1 else 0)
  }

  /** `retry_counter` stays 0, so `max_retries` bounds nothing: however many tries fail,
      the loop tries again, and sleeps once for every one of them. */
  lemma RetriesAreUnbounded(n: nat)
    ensures Settle(seq(n, _ => Raised)).None?
    ensures Failures(seq(n, _ => Raised), false) == n
  {
    var attempts: seq<Attempt> := seq(n, _ => Raised);
    assert forall j :: 0 <= j < |attempts| ==> !Settles(attempts[j]);
  }

  /** `BeautifulSoup(v, "html.parser").text` for an attribute that is not `None`, with
      `clean` standing for the markup stripping (None where BeautifulSoup raises). */
  function Cleaned(v: Json, clean: Json -> Option<Json>): Option<Json> {
    if v == JNull then Some(JNull) else clean(v)
  }

  /** `get_book_data(el)`: the record built from the inner `book` object, or None when a
      key is missing, a value cannot be indexed or cleaning fails. The source then reaches
      `return book_instance` with the name unbound and raises, so no partial record is
      ever returned. */
  function ExtractBook(el: Json, clean: Json -> Option<Json>): Option<BookData> {
    var book :- Lookup(el, "book");
    var identifier :- Lookup(book, "id");
    var isbn :- Lookup(book, "isbn");
    var rawTitle :- Lookup(book, "title");
    var title :- Cleaned(rawTitle, clean);
    var rawSubtitle :- Lookup(book, "subtitle");
    var subtitle :- Cleaned(rawSubtitle, clean);
    var rawSummary :- Lookup(book, "summary");
    var summary :- Cleaned(rawSummary, clean);
    var bookType :- Lookup(book, "bookTypeDescription");
    var pages :- Lookup(book, "numberOfPages");
    var authorObject :- Lookup(book, "author");
    var authorName :- Lookup(authorObject, "name");
    var authorId :- Lookup(authorObject, "id");
    var genre :- Lookup(book, "genre");
    var language :- Lookup(book, "language");
    var publisher :- Lookup(book, "publisher");
    var firstPublishingDate :- Lookup(book, "firstEditionPublicationDate");
    var ratings :- Lookup(book, "ratingDistribution");
    var averageRating :- Lookup(book, "averageRating");
    var numberOfRatings :- Lookup(book, "numberOfRatings");
    var numberOfReviews :- Lookup(book, "numberOfReviews");
    var cover :- Lookup(book, "cover");
    var coverUrl :- Lookup(cover, "url");
    Some(BookData(
      url := JNull, identifier := identifier, title := title, subtitle := subtitle,
      author := authorName, authorId := authorId, summary := summary, tags := JNull,
      isbn := isbn, averageRating := averageRating, ratingDistribution := ratings,
      numberOfRatings := numberOfRatings, numberOfReaders := JNull, numberOfOwners := JNull,
      numberOfWishlist := JNull, numberOfReviews := numberOfReviews, publisher := publisher,
      firstPublishingDate := firstPublishingDate, bookType := bookType, pages := pages,
      genre := genre, language := language, seriesIdentifier := JNull,
      coverUrl := coverUrl))
  }

  /** What `get_book_data` needs of an element: an object under `book` holding every key
      it reads, an `author` object with `name` and `id`, a `cover` object with `url`, and
      markup cleaning that succeeds on the title, the subtitle and the summary. */
  predicate Extractable(el: Json, clean: Json -> Option<Json>) {
    el.JObj? && "book" in el.fields &&
    var b := el.fields["book"];
    b.JObj? &&
    "id" in b.fields && "isbn" in b.fields && "title" in b.fields &&
    "subtitle" in b.fields && "summary" in b.fields && "bookTypeDescription" in b.fields &&
    "numberOfPages" in b.fields && "author" in b.fields && "genre" in b.fields &&
    "language" in b.fields && "publisher" in b.fields &&
    "firstEditionPublicationDate" in b.fields && "ratingDistribution" in b.fields &&
    "averageRating" in b.fields && "numberOfRatings" in b.fields &&
    "numberOfReviews" in b.fields && "cover" in b.fields &&
    b.fields["author"].JObj? && "name" in b.fields["author"].fields &&
    "id" in b.fields["author"].fields &&
    b.fields["cover"].JObj? && "url" in b.fields["cover"].fields &&
    Cleaned(b.fields["title"], clean).Some? && Cleaned(b.fields["subtitle"], clean).Some? &&
    Cleaned(b.fields["summary"], clean).Some?
  }

  /** Extraction succeeds exactly on extractable elements, and then every attribute comes
      from its key of the inner object, the three texts cleaned, and the six attributes the
      page does not deliver are `None`. */
  lemma ExtractBookFields(el: Json, clean: Json -> Option<Json>)
    ensures ExtractBook(el, clean).Some? <==> Extractable(el, clean)
    ensures ExtractBook(el, clean).Some? ==>
      var d := ExtractBook(el, clean).value;
      var b := el.fields["book"].fields;
      d.identifier == b["id"] && d.isbn == b["isbn"] &&
      Cleaned(b["title"], clean) == Some(d.title) &&
      Cleaned(b["subtitle"], clean) == Some(d.subtitle) &&
      Cleaned(b["summary"], clean) == Some(d.summary) &&
      d.bookType == b["bookTypeDescription"] && d.pages == b["numberOfPages"] &&
      d.author == b["author"].fields["name"] && d.authorId == b["author"].fields["id"] &&
      d.genre == b["genre"] && d.language == b["language"] && d.publisher == b["publisher"] &&
      d.firstPublishingDate == b["firstEditionPublicationDate"] &&
      d.ratingDistribution == b["ratingDistribution"] &&
      d.averageRating == b["averageRating"] && d.numberOfRatings == b["numberOfRatings"] &&
      d.numberOfReviews == b["numberOfReviews"] && d.coverUrl == b["cover"].fields["url"] &&
      d.url == JNull && d.tags == JNull && d.numberOfReaders == JNull &&
      d.numberOfOwners == JNull && d.numberOfWishlist == JNull && d.seriesIdentifier == JNull
  {
  }

  /** `book['id']` is copied without a check: giving an extractable element any other
      identifier, `""`, `None` and `0` included, yields the same record with that
      identifier. */
  lemma IdentifierNotChecked(el: Json, clean: Json -> Option<Json>, id: Json)
    requires Extractable(el, clean)
    ensures var b := el.fields["book"];
      var changed := JObj(el.fields["book" := JObj(b.fields["id" := id])]);
      ExtractBook(changed, clean) == Some(ExtractBook(el, clean).value.(identifier := id))
  {
    var b := el.fields["book"];
    var changed := JObj(el.fields["book" := JObj(b.fields["id" := id])]);
    ExtractBookFields(el, clean);
    ExtractBookFields(changed, clean);
  }

  /** The records a page yields, and whether handling it raised. */
  datatype Page = Page(books: seq<BookData>, raised: bool)

  /** The results of `f` on the elements of `items` up to the first one it fails on, and
      whether there is such an element. */
  function Successes<T, U>(items: seq<T>, f: T -> Option<U>): (r: (seq<U>, bool))
    ensures |r.0| <= |items|
    ensures forall j :: 0 <= j < |r.0| ==> f(items[j]) == Some(r.0[j])
    ensures r.1 <==> |r.0| < |items|
    ensures r.1 ==> f(items[|r.0|]).None?
  {
    if items == [] then ([], false)
    else
      match f(items[0])
      case None => ([], true)
      case Some(d) =>
        var rest := Successes(items[1..], f);
        ([d] + rest.0, rest.1)
  }

  /** The `for el in content` loop: records are appended until the first element that
      cannot be extracted, which raises. */
  function ExtractPrefix(items: seq<Json>, clean: Json -> Option<Json>): (r: Page)
    ensures |r.books| <= |items|
    ensures forall j :: 0 <= j < |r.books| ==> ExtractBook(items[j], clean) == Some(r.books[j])
    ensures r.raised <==> |r.books| < |items|
    ensures r.raised ==> ExtractBook(items[|r.books|], clean).None?
  {
    var r := Successes(items, el => ExtractBook(el, clean));
    Page(r.0, r.1)
  }

  /** The body of `get_books`' `try` for a decoded page: a missing `empty` key (or a body
      that is not an object) raises; a truthy `empty` yields nothing; otherwise the
      records of `content` up to the first one that fails. */
  function PageOutcome(body: Json, clean: Json -> Option<Json>): Page {
    match Lookup(body, "empty")
    case None => Page([], true)
    case Some(isEmpty) =>
      if Truthy(isEmpty) then Page([], false)
      else
        match Lookup(body, "content")
        case None => Page([], true)
        case Some(content) =>
          var visit := Iterate(content);
          if visit.raises then Page([], true) else ExtractPrefix(visit.items, clean)
  }

  /** A page whose `content` is a list of extractable elements yields one record per
      element, in order, and does not raise; an empty page yields nothing. */
  lemma PageOutcomeComplete(body: Json, items: seq<Json>, clean: Json -> Option<Json>)
    requires Lookup(body, "empty") == Some(JBool(false))
    requires Lookup(body, "content") == Some(JArr(items))
    requires forall j :: 0 <= j < |items| ==> Extractable(items[j], clean)
    ensures !PageOutcome(body, clean).raised
    ensures |PageOutcome(body, clean).books| == |items|
    ensures forall j :: 0 <= j < |items| ==>
      Some(PageOutcome(body, clean).books[j]) == ExtractBook(items[j], clean)
  {
    var r := ExtractPrefix(items, clean);
    if r.raised {
      ExtractBookFields(items[|r.books|], clean);
    }
  }

  /** The extraction loop's outcome is determined by the records it produced: they are the
      elements' records in order, followed either by the end of the list or by an element
      that fails. */
  lemma ExtractPrefixOf(items: seq<Json>, clean: Json -> Option<Json>, ds: seq<BookData>)
    requires |ds| <= |items|
    requires forall j :: 0 <= j < |ds| ==> ExtractBook(items[j], clean) == Some(ds[j])
    requires |ds| < |items| ==> ExtractBook(items[|ds|], clean).None?
    ensures ExtractPrefix(items, clean) == Page(ds, |ds| < |items|)
  {
    var r := ExtractPrefix(items, clean);
    if |r.books| < |ds| {
      assert false;
    } else if |r.books| > |ds| {
      assert false;
    }
    assert r.books == ds;
  }

  /** The records collected from one decoded page, as fresh objects. */
  method CollectPage(body: Json, clean: Json -> Option<Json>)
    returns (books: seq<Book>, raised: bool)
    ensures DataOf(books) == PageOutcome(body, clean).books
    ensures raised == PageOutcome(body, clean).raised
    ensures forall j :: 0 <= j < |books| ==> fresh(books[j])
  {
    books := [];
    var isEmpty := Lookup(body, "empty");
    if isEmpty.None? {
      return [], true;
    }
    if Truthy(isEmpty.value) {
      return [], false;
    }
    var content := Lookup(body, "content");
    if content.None? {
      return [], true;
    }
    var visit := Iterate(content.value);
    if visit.raises {
      return [], true;
    }
    books, raised := CollectItems(visit.items, clean);
  }

  /** The `for el in content` loop over the elements `items`. */
  method CollectItems(items: seq<Json>, clean: Json -> Option<Json>)
    returns (books: seq<Book>, raised: bool)
    ensures DataOf(books) == ExtractPrefix(items, clean).books
    ensures raised == ExtractPrefix(items, clean).raised
    ensures forall j :: 0 <= j < |books| ==> fresh(books[j])
  {
    books := [];
    var k := 0;
    while k < |items|
      invariant 0 <= k <= |items|
      invariant |books| == k
      invariant forall j :: 0 <= j < k ==> ExtractBook(items[j], clean) == Some(books[j].Data())
      invariant forall j :: 0 <= j < k ==> fresh(books[j])
    {
      var d := ExtractBook(items[k], clean);
      if d.None? {
        ExtractPrefixOf(items, clean, DataOf(books));
        return books, true;
      }
      var b := NewBook(d.value);
      books := books + [b];
      k := k + 1;
    }
    ExtractPrefixOf(items, clean, DataOf(books));
    raised := false;
  }

  /** One pass through the `try` of `get_books`' loop: the request, then the records of
      the body. A try that raises leaves `json_string` at `""` and no record behind. */
  method TryPage(attempt: Attempt, clean: Json -> Option<Json>)
    returns (jsonString: Json, books: seq<Book>, raised: bool)
    ensures attempt.Replied? ==> jsonString == attempt.body
    ensures !Settles(attempt) ==> jsonString == Unassigned && books == [] && raised
    ensures Settles(attempt) ==>
      DataOf(books) == PageOutcome(jsonString, clean).books &&
      raised == PageOutcome(jsonString, clean).raised
    ensures forall j :: 0 <= j < |books| ==> fresh(books[j])
  {
    if attempt.Raised? {
      return Unassigned, [], true;
    }
    jsonString := attempt.body;
    books, raised := CollectPage(jsonString, clean);
  }

  /** `get_books(genre, batch_size, page)` with the tries of its request given as
      `attempts`. `settled == false` stands for a request that never yields a usable body,
      on which the source loops forever. `delays` are the `time.sleep` arguments. */
  method GetBooks(attempts: seq<Attempt>, clean: Json -> Option<Json>)
    returns (settled: bool, books: seq<Book>, delays: seq<nat>)
    ensures settled <==> Reply(attempts).Some?
    ensures settled ==> DataOf(books) == PageOutcome(Reply(attempts).value, clean).books
    ensures !settled ==> books == []
    ensures delays == Backoff(Failures(attempts,
      settled && PageOutcome(Reply(attempts).value, clean).raised))
    ensures forall j :: 0 <= j < |books| ==> fresh(books[j])
  {
    var retryCounter := 0;
    var retryTime := InitialRetryTime;
    var jsonString := Unassigned;
    books := [];
    delays := [];
    var i := 0;
    while jsonString == Unassigned && retryCounter < MaxRetries && i < |attempts|
      invariant 0 <= i <= |attempts|
      invariant retryCounter == 0 && jsonString == Unassigned
      invariant Settle(attempts).None? || Settle(attempts).value >= i
      invariant books == [] && delays == Backoff(i) && retryTime == Pow2(i + 1)
    {
      var raised;
      jsonString, books, raised := TryPage(attempts[i], clean);
      i := i + 1;
      if raised {
        delays := delays + [retryTime];
        retryTime := retryTime * 2;
      }
      if jsonString != Unassigned {
        // The loop condition fails on the next test: this body ends the loop.
        assert Settle(attempts) == Some(i - 1);
        return true, books, delays;
      }
    }
    settled := false;
  }

  /** The record after `add_tags_to_book` handled the final body `reply` (None: no body
      ended the loop): only `tags` may change, and only to the body's `tags` value. */
  function WithTags(d: BookData, reply: Option<Json>): (r: BookData)
    ensures r == d.(tags := r.tags)
    ensures r.tags == d.tags || (reply.Some? && Lookup(reply.value, "tags") == Some(r.tags))
    ensures reply.Some? && Lookup(reply.value, "tags").Some? ==>
      r.tags == Lookup(reply.value, "tags").value
  {
    if reply.Some? && Lookup(reply.value, "tags").Some? then
      d.(tags := Lookup(reply.value, "tags").value)
    else d
  }

  /** `add_tags_to_book(book)` with the tries of its request given as `attempts`: the same
      object comes back, with its tags set from the body that ended the loop. */
  method AddTagsToBook(book: Book, attempts: seq<Attempt>)
    returns (r: Book, settled: bool, delays: seq<nat>)
    modifies book
    ensures r == book
    ensures settled <==> Reply(attempts).Some?
    ensures book.Data() == WithTags(old(book.Data()), Reply(attempts))
    ensures delays == Backoff(Failures(attempts,
      settled && Lookup(Reply(attempts).value, "tags").None?))
  {
    var retryCounter := 0;
    var retryTime := InitialRetryTime;
    var jsonString := Unassigned;
    delays := [];
    r := book;
    var i := 0;
    while jsonString == Unassigned && retryCounter < MaxRetries && i < |attempts|
      invariant 0 <= i <= |attempts|
      invariant retryCounter == 0 && jsonString == Unassigned
      invariant Settle(attempts).None? || Settle(attempts).value >= i
      invariant book.Data() == old(book.Data()) && delays == Backoff(i) && retryTime == Pow2(i + 1)
    {
      var attempt := attempts[i];
      i := i + 1;
      var raised := false;
      if attempt.Raised? {
        raised := true;
      } else {
        jsonString := attempt.body;
        var tags := Lookup(jsonString, "tags");
        if tags.None? {
          raised := true;
        } else {
          book.SetTags(tags.value);
        }
      }
      if raised {
        delays := delays + [retryTime];
        retryTime := retryTime * 2;
      }
      if jsonString != Unassigned {
        // The loop condition fails on the next test: this body ends the loop.
        assert Settle(attempts) == Some(i - 1);
        return book, true, delays;
      }
    }
    settled := false;
  }

  /** The three community counters of a body, when it holds all three. */
  function Statistics(body: Json): Option<(Json, Json, Json)> {
    var readers :- Lookup(body, "numberOfReaders");
    var owners :- Lookup(body, "numberOfOwners");
    var wishlist :- Lookup(body, "numberOfWishlist");
    Some((readers, owners, wishlist))
  }

  /** The record after `add_community_statistics_to_book` handled the final body `reply`:
      only the three counters may change, and either all three take the body's values or
      none changes. */
  function WithStatistics(d: BookData, reply: Option<Json>): (r: BookData)
    ensures r == d.(numberOfReaders := r.numberOfReaders, numberOfOwners := r.numberOfOwners,
                    numberOfWishlist := r.numberOfWishlist)
    ensures r == d || (reply.Some? && Statistics(reply.value) ==
      Some((r.numberOfReaders, r.numberOfOwners, r.numberOfWishlist)))
    ensures reply.Some? && Statistics(reply.value).Some? ==>
      Statistics(reply.value) == Some((r.numberOfReaders, r.numberOfOwners, r.numberOfWishlist))
  {
    if reply.Some? && Statistics(reply.value).Some? then
      var counters := Statistics(reply.value).value;
      d.(numberOfReaders := counters.0, numberOfOwners := counters.1,
         numberOfWishlist := counters.2)
    else d
  }

  /** `add_community_statistics_to_book(book)` with the tries of its request given as
      `attempts`: all three counters are read before any setter runs. */
  method AddCommunityStatisticsToBook(book: Book, attempts: seq<Attempt>)
    returns (r: Book, settled: bool, delays: seq<nat>)
    modifies book
    ensures r == book
    ensures settled <==> Reply(attempts).Some?
    ensures book.Data() == WithStatistics(old(book.Data()), Reply(attempts))
    ensures delays == Backoff(Failures(attempts,
      settled && Statistics(Reply(attempts).value).None?))
  {
    var retryCounter := 0;
    var retryTime := InitialRetryTime;
    var jsonString := Unassigned;
    delays := [];
    r := book;
    var i := 0;
    while jsonString == Unassigned && retryCounter < MaxRetries && i < |attempts|
      invariant 0 <= i <= |attempts|
      invariant retryCounter == 0 && jsonString == Unassigned
      invariant Settle(attempts).None? || Settle(attempts).value >= i
      invariant book.Data() == old(book.Data()) && delays == Backoff(i) && retryTime == Pow2(i + 1)
    {
      var attempt := attempts[i];
      i := i + 1;
      var raised := false;
      if attempt.Raised? {
        raised := true;
      } else {
        jsonString := attempt.body;
        var readers := Lookup(jsonString, "numberOfReaders");
        var owners := Lookup(jsonString, "numberOfOwners");
        var wishlist := Lookup(jsonString, "numberOfWishlist");
        if readers.None? || owners.None? || wishlist.None? {
          raised := true;
        } else {
          book.SetNumberOfReaders(readers.value);
          book.SetNumberOfOwners(owners.value);
          book.SetNumberOfWishlist(wishlist.value);
        }
      }
      if raised {
        delays := delays + [retryTime];
        retryTime := retryTime * 2;
      }
      if jsonString != Unassigned {
        // The loop condition fails on the next test: this body ends the loop.
        assert Settle(attempts) == Some(i - 1);
        return book, true, delays;
      }
    }
    settled := false;
  }

  /** The tokens `remove_stopwords` keeps, in their order: longer than one character, with
      a lower-case form outside the stop set. */
  function Kept(tokens: seq<string>, stop: set<string>, lower: string -> string): seq<string> {
    if tokens == [] then []
    else
      var w := tokens[|tokens| - 1];
      Kept(tokens[..|tokens| - 1], stop, lower) + (if |w| > 1 && lower(w) !in stop then [w] else [])
  }

  /** A token is kept exactly when it is longer than one character and its lower-case form
      is not a stop word; nothing else enters the result. */
  lemma {:induction false} KeptMembers(tokens: seq<string>, stop: set<string>,
                                       lower: string -> string)
    ensures |Kept(tokens, stop, lower)| <= |tokens|
    ensures forall w :: w in Kept(tokens, stop, lower) <==>
      w in tokens && |w| > 1 && lower(w) !in stop
  {
    if tokens != [] {
      var front := tokens[..|tokens| - 1];
      KeptMembers(front, stop, lower);
      assert tokens == front + [tokens[|tokens| - 1]];
    }
  }

  /** Filtering keeps relative order: the tokens of a concatenation are filtered piece by
      piece. */
  lemma {:induction false} KeptAppend(a: seq<string>, b: seq<string>, stop: set<string>,
                                      lower: string -> string)
    ensures Kept(a + b, stop, lower) == Kept(a, stop, lower) + Kept(b, stop, lower)
  {
    if b != [] {
      var front := b[..|b| - 1];
      var w := b[|b| - 1];
      var last := if |w| > 1 && lower(w) !in stop then [w] else [];
      assert (a + b)[..|a + b| - 1] == a + front;
      assert (a + b)[|a + b| - 1] == w;
      assert Kept(b, stop, lower) == Kept(front, stop, lower) + last;
      assert Kept(a + b, stop, lower) == Kept(a + front, stop, lower) + last;
      KeptAppend(a, front, stop, lower);
      assert Kept(a, stop, lower) + Kept(front, stop, lower) + last
        == Kept(a, stop, lower) + (Kept(front, stop, lower) + last);
    } else {
      assert a + b == a;
    }
  }

  /** `remove_stopwords`, given the tokens `word_tokenize` produced, the stop set and
      `str.lower`: the kept tokens joined by single spaces. */
  function RemoveStopwords(tokens: seq<string>, stop: set<string>, lower: string -> string)
    : string
  {
    Join(Kept(tokens, stop, lower), ' ')
  }

  /** Splitting the result at spaces gives back exactly the kept tokens, when there is
      one and no token holds a space. */
  lemma RemoveStopwordsWords(tokens: seq<string>, stop: set<string>, lower: string -> string)
    requires Kept(tokens, stop, lower) != []
    requires forall j :: 0 <= j < |tokens| ==> ' ' !in tokens[j]
    ensures Split(RemoveStopwords(tokens, stop, lower), ' ') == Kept(tokens, stop, lower)
  {
    var kept := Kept(tokens, stop, lower);
    KeptMembers(tokens, stop, lower);
    assert forall j :: 0 <= j < |kept| ==> kept[j] in tokens;
    SplitJoin(kept, ' ');
  }

  /** `math.ceil`: the least integer not below `x`. */
  function Ceil(x: real): (r: int)
    ensures r as real - 1.0 < x <= r as real
  {
    if x.Floor as real == x then x.Floor else x.Floor + 1
  }

  /** Dividing by a positive number keeps strict and non-strict bounds. */
  lemma DivideBounds(lo: real, hi: real, t: real, b: real)
    requires b > 0.0 && lo * b < t <= hi * b
    ensures lo < t / b <= hi
  {
    assert t / b - lo == (t - lo * b) / b;
    assert hi - t / b == (hi * b - t) / b;
  }

  /** `get_approx_max_pages(genre, batch_size)` given the outcome of its one request (it
      has no retry): None where the source raises, which is when the request fails, when
      `totalElements` is missing or not a number, or when `batch_size` is 0. */
  function ApproxMaxPages(reply: Attempt, batchSize: int): Option<int> {
    if reply.Raised? then None
    else
      var total :- Lookup(reply.body, "totalElements");
      var t :- NumberValue(total);
      if batchSize == 0 then None else Some(Ceil(t / batchSize as real))
  }

  /** For a positive batch size the ceiling of the quotient is the integer quotient
      rounded up. */
  lemma CeilDivInt(t: int, b: int)
    requires b > 0
    ensures Ceil(t as real / b as real) == (t + b - 1) / b
  {
    var q := (t + b - 1) / b;
    assert (q - 1) * b < t <= q * b;
    assert (q - 1) as real * b as real == ((q - 1) * b) as real;
    assert q as real * b as real == (q * b) as real;
    DivideBounds((q - 1) as real, q as real, t as real, b as real);
  }

  /** An integral `totalElements` gives the rounded-up quotient, for example 125 books in
      pages of 60 give 3 pages. */
  lemma ApproxMaxPagesCount(body: Json, t: int, b: int)
    requires Lookup(body, "totalElements") == Some(JNum(t as real))
    requires b > 0
    ensures ApproxMaxPages(Replied(body), b) == Some((t + b - 1) / b)
  {
    CeilDivInt(t, b);
  }

  lemma ApproxMaxPagesExample()
    ensures ApproxMaxPages(Replied(JObj(map["totalElements" := JNum(125.0)])), 60) == Some(3)
  {
    ApproxMaxPagesCount(JObj(map["totalElements" := JNum(125.0)]), 125, 60);
  }
}
