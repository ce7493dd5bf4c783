/** A book record: its attributes as one value (`BookData`, what `__dict__` holds) and
    the mutable `Book` object whose setters the enrichment passes call. */
module Books {
  import opened Wrappers
  import opened JsonValues

  /** The attributes of a book, in the order `Book.__init__` assigns them. Every
      attribute holds a decoded JSON value; `JNull` stands for Python's `None`. */
  datatype BookData = BookData(
    url: Json, identifier: Json, title: Json, subtitle: Json, author: Json,
    authorId: Json, summary: Json, tags: Json, isbn: Json, averageRating: Json,
    ratingDistribution: Json, numberOfRatings: Json, numberOfReaders: Json,
    numberOfOwners: Json, numberOfWishlist: Json, numberOfReviews: Json,
    publisher: Json, firstPublishingDate: Json, bookType: Json, pages: Json,
    genre: Json, language: Json, seriesIdentifier: Json, coverUrl: Json)

  /** The keyword names of `Book.__init__`, which are also the keys of `__dict__`. */
  const FieldNames: set<string> := {
    "url", "identifier", "title", "subtitle", "author", "author_id", "summary", "tags",
    "isbn", "average_rating", "rating_distribution", "number_of_ratings",
    "number_of_readers", "number_of_owners", "number_of_wishlist", "number_of_reviews",
    "publisher", "first_publishing_date", "book_type", "pages", "genre", "language",
    "series_identifier", "cover_url"
  }

  /** The attributes of a book, one constructor each. */
  datatype Attr =
    | Url
    | Identifier
    | Title
    | Subtitle
    | Author
    | AuthorId
    | Summary
    | Tags
    | Isbn
    | AverageRating
    | RatingDistribution
    | NumberOfRatings
    | NumberOfReaders
    | NumberOfOwners
    | NumberOfWishlist
    | NumberOfReviews
    | Publisher
    | FirstPublishingDate
    | BookType
    | Pages
    | Genre
    | Language
    | SeriesIdentifier
    | CoverUrl

  /** The keyword and `__dict__` name of an attribute. */
  function Name(a: Attr): string {
    match a
    case Url => "url"
    case Identifier => "identifier"
    case Title => "title"
    case Subtitle => "subtitle"
    case Author => "author"
    case AuthorId => "author_id"
    case Summary => "summary"
    case Tags => "tags"
    case Isbn => "isbn"
    case AverageRating => "average_rating"
    case RatingDistribution => "rating_distribution"
    case NumberOfRatings => "number_of_ratings"
    case NumberOfReaders => "number_of_readers"
    case NumberOfOwners => "number_of_owners"
    case NumberOfWishlist => "number_of_wishlist"
    case NumberOfReviews => "number_of_reviews"
    case Publisher => "publisher"
    case FirstPublishingDate => "first_publishing_date"
    case BookType => "book_type"
    case Pages => "pages"
    case Genre => "genre"
    case Language => "language"
    case SeriesIdentifier => "series_identifier"
    case CoverUrl => "cover_url"
  }

  /** The value of attribute `a` (`getattr(book, Name(a))`). */
  function Field(d: BookData, a: Attr): Json {
    match a
    case Url => d.url
    case Identifier => d.identifier
    case Title => d.title
    case Subtitle => d.subtitle
    case Author => d.author
    case AuthorId => d.authorId
    case Summary => d.summary
    case Tags => d.tags
    case Isbn => d.isbn
    case AverageRating => d.averageRating
    case RatingDistribution => d.ratingDistribution
    case NumberOfRatings => d.numberOfRatings
    case NumberOfReaders => d.numberOfReaders
    case NumberOfOwners => d.numberOfOwners
    case NumberOfWishlist => d.numberOfWishlist
    case NumberOfReviews => d.numberOfReviews
    case Publisher => d.publisher
    case FirstPublishingDate => d.firstPublishingDate
    case BookType => d.bookType
    case Pages => d.pages
    case Genre => d.genre
    case Language => d.language
    case SeriesIdentifier => d.seriesIdentifier
    case CoverUrl => d.coverUrl
  }

  /** The keyword argument `name` of a call, or its default `None` when omitted. */
  function Keyword(m: map<string, Json>, name: string): Json {
    if name in m then m[name] else JNull
  }

  /** `Book(**m)`: `identifier` is the one required argument, and an unknown keyword
      raises TypeError; omitted optional arguments default to `None`. */
  function FromKeywords(m: map<string, Json>): Option<BookData> {
    if "identifier" in m && m.Keys <= FieldNames then
      Some(BookData(
        url := Keyword(m, "url"), identifier := m["identifier"],
        title := Keyword(m, "title"), subtitle := Keyword(m, "subtitle"),
        author := Keyword(m, "author"), authorId := Keyword(m, "author_id"),
        summary := Keyword(m, "summary"), tags := Keyword(m, "tags"),
        isbn := Keyword(m, "isbn"), averageRating := Keyword(m, "average_rating"),
        ratingDistribution := Keyword(m, "rating_distribution"),
        numberOfRatings := Keyword(m, "number_of_ratings"),
        numberOfReaders := Keyword(m, "number_of_readers"),
        numberOfOwners := Keyword(m, "number_of_owners"),
        numberOfWishlist := Keyword(m, "number_of_wishlist"),
        numberOfReviews := Keyword(m, "number_of_reviews"),
        publisher := Keyword(m, "publisher"),
        firstPublishingDate := Keyword(m, "first_publishing_date"),
        bookType := Keyword(m, "book_type"), pages := Keyword(m, "pages"),
        genre := Keyword(m, "genre"), language := Keyword(m, "language"),
        seriesIdentifier := Keyword(m, "series_identifier"),
        coverUrl := Keyword(m, "cover_url")))
    else None
  }

  /** `Book(**m)` succeeds exactly when `identifier` is given and every keyword is known,
      and then every attribute is the keyword of its name or `None`. */
  lemma FromKeywordsFields(m: map<string, Json>)
    ensures FromKeywords(m).Some? <==> "identifier" in m && m.Keys <= FieldNames
    ensures FromKeywords(m).Some? ==> forall a :: Field(FromKeywords(m).value, a) == Keyword(m, Name(a))
  {
  }

  /** The attribute names are exactly the keyword names. */
  lemma NamesAreFieldNames()
    ensures forall a :: Name(a) in FieldNames
    ensures forall n :: n in FieldNames ==> exists a :: Name(a) == n
  {
    forall n | n in FieldNames
      ensures exists a :: Name(a) == n
    {
      if n == "url" {
        assert Name(Url) == n;
      } else if n == "identifier" {
        assert Name(Identifier) == n;
      } else if n == "title" {
        assert Name(Title) == n;
      } else if n == "subtitle" {
        assert Name(Subtitle) == n;
      } else if n == "author" {
        assert Name(Author) == n;
      } else if n == "author_id" {
        assert Name(AuthorId) == n;
      } else if n == "summary" {
        assert Name(Summary) == n;
      } else if n == "tags" {
        assert Name(Tags) == n;
      } else if n == "isbn" {
        assert Name(Isbn) == n;
      } else if n == "average_rating" {
        assert Name(AverageRating) == n;
      } else if n == "rating_distribution" {
        assert Name(RatingDistribution) == n;
      } else if n == "number_of_ratings" {
        assert Name(NumberOfRatings) == n;
      } else if n == "number_of_readers" {
        assert Name(NumberOfReaders) == n;
      } else if n == "number_of_owners" {
        assert Name(NumberOfOwners) == n;
      } else if n == "number_of_wishlist" {
        assert Name(NumberOfWishlist) == n;
      } else if n == "number_of_reviews" {
        assert Name(NumberOfReviews) == n;
      } else if n == "publisher" {
        assert Name(Publisher) == n;
      } else if n == "first_publishing_date" {
        assert Name(FirstPublishingDate) == n;
      } else if n == "book_type" {
        assert Name(BookType) == n;
      } else if n == "pages" {
        assert Name(Pages) == n;
      } else if n == "genre" {
        assert Name(Genre) == n;
      } else if n == "language" {
        assert Name(Language) == n;
      } else if n == "series_identifier" {
        assert Name(SeriesIdentifier) == n;
      } else if n == "cover_url" {
        assert Name(CoverUrl) == n;
      }
    }
  }

  /** Every setter overwrites one attribute (its `ensures` is `Data() == old(Data()).(f := v)`
      for its attribute `f`), so a second call with the same value leaves the object as the
      first call left it: the update each setter performs is idempotent. */
  lemma SettersIdempotent(d: BookData, v: Json)
    ensures d.(tags := v).(tags := v) == d.(tags := v)
    ensures d.(numberOfReaders := v).(numberOfReaders := v) == d.(numberOfReaders := v)
    ensures d.(numberOfOwners := v).(numberOfOwners := v) == d.(numberOfOwners := v)
    ensures d.(numberOfWishlist := v).(numberOfWishlist := v) == d.(numberOfWishlist := v)
  {
  }

  class Book {
    var url: Json
    /** Assigned by the constructor only: no method of the class writes it. */
    const identifier: Json
    var title: Json
    var subtitle: Json
    var author: Json
    var authorId: Json
    var summary: Json
    var tags: Json
    var isbn: Json
    var averageRating: Json
    var ratingDistribution: Json
    var numberOfRatings: Json
    var numberOfReaders: Json
    var numberOfOwners: Json
    var numberOfWishlist: Json
    var numberOfReviews: Json
    var publisher: Json
    var firstPublishingDate: Json
    var bookType: Json
    var pages: Json
    var genre: Json
    var language: Json
    var seriesIdentifier: Json
    var coverUrl: Json

    /** The object's attributes as one value. */
    function Data(): BookData
      reads this
    {
      BookData(url, identifier, title, subtitle, author, authorId, summary, tags, isbn,
        averageRating, ratingDistribution, numberOfRatings, numberOfReaders, numberOfOwners,
        numberOfWishlist, numberOfReviews, publisher, firstPublishingDate, bookType, pages,
        genre, language, seriesIdentifier, coverUrl)
    }

    /** `Book(identifier, ...)`: every argument is stored under its own name; omitted
        optional arguments are `None`. */
    constructor (identifier: Json, url: Json := JNull, title: Json := JNull,
                 subtitle: Json := JNull, author: Json := JNull, authorId: Json := JNull,
                 summary: Json := JNull, tags: Json := JNull, isbn: Json := JNull,
                 averageRating: Json := JNull, ratingDistribution: Json := JNull,
                 numberOfRatings: Json := JNull, numberOfReviews: Json := JNull,
                 publisher: Json := JNull, firstPublishingDate: Json := JNull,
                 bookType: Json := JNull, pages: Json := JNull, genre: Json := JNull,
                 language: Json := JNull, numberOfReaders: Json := JNull,
                 numberOfOwners: Json := JNull, numberOfWishlist: Json := JNull,
                 seriesIdentifier: Json := JNull, coverUrl: Json := JNull)
      ensures Data() == BookData(url, identifier, title, subtitle, author, authorId,
        summary, tags, isbn, averageRating, ratingDistribution, numberOfRatings,
        numberOfReaders, numberOfOwners, numberOfWishlist, numberOfReviews, publisher,
        firstPublishingDate, bookType, pages, genre, language, seriesIdentifier, coverUrl)
    {
      this.url := url;
      this.identifier := identifier;
      this.title := title;
      this.subtitle := subtitle;
      this.author := author;
      this.authorId := authorId;
      this.summary := summary;
      this.tags := tags;
      this.isbn := isbn;
      this.averageRating := averageRating;
      this.ratingDistribution := ratingDistribution;
      this.numberOfRatings := numberOfRatings;
      this.numberOfReaders := numberOfReaders;
      this.numberOfOwners := numberOfOwners;
      this.numberOfWishlist := numberOfWishlist;
      this.numberOfReviews := numberOfReviews;
      this.publisher := publisher;
      this.firstPublishingDate := firstPublishingDate;
      this.bookType := bookType;
      this.pages := pages;
      this.genre := genre;
      this.language := language;
      this.seriesIdentifier := seriesIdentifier;
      this.coverUrl := coverUrl;
    }

    method SetTags(tags: Json)
      modifies this
      ensures Data() == old(Data()).(tags := tags)
    {
      this.tags := tags;
    }

    method SetNumberOfReaders(numberOfReaders: Json)
      modifies this
      ensures Data() == old(Data()).(numberOfReaders := numberOfReaders)
    {
      this.numberOfReaders := numberOfReaders;
    }

    method SetNumberOfOwners(numberOfOwners: Json)
      modifies this
      ensures Data() == old(Data()).(numberOfOwners := numberOfOwners)
    {
      this.numberOfOwners := numberOfOwners;
    }

    method SetNumberOfWishlist(numberOfWishlist: Json)
      modifies this
      ensures Data() == old(Data()).(numberOfWishlist := numberOfWishlist)
    {
      this.numberOfWishlist := numberOfWishlist;
    }
  }

  /** `Book(**fields)` for a record known as a value: a fresh object holding it. */
  method NewBook(d: BookData) returns (b: Book)
    ensures fresh(b) && b.Data() == d
  {
    b := new Book(d.identifier, d.url, d.title, d.subtitle, d.author, d.authorId,
      d.summary, d.tags, d.isbn, d.averageRating, d.ratingDistribution, d.numberOfRatings,
      d.numberOfReviews, d.publisher, d.firstPublishingDate, d.bookType, d.pages, d.genre,
      d.language, d.numberOfReaders, d.numberOfOwners, d.numberOfWishlist,
      d.seriesIdentifier, d.coverUrl);
  }

  /** The attributes of a list of books, in list order. */
  function DataOf(books: seq<Book>): (ds: seq<BookData>)
    reads books
    ensures |ds| == |books|
    ensures forall i :: 0 <= i < |books| ==> ds[i] == books[i].Data()
  {
    seq(|books|, i requires 0 <= i < |books| reads books => books[i].Data())
  }

  /** The attributes of a concatenation are the attributes of its pieces, in order. */
  lemma DataOfAppend(a: seq<Book>, b: seq<Book>)
    ensures DataOf(a + b) == DataOf(a) + DataOf(b)
  {
    assert forall i :: 0 <= i < |a + b| ==> DataOf(a + b)[i] == (DataOf(a) + DataOf(b))[i];
  }
}
