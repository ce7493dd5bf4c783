# Lovelybooks scraper, modelled in Dafny

This project models the core of a scraper for the book site lovelybooks.de:

- **`run_scraping`**, the driver. For every genre it estimates the number of listing pages. It fetches each page through `get_books`, which builds one record per listed book with `get_book_data`. It merges the records into a dictionary keyed by identifier. Then it adds tags (`add_tags_to_book`) and community statistics (`add_community_statistics_to_book`) to every merged book.
- **The `__main__` block**. It parses the comma-separated genre list and writes the result to a JSON file (`write_data_to_file`, `write_book_infos_to_json`).
- **`load_books`**, which reads the file back.
- **`Book`**, the record class, and **`remove_stopwords`**.

The modules follow the source files:

| module | file | models |
|---|---|---|
| `Wrappers`, `JsonValues` | `json.dfy` | a result type; decoded JSON values, `v[key]`, truthiness, `for x in v` |
| `Text` | `text.dfy` | `str.split`, `str.join`, `str.strip` |
| `Books` | `book.dfy` | `book.py`: `BookData` (the attributes) and the class `Book` with its setters |
| `Dedup` | `dedup.dfy` | first-occurrence deduplication: a reference definition for the merge |
| `DataOperations` | `data_operations.dfy` | `data_operations.py` |
| `FileOperations` | `file_operations.dfy` | `file_operations.py`; the output file is a class whose text only grows |
| `RunScraping` | `run_scraping.dfy` | `run_scraping.py` |

How the outside world is represented:

- **HTTP requests.** A request is a sequence of `Attempt`s. A connection error or a body that does not decode is `Raised`. Any decoded body, whatever its status code, is `Replied`: the source never checks the status. The site is a `Server` value with four answer functions: `total` for the page-count request, `page` for the listing pages, `tags` and `statistics` for the enrichment requests. A retry loop ends at the first try whose body is not `""`. When no try settles, the call is `settled == false`, and the run ends as `Stopped(Hung)`. This stands for the source, which retries forever.
- **Sleeps.** Every `time.sleep` of a retry loop is returned as a list of delays.
- **Markup cleaning.** BeautifulSoup is a parameter `clean`.
- **Tokens and stop words.** The NLTK tokens, the stop-word set and `str.lower` are parameters.
- **Serialisation.** `json.dumps` of a book is a parameter `toJson`. `json.load`'s result is a `Json` parameter.

The driver is proved against a value-level specification. `Scrape` folds `GenreStep` over the genres. `FirstRecords` keeps the first record per key, in order of first appearance, and is defined by `Dedup.FirstOccurrences`. `Enriched` applies both enrichment passes. `Document` is the file text.

Behaviour of the code that the model keeps:

- **Duplicate identifiers.** The merge keeps the first record seen for each identifier.
- **Retries.** The retry loops never increment `retry_counter`, so they retry without bound. A body whose handling raises still ends the loop, because `json_string` is no longer `""`.
- **Failed estimates.** A failed page-count estimate, or an unhashable identifier, raises inside the `try` of `run_scraping` and ends the whole genre loop.
- **Failed extraction.** A listing element that cannot be extracted raises (`book_instance` is unbound). Its page then keeps only the records before it.
- **Identifiers.** `book['id']` is copied without a check, so a record whose identifier is `""`, `None` or `0` is merged, enriched and written like any other.
- **Empty output.** Writing an empty list writes nothing.

## Model

| member | source | states |
|---|---|---|
| Text.Split | src/run_scraping.py:88 | `split` never gives an empty list, and no piece holds the separator |
| Text.SplitLength | src/run_scraping.py:88 | there is one more piece than there are separators |
| Text.JoinSplit | src/run_scraping.py:88 | joining the pieces with the separator gives back the string |
| Text.SplitJoin | src/data_operations.py:163 | splitting a join of separator-free parts gives back the parts |
| Text.JoinAppend | src/data_operations.py:163 | appending a part adds one separator and the part |
| Text.CountJoin | src/file_operations.py:33-40 | a join holds the parts' separators and one more between each pair of neighbours |
| Text.LeadingSpace | src/run_scraping.py:88 | the length of the longest whitespace prefix: all of it is whitespace, and the next character is not |
| Text.TrailingSpace | src/run_scraping.py:88 | the same for the longest whitespace suffix |
| Text.Strip | src/run_scraping.py:88 | `strip()` is the infix between a whitespace prefix and a whitespace suffix, and it is itself trimmed; it is empty exactly when the string is all whitespace |
| Text.StripKeepsAbsent | src/run_scraping.py:88 | stripping adds no character |
| Text.StripUnchanged | src/run_scraping.py:88 | a trimmed string is its own strip |
| Books.FromKeywords | src/book.py:11-47 | `Book(**m)`: None where the call raises TypeError; `FromKeywordsFields` states when that is and what each attribute becomes |
| Books.FromKeywordsFields | src/book.py:11-47 | `Book(**m)` succeeds exactly when `identifier` is given and every keyword is known; every attribute is then the keyword of its name, or `None` |
| Books.NamesAreFieldNames | src/book.py:11-23 | the attribute names are exactly the constructor's keywords: every name is a keyword, and every keyword names an attribute |
| Books.SettersIdempotent | src/book.py:49-59 | the one-attribute update each setter performs is idempotent: a second call with the same value leaves the object as the first left it |
| Books.Book.constructor | src/book.py:11-47 | each argument is stored in the attribute of the same name |
| Books.Book.SetTags | src/book.py:49-50 | only `tags` changes, to the argument |
| Books.Book.SetNumberOfReaders | src/book.py:52-53 | only `number_of_readers` changes, to the argument |
| Books.Book.SetNumberOfOwners | src/book.py:55-56 | only `number_of_owners` changes, to the argument |
| Books.Book.SetNumberOfWishlist | src/book.py:58-59 | only `number_of_wishlist` changes, to the argument |
| Books.NewBook | src/book.py:11-47 | a fresh object whose attributes are the given record |
| Dedup.FirstOccurrencesAreFirst | src/run_scraping.py:50-51 | every selected position is the first one that holds its key |
| Dedup.FirstOccurrencesDistinct | src/run_scraping.py:50-51 | the selected keys are pairwise distinct |
| Dedup.FirstOccurrencesCover | src/run_scraping.py:50-51 | every key of the input is among the selected ones |
| Dedup.DistinctKeysFromInput | src/run_scraping.py:50-51 | the selected keys come from the input |
| DataOperations.Settle | src/data_operations.py:30-40 | the try that ends the retry loop is the first try whose body is not `""`; None exactly when no try qualifies |
| DataOperations.Reply | src/data_operations.py:30-33 | the body the loop ends with is that try's body, and it is never `""` |
| DataOperations.Backoff | src/data_operations.py:26-42 | the `k`-th wait is `2^(k+1)` |
| DataOperations.BackoffDoubles | src/data_operations.py:38-40 | the first wait is 2 seconds, and each later wait doubles the one before |
| DataOperations.BackoffTotal | src/data_operations.py:38-40 | after `k` failed tries the loop has slept `2^(k+1) - 2` seconds |
| DataOperations.Failures | src/data_operations.py:30-40 | the loop sleeps at most once per try, and after every try when none settles |
| DataOperations.RetriesAreUnbounded | src/data_operations.py:24-30 | however many tries raise, none settles and each one is followed by a sleep: `max_retries` bounds nothing |
| DataOperations.ExtractBook | src/data_operations.py:46-94 | `get_book_data`: None where the source raises; `ExtractBookFields` states when it succeeds and where each attribute comes from, `IdentifierNotChecked` that any identifier is accepted |
| DataOperations.Cleaned | src/data_operations.py:59-67 | the BeautifulSoup step of one text attribute: `None` stays `None`; `ExtractBookFields` states the cleaned attributes through it |
| DataOperations.IdentifierNotChecked | src/data_operations.py:53-55 | replacing the identifier of an extractable element by any value, `""`, `None` and `0` included, yields the same record with that identifier |
| DataOperations.ExtractBookFields | src/data_operations.py:46-94 | `get_book_data` succeeds exactly on elements that hold every key it reads and whose texts clean; each attribute then comes from its key (three of them cleaned), and the six attributes a page does not deliver are `None` |
| DataOperations.Successes | src/data_operations.py:35-37 | the results up to the first failing element, each the result of its element, and whether an element failed |
| DataOperations.ExtractPrefix | src/data_operations.py:35-37 | the records kept are those of the elements before the first failure, in order; the loop raises exactly when an element fails |
| DataOperations.PageOutcome | src/data_operations.py:32-37 | the outcome of one decoded page body; `PageOutcomeComplete` states the all-extractable case, `ExtractPrefix` the records kept, `CollectPage` and `GetBooks` the books built from it |
| DataOperations.PageOutcomeComplete | src/data_operations.py:32-37 | a non-empty page of extractable elements yields one record per element, in order, and does not raise |
| DataOperations.ExtractPrefixOf | src/data_operations.py:35-37 | the extraction outcome is determined by the records produced and by where the loop stopped |
| DataOperations.CollectItems | src/data_operations.py:35-37 | the fresh books built have exactly the records of `ExtractPrefix`, and raise exactly when it does |
| DataOperations.CollectPage | src/data_operations.py:32-37 | the books of one decoded body: a missing `empty` key or `content` raises; a truthy `empty` gives no book |
| DataOperations.TryPage | src/data_operations.py:31-40 | one try: a raising request leaves `json_string` at `""` with no book; a settling one yields the body's records |
| DataOperations.GetBooks | src/data_operations.py:14-43 | settles exactly when a try settles; the books are then the records of that body; the waits are the doubling back-off, one per failed try plus one when the final body raises |
| DataOperations.WithTags | src/data_operations.py:113-115 | only `tags` may change, and only to the body's `tags` value |
| DataOperations.AddTagsToBook | src/data_operations.py:97-120 | the same object comes back, with its tags set by `WithTags` from the settling body; the waits follow the back-off |
| DataOperations.Statistics | src/data_operations.py:140-142 | the three counters of a body, None when one is missing; `WithStatistics` states that either all three are set or none |
| DataOperations.WithStatistics | src/data_operations.py:139-145 | only the three counters may change: either all three take the body's values or none changes |
| DataOperations.AddCommunityStatisticsToBook | src/data_operations.py:123-150 | the same object comes back, updated by `WithStatistics` from the settling body; the waits follow the back-off |
| DataOperations.Kept | src/data_operations.py:162 | the filtered tokens; `KeptMembers` and `KeptAppend` state which tokens are kept and that their order is kept |
| DataOperations.RemoveStopwords | src/data_operations.py:153-164 | `remove_stopwords`: `RemoveStopwordsWords` states that splitting the result at spaces gives back the kept tokens |
| DataOperations.KeptMembers | src/data_operations.py:162 | a token is kept exactly when it is longer than one character and its lower-case form is not a stop word |
| DataOperations.KeptAppend | src/data_operations.py:162 | filtering keeps the tokens' order: it distributes over concatenation |
| DataOperations.RemoveStopwordsWords | src/data_operations.py:153-164 | when some token is kept and no token holds a space, splitting the result at spaces gives back exactly the kept tokens, in order |
| DataOperations.Ceil | src/data_operations.py:178 | `math.ceil`: the least integer not below its argument |
| DataOperations.CeilDivInt | src/data_operations.py:178 | for whole numbers, `ceil(t / b)` is the rounded-up integer quotient |
| DataOperations.ApproxMaxPages | src/data_operations.py:167-179 | `get_approx_max_pages`: None where the source raises; `ApproxMaxPagesCount` states the rounded-up quotient for a whole-number total |
| DataOperations.ApproxMaxPagesCount | src/data_operations.py:167-179 | a whole-number `totalElements` gives the rounded-up quotient of the totals by the batch size |
| DataOperations.ApproxMaxPagesExample | src/data_operations.py:167-179 | 125 books in pages of 60 give 3 pages |
| FileOperations.Framed | src/file_operations.py:53-59 | what one `write_book_infos_to_json` call appends; `OutputFile.WriteBookInfosToJson` is proved against it |
| FileOperations.WrittenUpTo | src/file_operations.py:32-39 | what the first `j` rounds of `write_data_to_file` append; `WrittenPartial`, `WrittenStep` and `WrittenComplete` state it |
| FileOperations.Document | src/file_operations.py:26-40 | the file text for a list of records; `WrittenComplete` ties it to the writer loop, `DocumentSeparators` counts its commas |
| FileOperations.WrittenPartial | src/file_operations.py:33-39 | a write stopped after `j` records leaves the opening and those records, each followed by a comma, and no closing |
| FileOperations.WrittenComplete | src/file_operations.py:26-40 | writing every record gives the opening, the records separated by commas, and the closing; no record writes nothing |
| FileOperations.DocumentSeparators | src/file_operations.py:26-40 | the document holds the records' own commas and exactly one more between each pair of neighbours |
| FileOperations.WrittenStep | src/file_operations.py:55-59 | one more round appends the next record's framing |
| FileOperations.Rendered | src/book.py:61-65 | one serialised record per book, in list order |
| FileOperations.OutputFile.WriteBookInfosToJson | src/file_operations.py:43-59 | appends the opening for the first record, the record, a comma unless it is the last, and the closing for the last |
| FileOperations.OutputFile.WriteDataToFile | src/file_operations.py:26-40 | appends exactly the document of the books' records |
| FileOperations.Convert | src/file_operations.py:20-21 | `Book(**book)` for one element, None where it raises; `ConvertAll` and `LoadedDataElementwise` state it |
| FileOperations.LoadedData | src/file_operations.py:17-21 | the records `load_books` builds, None where it raises; `LoadedDataElementwise` and `LoadBooks` state it |
| FileOperations.ConvertAll | src/file_operations.py:20-21 | succeeds exactly when every element converts, with one record per element in order |
| FileOperations.LoadedDataElementwise | src/file_operations.py:10-23 | a successful load has one record per element of `"books"`, in order, each attribute read from the element's key of the same name |
| FileOperations.LoadBooks | src/file_operations.py:10-23 | succeeds exactly when the file's `"books"` converts element by element; the books then hold exactly those records |
| RunScraping.PagesToUse | src/run_scraping.py:32-37 | the page count is the estimate, capped by `max_pages` when that is given |
| RunScraping.PageList | src/run_scraping.py:42 | the pages `1..n`, one per position |
| RunScraping.PageListExactly | src/run_scraping.py:42 | the page list holds exactly `1..n`, ascending, and is empty when `n <= 0` |
| RunScraping.ParseGenres | src/run_scraping.py:88 | one genre per comma-separated segment, each stripped |
| RunScraping.ParseGenresShape | src/run_scraping.py:88 | there are `commas + 1` genres; none holds a comma, and none begins or ends with whitespace |
| RunScraping.ParseGenresJoin | src/run_scraping.py:88 | parsing the comma-join of trimmed, comma-free genres gives them back |
| RunScraping.Key | src/run_scraping.py:50-51 | a key is never a boolean, and any other identifier is its own key |
| RunScraping.KeySame | src/run_scraping.py:50-51 | two identifiers share a dictionary key exactly when they are equal, or are `True` and `1`, or `False` and `0` |
| RunScraping.Insert | src/run_scraping.py:50-51 | one first-wins insertion; `InsertFirstBooks` ties it to the first-per-key selection |
| RunScraping.Absorb | src/run_scraping.py:49-51 | a list inserted book by book; `AbsorbFirstBooks` and `AbsorbAppend` state it, `MergePage` and `MergeGenre` are proved against it |
| RunScraping.InsertFirstBooks | src/run_scraping.py:50-51 | one insertion into the first-per-key selection of `s` gives the selection of `s` extended by the book |
| RunScraping.AbsorbFirstBooks | src/run_scraping.py:49-51 | merging a books list into the first-per-key selection gives the selection of everything, that list included |
| RunScraping.AbsorbAppend | src/run_scraping.py:47-51 | merging two lists one after the other equals merging their concatenation |
| RunScraping.FirstBooksFrom | src/run_scraping.py:50-51 | the merged books are books that were fetched |
| RunScraping.DataOfFirstBooks | src/run_scraping.py:58 | the dictionary's values have the first records per identifier |
| RunScraping.FirstRecordsDistinct | src/run_scraping.py:50-51 | the merged keys are pairwise distinct |
| RunScraping.FirstRecordsKeys | src/run_scraping.py:50-51 | the merged keys are exactly the keys seen |
| RunScraping.FirstRecordsFirst | src/run_scraping.py:50-51 | every merged record is the first one seen with its key: an entry is never replaced |
| RunScraping.MergePage | src/run_scraping.py:49-51 | succeeds exactly when every identifier is hashable, and then gives the first-wins merge of the list |
| RunScraping.MergeGenre | src/run_scraping.py:47-51 | skips empty lists, and merges every book of the genre's lists in order unless an identifier is unhashable |
| RunScraping.DataOfFlatten | src/run_scraping.py:47-49 | the records of the lists, one after the other, are the pages' records one after the other |
| RunScraping.GenrePages | src/run_scraping.py:31-42 | one genre's page list, None where the estimate raises; `FetchGenre` is proved against it |
| RunScraping.GenreFetch | src/run_scraping.py:31-47 | one genre's fetch outcome; `FetchGenre` is proved against it |
| RunScraping.GenreStep | src/run_scraping.py:31-51 | one genre's effect on the run; `ScrapeGenre` is proved against it |
| RunScraping.Genres | src/run_scraping.py:29-51 | the genre loop as a fold; `GenresStop` and `ScrapeSnoc` state it |
| RunScraping.Scrape | src/run_scraping.py:29-51 | the records the genre loop sees and why it stops; `ScrapeMerged`, `ScrapeAll` and `Run` state it |
| RunScraping.GenresStop | src/run_scraping.py:27-29 | once a genre stops the loop, no later genre is visited |
| RunScraping.Enriched | src/run_scraping.py:61-65 | one record after both enrichment passes; `EnrichedKeepsRecord` states what may change, `Enrich` is proved against it |
| RunScraping.EnrichedKeepsRecord | src/run_scraping.py:61-65 | enrichment changes only the tags and the three counters, never the identifier |
| RunScraping.ScrapeMerged | src/run_scraping.py:21-58 | after all genres, the dictionary holds each key seen exactly once: one dictionary persists across genres |
| RunScraping.FetchPage | src/run_scraping.py:47 | one page request: settles as `get_books` does, with that page's records |
| RunScraping.FetchPages | src/run_scraping.py:45-47 | every page settles, or the call does not; one list per page, each with that page's records |
| RunScraping.FetchGenre | src/run_scraping.py:31-47 | a failed estimate aborts, a page that never settles hangs; otherwise the genre's records are all its pages' records in order |
| RunScraping.ScrapeGenre | src/run_scraping.py:31-55 | one genre: stops exactly as `GenreStep` says, and otherwise leaves the first-per-key selection of everything fetched so far |
| RunScraping.ScrapeSnoc | src/run_scraping.py:29 | the loop runs one more genre exactly when no earlier genre stopped it |
| RunScraping.ScrapeNext | src/run_scraping.py:29-55 | one round of the genre loop keeps the loop's invariant |
| RunScraping.ScrapeAll | src/run_scraping.py:21-55 | stops exactly as `Scrape` says; otherwise the dictionary's values hold the first record per identifier of everything `Scrape` saw |
| RunScraping.TagPass | src/run_scraping.py:61-62 | completes exactly when every tag request settles, and then every book has its tags set and the list comes back unchanged |
| RunScraping.StatisticsPass | src/run_scraping.py:64-65 | the same for the statistics requests |
| RunScraping.Enrich | src/run_scraping.py:58-65 | both passes complete exactly when every request settles, and every book is then the enriched record |
| RunScraping.Run | src/run_scraping.py:14-75 | stops for the reason `Scrape` gives; otherwise completes exactly when every enrichment request settles, hanging if not; on completion the books are the first records per key, keys distinct, each enriched |
| RunScraping.ScrapeAndWrite | src/run_scraping.py:88-92 | a completed run writes exactly the document of its books; an aborted run writes only the opening (nothing for an empty dictionary); a hung run writes nothing |

## Left out

- HTTP: the URLs the requests are built from are left out, and status codes are not modelled, as the source ignores them. Two requests for the same URL are not identified: the estimate request and the request for page 1 share a URL but are answered by `Server.total` and `Server.page(genre, batchSize, 1)`. A genre listed twice is answered with the same outcomes both times.
- `time.sleep`: the retry loops return their waits as values. The driver's fixed sleeps (0.02 and 1 seconds) are left out.
- BeautifulSoup, NLTK's `word_tokenize` and stop-word list, and `str.lower` are parameters. Their behaviour is not modelled.
- `json.dumps` (`Book.to_json`) is the parameter `toJson`, and `json.load` is a decoded `Json` parameter. Because of this, the round trip from writing a file to loading it is not stated.
- `multiprocessing.Pool`: `starmap` and `imap` run one task after the other. The worker processes receive pickled copies of the books. The model updates the books in place and returns the same objects, so aliasing between a copy and its original is not modelled.
- TagPass: requires the books to be distinct objects. The only caller passes the dictionary's values, which are distinct; the pickled copies of the source cannot alias.
- StatisticsPass: the same distinctness requirement, for the same reason.
- Progress bars, `print`, `gc.collect`, pool shutdown and run timing are left out.
- The output file name (`FILENAME_JSON`, `TIMESTAMP`), the file encoding, and opening the file are left out. `OutputFile` is the file's text.
- `argparse`: the genre string and `max_pages` are parameters. The default genre string is left out.
- Numbers are exact reals. Float rounding in `total_elements / batch_size`, and NaN and infinities, are left out.
- A request retried forever is a finite attempt sequence with no settling try. The model reports it as `settled == false` or `Stopped(Hung)` instead of running forever.
- Dictionaries decoded from JSON are unordered maps. Iterating over a non-empty dict body, where key order would pick the first key, is recorded as raising at once: every consumer fails on its first string key.
- `toJson` receives the record after decoding. The key order inside nested objects and whether a number was an int (`5`) or a float (`5.0`) are lost by then: objects are maps and numbers are reals. `json.dumps` in `Book.to_json` writes both, so the written text depends on information the model does not keep.
- ScrapeAll: on a stopped run, the partly merged dictionary it returns is not described.
- Run: on a stopped run, the books returned are not described. ScrapeAndWrite relies only on whether that list is empty.
- When the run is aborted, `write_data_to_file` receives the dictionary itself and fails on its first key. The model writes the opening and stops; the exception is not modelled.
