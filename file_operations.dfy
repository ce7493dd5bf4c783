/** The output file and the loader: records are appended one at a time between the
    opening `{"books": [` and the closing `]}`, and a saved file is turned back into books. */
module FileOperations {
  import opened Wrappers
  import opened JsonValues
  import opened Books
  import opened Text

  const Opening: string := "{\"books\": ["
  const Separator: char := ','
  const Closing: string := "]}"

  /** What one call of `write_book_infos_to_json` appends for an already serialized record. */
  function Framed(record: string, isFirst: bool, isLast: bool): string {
    (if isFirst then Opening else "") + record + (if !isLast then [Separator] else "")
      + (if isLast then Closing else "")
  }

  /** What the first `j` rounds of `write_data_to_file` append for the records `rs`:
      round `i` passes `is_first` exactly when `i == 0` and `is_last` exactly when
      `i == |rs| - 1`. */
  function WrittenUpTo(rs: seq<string>, j: nat): string
    requires j <= |rs|
  {
    if j == 0 then ""
    else WrittenUpTo(rs, j - 1) + Framed(rs[j - 1], j - 1 == 0, j - 1 == |rs| - 1)
  }

  /** The document for the records `rs`: the opening, the records separated by commas,
      the closing; and nothing at all when there is no record. */
  function Document(rs: seq<string>): string {
    if rs == [] then "" else Opening + Join(rs, Separator) + Closing
  }

  /** A write cut off after `j` of the records leaves the opening and those records,
      each followed by a comma, and no closing. */
  lemma {:induction false} WrittenPartial(rs: seq<string>, j: nat)
    requires 0 < j < |rs|
    ensures WrittenUpTo(rs, j) == Opening + Join(rs[..j], Separator) + [Separator]
  {
    if j == 1 {
      assert WrittenUpTo(rs, 0) == "";
      assert Join(rs[..1], Separator) == rs[0];
      assert Framed(rs[0], true, false) == Opening + rs[0] + [Separator];
    } else {
      var joined := Join(rs[..j - 1], Separator);
      var r := rs[j - 1];
      assert WrittenUpTo(rs, j) == Opening + joined + [Separator] + (r + [Separator]) by {
        WrittenPartial(rs, j - 1);
        assert Framed(r, false, false) == r + [Separator];
      }
      assert Join(rs[..j], Separator) == joined + [Separator] + r by {
        assert rs[..j] == rs[..j - 1] + [r];
        JoinAppend(rs[..j - 1], r, Separator);
      }
      Regroup(joined, r, [Separator]);
    }
  }

  /** The step both proofs below share: a comma-terminated prefix followed by one more
      record and its ending is the prefix with the record joined in. */
  lemma Regroup(joined: string, r: string, ending: string)
    ensures Opening + joined + [Separator] + (r + ending)
      == Opening + (joined + [Separator] + r) + ending
  {
    calc {
      Opening + joined + [Separator] + (r + ending);
      { Assoc(Opening + joined + [Separator], r, ending); }
      Opening + joined + [Separator] + r + ending;
      { Assoc(Opening, joined + [Separator], r);
        Assoc(Opening, joined, [Separator]); }
      Opening + (joined + [Separator] + r) + ending;
    }
  }

  /** Writing every record produces exactly the document. */
  lemma {:induction false} WrittenComplete(rs: seq<string>)
    ensures WrittenUpTo(rs, |rs|) == Document(rs)
  {
    var n := |rs|;
    if n == 1 {
      assert WrittenUpTo(rs, 0) == "";
      assert Join(rs, Separator) == rs[0];
      assert Framed(rs[0], true, true) == Opening + rs[0] + Closing;
    } else if n > 1 {
      var joined := Join(rs[..n - 1], Separator);
      var r := rs[n - 1];
      assert WrittenUpTo(rs, n) == Opening + joined + [Separator] + (r + Closing) by {
        WrittenPartial(rs, n - 1);
        assert Framed(r, false, true) == r + Closing;
      }
      assert Join(rs, Separator) == joined + [Separator] + r by {
        assert rs == rs[..n - 1] + [r];
        JoinAppend(rs[..n - 1], r, Separator);
      }
      Regroup(joined, r, Closing);
    }
  }

  /** A document holds the commas inside its records and exactly `|rs| - 1` more. */
  lemma DocumentSeparators(rs: seq<string>)
    requires rs != []
    ensures Count(Document(rs), Separator) == CountAll(rs, Separator) + |rs| - 1
  {
    CountJoin(rs, Separator);
    CountBetween(Opening, Join(rs, Separator), Closing, Separator);
  }

  /** One more round of the writer appends the framing of the next record. */
  lemma WrittenStep(before: string, rs: seq<string>, j: nat, isFirst: bool, isLast: bool)
    requires j < |rs| && isFirst == (j == 0) && isLast == (j == |rs| - 1)
    ensures before + WrittenUpTo(rs, j) + Framed(rs[j], isFirst, isLast)
      == before + WrittenUpTo(rs, j + 1)
  {
    var written := WrittenUpTo(rs, j);
    var framed := Framed(rs[j], isFirst, isLast);
    assert WrittenUpTo(rs, j + 1) == written + framed;
    Assoc(before, written, framed);
  }

  /** The serialized records of `books`, in list order (`book.to_json()` for each). */
  function Rendered(books: seq<Book>, toJson: BookData -> string): (rs: seq<string>)
    reads books
    ensures |rs| == |books|
    ensures forall i :: 0 <= i < |books| ==> rs[i] == toJson(books[i].Data())
  {
    seq(|books|, i requires 0 <= i < |books| reads books => toJson(books[i].Data()))
  }

  /** The output file. Every write opens it in append mode, so a write only ever adds
      text after what is already there. */
  class OutputFile {
    var content: string

    constructor (content: string)
      ensures this.content == content
    {
      this.content := content;
    }

    /** `write_book_infos_to_json(book, is_first, is_last)`. */
    method WriteBookInfosToJson(book: Book, isFirst: bool, isLast: bool,
                                toJson: BookData -> string)
      modifies this
      ensures content == old(content) + Framed(toJson(book.Data()), isFirst, isLast)
    {
      if isFirst {
        content := content + Opening;
      }
      content := content + toJson(book.Data());
      if !isLast {
        content := content + [Separator];
      }
      if isLast {
        content := content + Closing;
      }
    }

    /** `write_data_to_file(books)`: every record once, in list order, as one document. */
    method WriteDataToFile(books: seq<Book>, toJson: BookData -> string)
      modifies this
      ensures content == old(content) + Document(Rendered(books, toJson))
    {
      ghost var rs := Rendered(books, toJson);
      var j := 0;
      while j < |books|
        invariant 0 <= j <= |books|
        invariant content == old(content) + WrittenUpTo(rs, j)
      {
        var isFirst := false;
        var isLast := false;
        if j == 0 {
          isFirst := true;
        }
        if j == |books| - 1 {
          isLast := true;
        }
        assert rs[j] == toJson(books[j].Data());
        WriteBookInfosToJson(books[j], isFirst, isLast, toJson);
        WrittenStep(old(content), rs, j, isFirst, isLast);
        j := j + 1;
      }
      WrittenComplete(rs);
    }
  }

  /** `Book(**item)` for one element of the saved list: the element must be a dict. */
  function Convert(item: Json): Option<BookData> {
    if item.JObj? then FromKeywords(item.fields) else None
  }

  /** All the elements converted, or None when one of them cannot be. */
  function ConvertAll(items: seq<Json>): (r: Option<seq<BookData>>)
    ensures r.Some? <==> forall i :: 0 <= i < |items| ==> Convert(items[i]).Some?
    ensures r.Some? ==> |r.value| == |items|
    ensures r.Some? ==> forall i :: 0 <= i < |items| ==> Convert(items[i]) == Some(r.value[i])
  {
    if items == [] then Some([])
    else
      match ConvertAll(items[..|items| - 1])
      case None => None
      case Some(ds) =>
        match Convert(items[|items| - 1])
        case None => None
        case Some(d) => Some(ds + [d])
  }

  /** The records `load_books` builds from the decoded file `parsed`, or None where it raises. */
  function LoadedData(parsed: Json): Option<seq<BookData>> {
    match Lookup(parsed, "books")
    case None => None
    case Some(list) =>
      var visit := Iterate(list);
      if visit.raises then None else ConvertAll(visit.items)
  }

  /** A successful load has one record per element of the `"books"` array, in array order,
      each attribute taken from the element's key of the same name or `None`. */
  lemma LoadedDataElementwise(parsed: Json, items: seq<Json>)
    requires Lookup(parsed, "books") == Some(JArr(items))
    requires LoadedData(parsed).Some?
    ensures |LoadedData(parsed).value| == |items|
    ensures forall i :: 0 <= i < |items| ==> items[i].JObj?
    ensures forall i, a :: 0 <= i < |items| ==>
      Field(LoadedData(parsed).value[i], a) == Keyword(items[i].fields, Name(a))
  {
    var ds := LoadedData(parsed).value;
    forall i | 0 <= i < |items|
      ensures items[i].JObj?
      ensures forall a :: Field(ds[i], a) == Keyword(items[i].fields, Name(a))
    {
      assert Convert(items[i]) == Some(ds[i]);
      FromKeywordsFields(items[i].fields);
    }
  }

  /** `load_books(filepath)`, given the value `json.load` decoded from the file.
      `ok == false` stands for the exception the call raises. */
  method LoadBooks(parsed: Json) returns (ok: bool, books: seq<Book>)
    ensures ok <==> LoadedData(parsed).Some?
    ensures ok ==> DataOf(books) == LoadedData(parsed).value
    ensures forall i :: 0 <= i < |books| ==> fresh(books[i])
  {
    books := [];
    var list := Lookup(parsed, "books");
    if list.None? {
      return false, [];
    }
    var visit := Iterate(list.value);
    if visit.raises {
      return false, [];
    }
    var items := visit.items;
    var k := 0;
    while k < |items|
      invariant 0 <= k <= |items| && |books| == k
      invariant forall i :: 0 <= i < k ==> Convert(items[i]) == Some(books[i].Data())
      invariant forall i :: 0 <= i < k ==> fresh(books[i])
    {
      var d := Convert(items[k]);
      if d.None? {
        return false, [];
      }
      var b := NewBook(d.value);
      books := books + [b];
      k := k + 1;
    }
    assert forall i :: 0 <= i < |items| ==> DataOf(books)[i] == ConvertAll(items).value[i];
    ok := true;
  }
}
