/**
 * The `Book` record of the refactored client: built from a decoded JSON
 * object, turned back into one for create and update, and shown as a line.
 */
module BookEntity {
  import opened Common
  import opened PyJson
  import opened JavaText

  /** A `Book`: the four attributes the constructor stores as given. */
  datatype Book = Book(id: Json, title: Json, author: Json, year: Json)

  /** The keys `to_dict` writes. */
  const FIELDS: set<string> := {"title", "author", "year"}

  /**
   * `from_dict`: the keyword arguments are evaluated in the order id,
   * title, author, year, so a `KeyError` names the first of them missing.
   */
  function FromDict(d: Dict): (r: Result<Book>)
    ensures r.Ok? <==> "id" in d && "title" in d && "author" in d && "year" in d
    ensures r.Ok? ==> r.value == Book(d["id"], d["title"], d["author"], d["year"])
    ensures "id" !in d ==> r == Fail(KeyError("id"))
    ensures "id" in d && "title" !in d ==> r == Fail(KeyError("title"))
    ensures "id" in d && "title" in d && "author" !in d ==> r == Fail(KeyError("author"))
    ensures "id" in d && "title" in d && "author" in d && "year" !in d ==> r == Fail(KeyError("year"))
  {
    if "id" !in d then Fail(KeyError("id"))
    else if "title" !in d then Fail(KeyError("title"))
    else if "author" !in d then Fail(KeyError("author"))
    else if "year" !in d then Fail(KeyError("year"))
    else Ok(Book(d["id"], d["title"], d["author"], d["year"]))
  }

  /** `to_dict`: exactly the title, author and year; the id is not written. */
  function ToDict(b: Book): (r: Dict)
    ensures r.Keys == FIELDS
    ensures r["title"] == b.title && r["author"] == b.author && r["year"] == b.year
  {
    map["title" := b.title, "author" := b.author, "year" := b.year]
  }

  /** `from_dict(d).to_dict()` is `d` cut down to the three fields. */
  lemma FromDictToDict(d: Dict)
    requires FromDict(d).Ok?
    ensures ToDict(FromDict(d).value) == map k | k in d && k in FIELDS :: d[k]
  {
  }

  /** `from_dict(b.to_dict())` raises `KeyError` for the id that `to_dict` dropped. */
  lemma ToDictFromDict(b: Book)
    ensures FromDict(ToDict(b)) == Fail(KeyError("id"))
  {
  }

  /** Putting the id back gives the book back. */
  lemma ToDictWithIdRoundTrip(b: Book)
    ensures FromDict(ToDict(b)["id" := b.id]) == Ok(b)
  {
  }

  /** The attributes `__str__` can show. */
  predicate Showable(b: Book)
  {
    IsScalar(b.id) && IsScalar(b.title) && IsScalar(b.author) && IsScalar(b.year)
  }

  /** `__str__`: "id: title by author (year)". */
  function Show(b: Book): (r: string)
    requires Showable(b)
    ensures |r| == |Str(b.id)| + |Str(b.title)| + |Str(b.author)| + |Str(b.year)| + 9
    ensures r[..|Str(b.id)| + 2] == Str(b.id) + ": "
    ensures r[|r| - 1] == ')'
  {
    Str(b.id) + ": " + Str(b.title) + " by " + Str(b.author) + " (" + Str(b.year) + ")"
  }

  /** A book read from the service shows its id, then its title, author and year as stored. */
  lemma ShowStrings(id: int, title: string, author: string, year: string)
    ensures Show(Book(JInt(id), JString(title), JString(author), JString(year)))
      == Decimal(id) + ": " + title + " by " + author + " (" + year + ")"
  {
  }
}
