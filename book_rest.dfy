/**
 * The Flask book service, without HTTP: each handler is a method on the
 * table it mutates, taking the decoded JSON body (`None` when the request
 * carries none) and returning the response it would send.
 */
module BookRest {
  import opened Common
  import opened PyJson
  import opened JavaList

  /** The stored record of one book: whatever JSON values its fields were given. */
  datatype Book = Book(title: Json, author: Json, year: Json)

  /** What a handler sends back. `Abort(code)` is `abort(code)`. */
  datatype Response =
    | Abort(status: int)
    | BookJson(status: int, id: int, book: Book)
    | BooksJson(books: seq<(int, Book)>)
    | ResultTrue

  /** The ten books the service starts with, under ids 1 to 10. */
  const INITIAL_BOOKS: seq<Book> := [
    Book(JString("The Great Gatsby"), JString("F. Scott Fitzgerald"), JString("1925")),
    Book(JString("To Kill a Mockingbird"), JString("Harper Lee"), JString("1960")),
    Book(JString("1984"), JString("George Orwell"), JString("1949")),
    Book(JString("Brave New World"), JString("Aldous Huxley"), JString("1932")),
    Book(JString("The Catcher in the Rye"), JString("J.D. Salinger"), JString("1951")),
    Book(JString("Moby-Dick"), JString("Herman Melville"), JString("1851")),
    Book(JString("The Brothers Karamazov"), JString("Fyodor Dostoevsky"), JString("1880")),
    Book(JString("One Hundred Years of Solitude"), JString("Gabriel García Márquez"), JString("1967")),
    Book(JString("Pride and Prejudice"), JString("Jane Austen"), JString("1813")),
    Book(JString("Beloved"), JString("Toni Morrison"), JString("1987"))
  ]

  /** `max(books.keys(), default=0)`. */
  function MaxId(ids: seq<int>): (r: int)
    ensures ids == [] ==> r == 0
    ensures ids != [] ==> r in ids && forall i :: i in ids ==> i <= r
  {
    if ids == [] then 0
    else if |ids| == 1 then ids[0]
    else
      var m := MaxId(ids[..|ids| - 1]);
      assert ids == ids[..|ids| - 1] + [ids[|ids| - 1]];
      if ids[|ids| - 1] > m then ids[|ids| - 1] else m
  }

  /** `not request.json`: no body, or an empty object. */
  predicate Truthy(body: Option<Dict>)
  {
    body.Some? && body.value != map[]
  }

  /** The record `create_book` stores: the title, and author and year defaulting to "". */
  function NewBook(d: Dict): (r: Book)
    requires "title" in d
    ensures r.title == d["title"]
    ensures r.author == if "author" in d then d["author"] else JString("")
    ensures r.year == if "year" in d then d["year"] else JString("")
  {
    Book(d["title"], Get(d, "author", JString("")), Get(d, "year", JString("")))
  }

  /** The record after `update_book`'s three `get`s: a key present in the body overwrites, even with null. */
  function Merge(b: Book, d: Dict): (r: Book)
    ensures "title" in d ==> r.title == d["title"]
    ensures "title" !in d ==> r.title == b.title
    ensures "author" in d ==> r.author == d["author"]
    ensures "author" !in d ==> r.author == b.author
    ensures "year" in d ==> r.year == d["year"]
    ensures "year" !in d ==> r.year == b.year
  {
    Book(Get(d, "title", b.title), Get(d, "author", b.author), Get(d, "year", b.year))
  }

  /** Sending the same update twice stores what sending it once does. */
  lemma MergeIdempotent(b: Book, d: Dict)
    ensures Merge(Merge(b, d), d) == Merge(b, d)
  {
  }

  /** A body that names all three fields replaces the whole record. */
  lemma MergeOfFullBody(b: Book, c: Book, d: Dict)
    requires "title" in d && "author" in d && "year" in d
    ensures Merge(b, d) == Merge(c, d)
  {
  }

  /** `books.items()` in the order `order` lists the keys. */
  function Listing(books: map<int, Book>, order: seq<int>): (r: seq<(int, Book)>)
    requires forall k :: 0 <= k < |order| ==> order[k] in books
    ensures |r| == |order|
    ensures forall k :: 0 <= k < |order| ==> r[k] == (order[k], books[order[k]])
  {
    seq(|order|, k requires 0 <= k < |order| => (order[k], books[order[k]]))
  }

  /** `order` lists each key of `books` exactly once. */
  predicate Indexed(books: map<int, Book>, order: seq<int>)
  {
    Distinct(order)
    && (forall k :: 0 <= k < |order| ==> order[k] in books)
    && (forall id :: id in books ==> id in order)
  }

  /** Storing under a fresh key and listing it last keeps the index. */
  lemma IndexedAdd(books: map<int, Book>, order: seq<int>, id: int, b: Book)
    requires Indexed(books, order) && id !in books
    ensures Indexed(books[id := b], order + [id])
  {
    assert id !in order;
    assert forall k :: 0 <= k < |order| ==> (order + [id])[k] == order[k];
  }

  /** Deleting a key and its first listing keeps the index. */
  lemma IndexedRemove(books: map<int, Book>, order: seq<int>, id: int)
    requires Indexed(books, order) && id in books
    ensures Indexed(books - {id}, RemoveFirst(order, id))
  {
    RemoveFirstDistinct(order, id);
    var r := RemoveFirst(order, id);
    forall x | x in books - {id}
      ensures x in r
    {
      assert x in order;
      assert multiset(r)[x] == multiset(order)[x];
    }
    forall k | 0 <= k < |r|
      ensures r[k] in books - {id}
    {
      assert r[k] in r;
      var j :| 0 <= j < |order| && order[j] == r[k];
    }
  }

  /** The ids of the initial books, in insertion order. */
  const INITIAL_IDS: seq<int> := [1, 2, 3, 4, 5, 6, 7, 8, 9, 10]

  /** The initial dict: id `k + 1` holds the `k`-th initial book. */
  function InitialTable(): map<int, Book>
  {
    map id | id in INITIAL_IDS :: INITIAL_BOOKS[id - 1]
  }

  /** The initial ids index the initial dict, each holding its book. */
  lemma InitialIndexed()
    ensures Indexed(InitialTable(), INITIAL_IDS)
    ensures |INITIAL_IDS| == 10
    ensures forall k :: 0 <= k < 10 ==> INITIAL_IDS[k] == k + 1 && k + 1 in InitialTable() && InitialTable()[k + 1] == INITIAL_BOOKS[k]
  {
    var ids, m := INITIAL_IDS, InitialTable();
    forall k | 0 <= k < |ids|
      ensures ids[k] == k + 1
    {
    }
    assert Distinct(ids);
    forall id | id in m
      ensures id in ids
    {
      assert ids[id - 1] == id;
    }
    forall k | 0 <= k < 10
      ensures ids[k] in m
    {
      assert ids[k] in ids;
    }
  }

  /**
   * The module-level `books` dict. `order` holds its keys in insertion
   * order, which is the order `books.items()` lists them in.
   */
  class BookTable {
    var books: map<int, Book>
    var order: seq<int>

    ghost predicate Valid()
      reads this
    {
      Indexed(books, order)
    }

    /** The table as the module defines it. */
    constructor ()
      ensures Valid()
      ensures |order| == 10
      ensures forall k :: 0 <= k < 10 ==> order[k] == k + 1 && k + 1 in books && books[k + 1] == INITIAL_BOOKS[k]
    {
      InitialIndexed();
      books, order := InitialTable(), INITIAL_IDS;
    }

    /** GET /books: every book with its id, in insertion order. */
    method GetBooks() returns (r: Response)
      requires Valid()
      ensures r.BooksJson? && |r.books| == |order|
      ensures forall k :: 0 <= k < |order| ==> order[k] in books && r.books[k] == (order[k], books[order[k]])
    {
      r := BooksJson(Listing(books, order));
    }

    /** GET /books/<id>: 404 exactly when the id is absent. */
    method GetBook(id: int) returns (r: Response)
      ensures id !in books ==> r == Abort(404)
      ensures id in books ==> r == BookJson(200, id, books[id])
    {
      if id !in books {
        return Abort(404);
      }
      r := BookJson(200, id, books[id]);
    }

    /**
     * POST /books: 400 without a title; otherwise the book is stored under
     * the largest id plus one (1 for an empty table), which is always
     * fresh, and listed last.
     */
    method CreateBook(body: Option<Dict>) returns (r: Response)
      requires Valid()
      modifies this
      ensures Valid()
      ensures !(Truthy(body) && "title" in body.value) ==>
        r == Abort(400) && books == old(books) && order == old(order)
      ensures Truthy(body) && "title" in body.value ==>
        var newId := MaxId(old(order)) + 1;
        newId !in old(books) && r == BookJson(201, newId, NewBook(body.value))
        && books == old(books)[newId := NewBook(body.value)] && order == old(order) + [newId]
    {
      if !Truthy(body) || "title" !in body.value {
        return Abort(400);
      }
      var newId := MaxId(order) + 1;
      var book := NewBook(body.value);
      IndexedAdd(books, order, newId, book);
      books := books[newId := book];
      order := order + [newId];
      r := BookJson(201, newId, book);
    }

    /**
     * PUT /books/<id>: 404 for an absent id is checked before 400 for an
     * empty body; then the fields the body names are overwritten and nothing
     * else changes.
     */
    method UpdateBook(id: int, body: Option<Dict>) returns (r: Response)
      requires Valid()
      modifies this
      ensures Valid()
      ensures id !in old(books) ==> r == Abort(404) && books == old(books) && order == old(order)
      ensures id in old(books) && !Truthy(body) ==> r == Abort(400) && books == old(books) && order == old(order)
      ensures id in old(books) && Truthy(body) ==>
        books == old(books)[id := Merge(old(books)[id], body.value)] && order == old(order)
        && r == BookJson(200, id, books[id])
    {
      if id !in books {
        return Abort(404);
      }
      if !Truthy(body) {
        return Abort(400);
      }
      books := books[id := Merge(books[id], body.value)];
      r := BookJson(200, id, books[id]);
    }

    /** DELETE /books/<id>: 404 exactly when absent; otherwise exactly that key goes. */
    method DeleteBook(id: int) returns (r: Response)
      requires Valid()
      modifies this
      ensures Valid()
      ensures id !in old(books) ==> r == Abort(404) && books == old(books) && order == old(order)
      ensures id in old(books) ==> r == ResultTrue && books == old(books) - {id} && order == RemoveFirst(old(order), id)
    {
      if id !in books {
        return Abort(404);
      }
      IndexedRemove(books, order, id);
      books := books - {id};
      order := RemoveFirst(order, id);
      r := ResultTrue;
    }
  }

  /**
   * Deleting the book with the largest id and posting a new one hands the
   * deleted id out again whenever the id below it is still in use.
   */
  method DeleteMaxThenCreate(table: BookTable, title: Json) returns (deleted: Response, created: Response)
    requires table.Valid() && table.order != [] && MaxId(table.order) - 1 in table.order
    modifies table
    ensures deleted == ResultTrue
    ensures created.BookJson? && created.status == 201 && created.id == old(MaxId(table.order))
  {
    var m := MaxId(table.order);
    var below := m - 1;
    deleted := table.DeleteBook(m);
    assert below in table.order by {
      assert below in table.books;
    }
    assert forall i :: i in table.order ==> i in old(table.order);
    assert MaxId(table.order) == below;
    assert "title" in map["title" := title];
    created := table.CreateBook(Some(map["title" := title]));
  }

  /** From the initial table, deleting book 10 and posting a book gives the new book id 10 again. */
  method DeleteTenThenCreate(title: Json) returns (deleted: Response, created: Response)
    ensures deleted == ResultTrue
    ensures created.BookJson? && created.status == 201 && created.id == 10
  {
    var table := new BookTable();
    assert table.order[9] == 10 && table.order[8] == 9;
    assert forall i :: i in table.order ==> i <= 10;
    assert MaxId(table.order) == 10;
    deleted, created := DeleteMaxThenCreate(table, title);
  }
}

/**
 * The list-backed version of the service. `abort` is not imported there,
 * so every path that calls it raises `NameError` instead of answering 404
 * or 400.
 */
module BookRestList {
  import opened Common
  import opened PyJson
  import opened JavaList

  /** One dict of the `books` list, its id included. */
  datatype BinBook = BinBook(id: int, title: Json, author: Json, year: Json)

  /** The fault of calling the name `abort`, which the module never imports. */
  const ABORT_UNDEFINED: Fault := NameError("abort")

  /** The two books the list starts with. */
  const INITIAL_BOOKS: seq<BinBook> := [
    BinBook(1, JString("The Great Gatsby"), JString("F. Scott Fitzgerald"), JString("1925")),
    BinBook(2, JString("To Kill a Mockingbird"), JString("Harper Lee"), JString("1960"))
  ]

  /** `[book for book in books if book["id"] == book_id]`. */
  function Matching(books: seq<BinBook>, id: int): (r: seq<BinBook>)
    ensures forall b :: b in r ==> b in books && b.id == id
    ensures r == [] <==> forall k :: 0 <= k < |books| ==> books[k].id != id
  {
    if books == [] then []
    else (if books[0].id == id then [books[0]] else []) + Matching(books[1..], id)
  }

  /** The comprehension's first element is the first book in list order with that id. */
  lemma {:induction false} MatchingStartsAtFirst(books: seq<BinBook>, id: int, i: int)
    requires 0 <= i < |books| && books[i].id == id
    requires forall j :: 0 <= j < i ==> books[j].id != id
    ensures Matching(books, id) != [] && Matching(books, id)[0] == books[i]
    decreases i
  {
    if i > 0 {
      MatchingStartsAtFirst(books[1..], id, i - 1);
    }
  }

  /** Ids strictly increase along the list, so no two books share one. */
  predicate Increasing(books: seq<BinBook>)
  {
    forall j, k :: 0 <= j < k < |books| ==> books[j].id < books[k].id
  }

  /** The position of the only book with that id, in an increasing list; -1 for none. */
  function PositionOf(books: seq<BinBook>, id: int): (k: int)
    requires Increasing(books)
    ensures -1 <= k < |books|
    ensures k >= 0 ==> books[k].id == id
    ensures k == -1 <==> Matching(books, id) == []
    ensures k >= 0 ==> Matching(books, id)[0] == books[k]
  {
    if Matching(books, id) == [] then -1
    else
      var k :| 0 <= k < |books| && books[k].id == id;
      MatchingStartsAtFirst(books, id, k);
      k
  }

  /** `not request.json`: no body, or an empty object. */
  predicate Truthy(body: Option<Dict>)
  {
    body.Some? && body.value != map[]
  }

  /** The module-level `books` list. */
  class BinBookTable {
    var books: seq<BinBook>

    /** Creating appends the last id plus one, so ids keep increasing. */
    ghost predicate Valid()
      reads this
    {
      Increasing(books)
    }

    constructor ()
      ensures books == INITIAL_BOOKS && Valid()
    {
      books := INITIAL_BOOKS;
    }

    /** GET /books: the list itself, ids included, in list order. */
    method GetBooks() returns (r: seq<BinBook>)
      requires Valid()
      ensures r == books
      ensures forall j, k :: 0 <= j < k < |r| ==> r[j].id < r[k].id
    {
      r := books;
    }

    /** GET /books/<id>: the first book with that id; with none, `abort` raises `NameError`. */
    method GetBook(id: int) returns (r: Result<BinBook>)
      requires Valid()
      ensures PositionOf(books, id) == -1 ==> r == Fail(ABORT_UNDEFINED)
      ensures PositionOf(books, id) >= 0 ==> r == Ok(books[PositionOf(books, id)])
    {
      var book := Matching(books, id);
      if |book| == 0 {
        return Fail(ABORT_UNDEFINED);
      }
      r := Ok(book[0]);
    }

    /**
     * POST /books: a missing title raises `NameError`; the new id is the
     * last book's id plus one, and an empty list raises `IndexError` there.
     */
    method CreateBook(body: Option<Dict>) returns (r: Result<BinBook>)
      requires Valid()
      modifies this
      ensures Valid()
      ensures !(Truthy(body) && "title" in body.value) ==> r == Fail(ABORT_UNDEFINED) && books == old(books)
      ensures Truthy(body) && "title" in body.value && old(books) == [] ==> r == Fail(IndexError) && books == old(books)
      ensures Truthy(body) && "title" in body.value && old(books) != [] ==>
        var d := body.value;
        var book := BinBook(old(books)[|old(books)| - 1].id + 1, d["title"], Get(d, "author", JString("")), Get(d, "year", JString("")));
        r == Ok(book) && books == old(books) + [book]
    {
      if !Truthy(body) || "title" !in body.value {
        return Fail(ABORT_UNDEFINED);
      }
      if books == [] {
        return Fail(IndexError);
      }
      var d := body.value;
      var book := BinBook(books[|books| - 1].id + 1, d["title"], Get(d, "author", JString("")), Get(d, "year", JString("")));
      books := books + [book];
      r := Ok(book);
    }

    /**
     * PUT /books/<id>: `NameError` for an absent id, then for an empty body;
     * otherwise the first matching dict has the fields the body names
     * overwritten, in place.
     */
    method UpdateBook(id: int, body: Option<Dict>) returns (r: Result<BinBook>)
      requires Valid()
      modifies this
      ensures Valid()
      ensures PositionOf(old(books), id) == -1 || !Truthy(body) ==> r == Fail(ABORT_UNDEFINED) && books == old(books)
      ensures PositionOf(old(books), id) >= 0 && Truthy(body) ==>
        var k := PositionOf(old(books), id);
        var b, d := old(books)[k], body.value;
        var updated := BinBook(b.id, Get(d, "title", b.title), Get(d, "author", b.author), Get(d, "year", b.year));
        books == old(books)[k := updated] && r == Ok(updated)
    {
      var book := Matching(books, id);
      if |book| == 0 {
        return Fail(ABORT_UNDEFINED);
      }
      if !Truthy(body) {
        return Fail(ABORT_UNDEFINED);
      }
      var k := PositionOf(books, id);
      var b, d := book[0], body.value;
      var updated := BinBook(b.id, Get(d, "title", b.title), Get(d, "author", b.author), Get(d, "year", b.year));
      books := books[k := updated];
      r := Ok(updated);
    }

    /**
     * DELETE /books/<id>: `NameError` for an absent id; otherwise
     * `books.remove` drops the first dict equal to the match, which is the
     * match itself.
     */
    method DeleteBook(id: int) returns (r: Outcome)
      requires Valid()
      modifies this
      ensures Valid()
      ensures PositionOf(old(books), id) == -1 ==> r == Threw(ABORT_UNDEFINED) && books == old(books)
      ensures PositionOf(old(books), id) >= 0 ==>
        var k := PositionOf(old(books), id);
        r == Done && books == old(books)[..k] + old(books)[k + 1..]
    {
      var book := Matching(books, id);
      if |book| == 0 {
        return Threw(ABORT_UNDEFINED);
      }
      var k := PositionOf(books, id);
      assert book[0] !in books[..k];
      RemoveFirstAt(books, book[0], k);
      books := RemoveFirst(books, book[0]);
      r := Done;
    }
  }

  /**
   * Once the last book of two or more is deleted, the next book created gets
   * the new last id plus one: an id no greater than the deleted one, so ids
   * can come back.
   */
  method DeleteLastThenCreate(table: BinBookTable, title: Json) returns (created: Result<BinBook>)
    requires table.Valid() && |table.books| >= 2
    modifies table
    ensures created.Ok?
    ensures created.value.id == old(table.books[|table.books| - 2].id) + 1
    ensures created.value.id <= old(table.books[|table.books| - 1].id)
  {
    var n := |table.books|;
    var last := table.books[n - 1];
    assert PositionOf(table.books, last.id) == n - 1;
    var deleted := table.DeleteBook(last.id);
    assert table.books == old(table.books[..n - 1]);
    assert "title" in map["title" := title];
    created := table.CreateBook(Some(map["title" := title]));
  }

  /** From the initial list, deleting book 2 and posting a book gives id 2 again. */
  method DeleteSecondThenCreate(title: Json) returns (created: Result<BinBook>)
    ensures created.Ok? && created.value.id == 2
  {
    var table := new BinBookTable();
    created := DeleteLastThenCreate(table, title);
  }

  /** Where the initial books sit, alone and once the first is gone. */
  lemma InitialPositions()
    ensures PositionOf(INITIAL_BOOKS, 1) == 0
    ensures INITIAL_BOOKS[..0] + INITIAL_BOOKS[1..] == [INITIAL_BOOKS[1]]
    ensures PositionOf([INITIAL_BOOKS[1]], 2) == 0
    ensures [INITIAL_BOOKS[1]][..0] + [INITIAL_BOOKS[1]][1..] == []
  {
    var b := INITIAL_BOOKS;
    assert b[0].id == 1 && b[1].id == 2;
  }

  /** Deleting both initial books leaves an empty list, on which creating raises `IndexError`. */
  method CreateOnEmpty(title: Json) returns (created: Result<BinBook>)
    ensures created == Fail(IndexError)
  {
    var table := new BinBookTable();
    InitialPositions();
    var _ := table.DeleteBook(1);
    var _ := table.DeleteBook(2);
    assert "title" in map["title" := title];
    created := table.CreateBook(Some(map["title" := title]));
  }
}
