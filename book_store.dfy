/** The books collection: documents in storage order, the unique index on
    `openLibraryId`, and the atomic `findOneAndUpdate(..., { $set }, { upsert: true })`
    that both book services write through. */
module BookStore {
  import opened Common
  import opened Books

  /** The unique index on `openLibraryId`, and store-assigned `_id`s below the
      next fresh one. */
  predicate Wellformed(docs: seq<Book>, nextId: nat) {
    && (forall i, j :: 0 <= i < j < |docs| ==> docs[i].openLibraryId != docs[j].openLibraryId)
    && (forall i :: 0 <= i < |docs| ==> docs[i].id < nextId)
  }

  /** The position of the document with the given `openLibraryId`, if any. */
  function IndexOf(docs: seq<Book>, key: string): (r: Option<nat>)
    ensures r.Some? ==> r.value < |docs| && docs[r.value].openLibraryId == key
    ensures r.None? ==> forall i :: 0 <= i < |docs| ==> docs[i].openLibraryId != key
    decreases |docs|
  {
    if docs == [] then None
    else if docs[0].openLibraryId == key then Some(0)
    else match IndexOf(docs[1..], key)
      case None => None
      case Some(i) => Some(i + 1)
  }

  /** Under the unique index, the document with a key is the one IndexOf finds. */
  lemma IndexOfUnique(docs: seq<Book>, nextId: nat, key: string, i: nat)
    requires Wellformed(docs, nextId) && i < |docs| && docs[i].openLibraryId == key
    ensures IndexOf(docs, key) == Some(i)
  {
  }

  /** `$set: dto` on a stored document: every field the record carries is
      overwritten; `_id`, and `searchKeywords` when the record lacks the key, are kept. */
  function ApplySet(b: Book, dto: CreateBookDto): Book {
    Book(b.id, dto.title, dto.authors, dto.firstPublishYear, dto.isbns, dto.publishers, dto.openLibraryId,
         if dto.searchKeywords.Some? then dto.searchKeywords else b.searchKeywords)
  }

  /** The document an upsert inserts for an unseen `openLibraryId`. */
  function Inserted(id: nat, dto: CreateBookDto): Book {
    Book(id, dto.title, dto.authors, dto.firstPublishYear, dto.isbns, dto.publishers, dto.openLibraryId, dto.searchKeywords)
  }

  /** The record's fields as a stored document carries them. */
  predicate Carries(b: Book, dto: CreateBookDto) {
    && b.title == dto.title && b.authors == dto.authors && b.firstPublishYear == dto.firstPublishYear
    && b.isbns == dto.isbns && b.publishers == dto.publishers && b.openLibraryId == dto.openLibraryId
    && (dto.searchKeywords.Some? ==> b.searchKeywords == dto.searchKeywords)
  }

  /** The collection after an upsert, and the document returned (`returnDocument: 'after'`). */
  datatype Upserted = Upserted(docs: seq<Book>, nextId: nat, book: Book)

  /** Create-or-update keyed by `openLibraryId`: the unique index and the order of
      `_id`s survive it. */
  function Upsert(docs: seq<Book>, nextId: nat, dto: CreateBookDto): (u: Upserted)
    requires Wellformed(docs, nextId)
    ensures Wellformed(u.docs, u.nextId) && u.nextId >= nextId && |u.docs| >= |docs|
  {
    match IndexOf(docs, dto.openLibraryId)
    case Some(i) =>
      var b := ApplySet(docs[i], dto);
      var docs' := docs[i := b];
      Upserted(docs', nextId, b)
    case None =>
      var b := Inserted(nextId, dto);
      var docs' := docs + [b];
      Upserted(docs', nextId + 1, b)
  }

  /** After an upsert the record's `openLibraryId` is stored, in the returned
      document, which carries the record's fields. */
  lemma UpsertStoresRecord(docs: seq<Book>, nextId: nat, dto: CreateBookDto)
    requires Wellformed(docs, nextId)
    ensures var u := Upsert(docs, nextId, dto);
      && IndexOf(u.docs, dto.openLibraryId).Some?
      && u.docs[IndexOf(u.docs, dto.openLibraryId).value] == u.book
      && Carries(u.book, dto)
  {
    var u := Upsert(docs, nextId, dto);
    match IndexOf(docs, dto.openLibraryId)
    case Some(i) =>
      IndexOfUnique(u.docs, u.nextId, dto.openLibraryId, i);
    case None =>
      IndexOfUnique(u.docs, u.nextId, dto.openLibraryId, |docs|);
  }

  /** An upsert of an already stored `openLibraryId` rewrites that document in
      place: same `_id`, same collection size, `searchKeywords` kept when the record has none. */
  lemma UpsertUpdatesInPlace(docs: seq<Book>, nextId: nat, dto: CreateBookDto)
    requires Wellformed(docs, nextId) && IndexOf(docs, dto.openLibraryId).Some?
    ensures var u := Upsert(docs, nextId, dto);
      var i := IndexOf(docs, dto.openLibraryId).value;
      && |u.docs| == |docs| && u.nextId == nextId
      && u.docs == docs[i := u.book]
      && u.book.id == docs[i].id
      && (dto.searchKeywords.None? ==> u.book.searchKeywords == docs[i].searchKeywords)
  {
  }

  /** An upsert of an unseen `openLibraryId` appends one document under a fresh `_id`. */
  lemma UpsertInsertsFresh(docs: seq<Book>, nextId: nat, dto: CreateBookDto)
    requires Wellformed(docs, nextId) && IndexOf(docs, dto.openLibraryId).None?
    ensures var u := Upsert(docs, nextId, dto);
      && u.docs == docs + [u.book]
      && u.book.id == nextId && u.nextId == nextId + 1
      && forall i :: 0 <= i < |docs| ==> docs[i].id != u.book.id
  {
  }

  /** An upsert leaves every document of another `openLibraryId` as it was. */
  lemma UpsertLeavesOthers(docs: seq<Book>, nextId: nat, dto: CreateBookDto)
    requires Wellformed(docs, nextId)
    ensures var u := Upsert(docs, nextId, dto);
      forall j :: 0 <= j < |docs| && docs[j].openLibraryId != dto.openLibraryId ==> u.docs[j] == docs[j]
  {
  }

  /** The indices of the documents whose `openLibraryId` is `key`. */
  function Holders(docs: seq<Book>, key: string): set<nat> {
    set i: nat | i < |docs| && docs[i].openLibraryId == key
  }

  /** After an upsert exactly one document has the record's `openLibraryId`. */
  lemma UpsertLeavesExactlyOne(docs: seq<Book>, nextId: nat, dto: CreateBookDto)
    requires Wellformed(docs, nextId)
    ensures var u := Upsert(docs, nextId, dto);
      IndexOf(u.docs, dto.openLibraryId).Some? &&
      Holders(u.docs, dto.openLibraryId) == {IndexOf(u.docs, dto.openLibraryId).value}
  {
    var u := Upsert(docs, nextId, dto);
    UpsertStoresRecord(docs, nextId, dto);
    var i := IndexOf(u.docs, dto.openLibraryId).value;
    forall j: nat | j < |u.docs| && u.docs[j].openLibraryId == dto.openLibraryId
      ensures j == i
    {
      IndexOfUnique(u.docs, u.nextId, dto.openLibraryId, j);
    }
  }

  /** Upserting the same record twice gives the state and the document of upserting it once. */
  lemma UpsertIdempotent(docs: seq<Book>, nextId: nat, dto: CreateBookDto)
    requires Wellformed(docs, nextId)
    ensures var u := Upsert(docs, nextId, dto);
      Upsert(u.docs, u.nextId, dto) == u
  {
    var u := Upsert(docs, nextId, dto);
    UpsertStoresRecord(docs, nextId, dto);
    var i := IndexOf(u.docs, dto.openLibraryId).value;
    assert ApplySet(u.docs[i], dto) == u.docs[i];
    assert u.docs[i := u.docs[i]] == u.docs;
  }

  /** Two upserts of one `openLibraryId` leave one document, carrying the later
      record's fields under the `_id` the first one gave it. */
  lemma LaterUpsertWins(docs: seq<Book>, nextId: nat, first: CreateBookDto, second: CreateBookDto)
    requires Wellformed(docs, nextId) && first.openLibraryId == second.openLibraryId
    ensures var u1 := Upsert(docs, nextId, first);
      var u2 := Upsert(u1.docs, u1.nextId, second);
      && |u2.docs| == |u1.docs|
      && Carries(u2.book, second)
      && u2.book.id == u1.book.id
      && IndexOf(u2.docs, second.openLibraryId).Some?
      && Holders(u2.docs, second.openLibraryId) == {IndexOf(u2.docs, second.openLibraryId).value}
  {
    var u1 := Upsert(docs, nextId, first);
    UpsertStoresRecord(docs, nextId, first);
    UpsertUpdatesInPlace(u1.docs, u1.nextId, second);
    UpsertStoresRecord(u1.docs, u1.nextId, second);
    UpsertLeavesExactlyOne(u1.docs, u1.nextId, second);
  }

  /** A batch of upserts issued together, each of which may fail on its own. */
  datatype Batch = Batch(docs: seq<Book>, nextId: nat, books: seq<Book>, failed: bool)

  /** The records upserted one after another, in order; a failing record is not
      written and marks the batch failed, the others are written regardless. */
  function UpsertBatch(docs: seq<Book>, nextId: nat, dtos: seq<CreateBookDto>, failures: set<nat>): (b: Batch)
    requires Wellformed(docs, nextId)
    ensures Wellformed(b.docs, b.nextId) && b.nextId >= nextId
    ensures |b.docs| >= |docs|
    ensures !b.failed ==> |b.books| == |dtos|
    decreases |dtos|
  {
    if dtos == [] then Batch(docs, nextId, [], false)
    else
      var n := |dtos| - 1;
      var prefix := UpsertBatch(docs, nextId, dtos[..n], failures);
      if n in failures then prefix.(failed := true)
      else
        var u := Upsert(prefix.docs, prefix.nextId, dtos[n]);
        Batch(u.docs, u.nextId, prefix.books + [u.book], prefix.failed)
  }

  /** One more record extends the batch by one step. */
  lemma BatchExtends(docs: seq<Book>, nextId: nat, dtos: seq<CreateBookDto>, i: nat, failures: set<nat>)
    requires Wellformed(docs, nextId) && i < |dtos|
    ensures var p := UpsertBatch(docs, nextId, dtos[..i], failures);
      UpsertBatch(docs, nextId, dtos[..i + 1], failures)
        == if i in failures then p.(failed := true)
           else var u := Upsert(p.docs, p.nextId, dtos[i]); Batch(u.docs, u.nextId, p.books + [u.book], p.failed)
  {
    assert dtos[..i + 1][..i] == dtos[..i];
  }

  /** A batch fails exactly when one of its records fails. */
  lemma {:induction false} BatchFailsIffSomeRecordFails(docs: seq<Book>, nextId: nat, dtos: seq<CreateBookDto>, failures: set<nat>)
    requires Wellformed(docs, nextId)
    ensures UpsertBatch(docs, nextId, dtos, failures).failed <==> exists i :: 0 <= i < |dtos| && i in failures
    decreases |dtos|
  {
    if dtos != [] {
      var n := |dtos| - 1;
      var prefix := UpsertBatch(docs, nextId, dtos[..n], failures);
      BatchFailsIffSomeRecordFails(docs, nextId, dtos[..n], failures);
      assert UpsertBatch(docs, nextId, dtos, failures).failed == (prefix.failed || n in failures);
      assert |dtos[..n]| == n;
    }
  }

  /** An upsert removes no key from the collection. */
  lemma UpsertKeepsKeys(docs: seq<Book>, nextId: nat, dto: CreateBookDto, key: string)
    requires Wellformed(docs, nextId) && IndexOf(docs, key).Some?
    ensures IndexOf(Upsert(docs, nextId, dto).docs, key).Some?
  {
    var u := Upsert(docs, nextId, dto);
    var k := IndexOf(docs, key).value;
    if key != dto.openLibraryId {
      UpsertLeavesOthers(docs, nextId, dto);
      IndexOfUnique(u.docs, u.nextId, key, k);
    } else {
      UpsertStoresRecord(docs, nextId, dto);
    }
  }

  predicate Stored(docs: seq<Book>, key: string) {
    IndexOf(docs, key).Some?
  }

  /** After a batch, every record whose write succeeded has a document. */
  lemma {:induction false} BatchStoresEveryRecord(docs: seq<Book>, nextId: nat, dtos: seq<CreateBookDto>, failures: set<nat>)
    requires Wellformed(docs, nextId)
    ensures forall i :: 0 <= i < |dtos| && i !in failures ==> Stored(UpsertBatch(docs, nextId, dtos, failures).docs, dtos[i].openLibraryId)
    decreases |dtos|
  {
    if dtos != [] {
      var n := |dtos| - 1;
      var prefix := UpsertBatch(docs, nextId, dtos[..n], failures);
      BatchStoresEveryRecord(docs, nextId, dtos[..n], failures);
      assert forall i :: 0 <= i < n ==> dtos[..n][i] == dtos[i];
      var b := UpsertBatch(docs, nextId, dtos, failures);
      if n in failures {
        assert b.docs == prefix.docs;
      } else {
        assert b.docs == Upsert(prefix.docs, prefix.nextId, dtos[n]).docs;
        StoredAfterUpsert(prefix.docs, prefix.nextId, dtos, failures);
      }
    }
  }

  /** The induction step of BatchStoresEveryRecord: upserting the last record keeps
      the keys of the earlier ones and adds its own. */
  lemma StoredAfterUpsert(docs: seq<Book>, nextId: nat, dtos: seq<CreateBookDto>, failures: set<nat>)
    requires Wellformed(docs, nextId) && dtos != []
    requires forall i :: 0 <= i < |dtos| - 1 && i !in failures ==> Stored(docs, dtos[i].openLibraryId)
    ensures forall i :: 0 <= i < |dtos| && i !in failures ==> Stored(Upsert(docs, nextId, dtos[|dtos| - 1]).docs, dtos[i].openLibraryId)
  {
    var n := |dtos| - 1;
    UpsertStoresRecord(docs, nextId, dtos[n]);
    forall i | 0 <= i < n && i !in failures
      ensures Stored(Upsert(docs, nextId, dtos[n]).docs, dtos[i].openLibraryId)
    {
      UpsertKeepsKeys(docs, nextId, dtos[n], dtos[i].openLibraryId);
    }
  }

  /** A batch leaves the documents of every key it does not carry untouched. */
  lemma {:induction false} BatchLeavesOtherKeys(docs: seq<Book>, nextId: nat, dtos: seq<CreateBookDto>, failures: set<nat>)
    requires Wellformed(docs, nextId)
    ensures var b := UpsertBatch(docs, nextId, dtos, failures);
      forall j :: 0 <= j < |docs| && docs[j].openLibraryId !in Keys(dtos) ==> b.docs[j] == docs[j]
    decreases |dtos|
  {
    if dtos != [] {
      var n := |dtos| - 1;
      BatchLeavesOtherKeys(docs, nextId, dtos[..n], failures);
      assert Keys(dtos[..n]) <= Keys(dtos) by {
        forall k | k in Keys(dtos[..n]) ensures k in Keys(dtos) {
          var i :| 0 <= i < n && dtos[..n][i].openLibraryId == k;
          assert dtos[i].openLibraryId == k;
        }
      }
      assert dtos[n].openLibraryId in Keys(dtos);
    }
  }

  /** A batch without failures returns, per record, the document now stored for it. */
  lemma {:induction false} BatchReturnsEveryRecord(docs: seq<Book>, nextId: nat, dtos: seq<CreateBookDto>, failures: set<nat>)
    requires Wellformed(docs, nextId)
    requires !UpsertBatch(docs, nextId, dtos, failures).failed
    ensures var b := UpsertBatch(docs, nextId, dtos, failures);
      forall i :: 0 <= i < |dtos| ==> Carries(b.books[i], dtos[i])
    decreases |dtos|
  {
    if dtos != [] {
      var n := |dtos| - 1;
      var prefix := UpsertBatch(docs, nextId, dtos[..n], failures);
      assert forall i :: 0 <= i < n ==> dtos[..n][i] == dtos[i];
      BatchReturnsEveryRecord(docs, nextId, dtos[..n], failures);
      var u := Upsert(prefix.docs, prefix.nextId, dtos[n]);
      assert UpsertBatch(docs, nextId, dtos, failures).books == prefix.books + [u.book];
    }
  }

  /** The books collection. */
  class BookCollection {
    var docs: seq<Book>
    var nextId: nat

    ghost predicate Valid()
      reads this
    {
      Wellformed(docs, nextId)
    }

    constructor ()
      ensures Valid() && docs == [] && nextId == 0
    {
      docs := [];
      nextId := 0;
    }

    /** `findById(id)` */
    function FindById(id: nat): (r: Option<Book>)
      reads this
      ensures r.Some? <==> exists i :: 0 <= i < |docs| && docs[i].id == id
      ensures r.Some? ==> r.value in docs && r.value.id == id
    {
      FindByIdIn(docs, id)
    }

    /** `findOneAndUpdate({ openLibraryId }, { $set: dto }, { upsert: true, returnDocument: 'after' })`;
        `fails` stands for a write the store rejects. */
    method FindOneAndUpsert(dto: CreateBookDto, fails: bool) returns (r: Result<Book>)
      requires Valid()
      modifies this
      ensures Valid()
      ensures fails ==> r == Err(Rejected(WriteRejected)) && docs == old(docs) && nextId == old(nextId)
      ensures !fails ==>
        var u := Upsert(old(docs), old(nextId), dto);
        r == Ok(u.book) && docs == u.docs && nextId == u.nextId
    {
      if fails {
        return Err(Rejected(WriteRejected));
      }
      var u := Upsert(docs, nextId, dto);
      docs, nextId := u.docs, u.nextId;
      r := Ok(u.book);
    }
  }

  const WriteRejected: string := "write rejected by the store"

  function FindByIdIn(docs: seq<Book>, id: nat): (r: Option<Book>)
    ensures r.Some? <==> exists i :: 0 <= i < |docs| && docs[i].id == id
    ensures r.Some? ==> r.value in docs && r.value.id == id
    decreases |docs|
  {
    if docs == [] then None
    else if docs[0].id == id then Some(docs[0])
    else
      var r := FindByIdIn(docs[1..], id);
      assert forall i :: 1 <= i < |docs| ==> docs[i] == docs[1..][i - 1];
      r
  }
}
