/** library_management/services: a Library keeping books and members in two maps keyed by ID,
    with a borrow/return state machine. */
module LibraryService {
  import opened Wrappers
  import Seqs

  datatype Book = Book(id: int, title: string, author: string, status: string)
  datatype Member = Member(id: int, name: string, borrowedBooks: seq<Book>)

  const Borrowed := "Borrowed"
  const Available := "Available"

  const BookNotFound := "book not found"
  const MemberNotFound := "member not found"
  const AlreadyBorrowed := "book already borrowed"

  /** A whole library state together with the error an operation returned. */
  datatype Outcome = Outcome(books: map<int, Book>, members: map<int, Member>, err: Option<string>)

  predicate HasId(id: int, b: Book) { b.id == id }

  /** The member's list with the first entry for `bookId` spliced out, as ReturnBook's loop does. */
  function WithoutFirst(bs: seq<Book>, bookId: int): (r: seq<Book>)
    ensures |bs| - 1 <= |r| <= |bs|
    ensures |r| == |bs| <==> forall j :: 0 <= j < |bs| ==> bs[j].id != bookId
  {
    match Seqs.FirstWhere(bs, b => HasId(bookId, b))
    case None => bs
    case Some(i) => Seqs.RemoveAt(bs, i)
  }

  /** BorrowBook: book, then member, then status are checked; on success the book is marked
      borrowed and that marked copy is appended to the member's list. */
  function Borrow(books: map<int, Book>, members: map<int, Member>, bookId: int, memberId: int): (o: Outcome)
    ensures bookId !in books ==> o.err == Some(BookNotFound)
    ensures bookId in books && memberId !in members ==> o.err == Some(MemberNotFound)
    ensures bookId in books && memberId in members && books[bookId].status == Borrowed
            ==> o.err == Some(AlreadyBorrowed)
    ensures o.err.Some? ==> o.books == books && o.members == members
    ensures o.err.None? <==> bookId in books && memberId in members && books[bookId].status != Borrowed
    ensures o.err.None? ==>
              && o.books == books[bookId := books[bookId].(status := Borrowed)]
              && o.members.Keys == members.Keys
              && o.members[memberId].id == members[memberId].id
              && o.members[memberId].name == members[memberId].name
              && o.members[memberId].borrowedBooks == members[memberId].borrowedBooks + [o.books[bookId]]
              && forall m :: m in members && m != memberId ==> o.members[m] == members[m]
  {
    if bookId !in books then Outcome(books, members, Some(BookNotFound))
    else if memberId !in members then Outcome(books, members, Some(MemberNotFound))
    else if books[bookId].status == Borrowed then Outcome(books, members, Some(AlreadyBorrowed))
    else
      var book := books[bookId].(status := Borrowed);
      var member := members[memberId];
      Outcome(books[bookId := book],
              members[memberId := member.(borrowedBooks := member.borrowedBooks + [book])], None)
  }

  /** ReturnBook: book, then member, are checked; then the book is marked available (whoever holds it)
      and the member's first entry with that ID, if any, is removed. */
  function Return(books: map<int, Book>, members: map<int, Member>, bookId: int, memberId: int): (o: Outcome)
    ensures bookId !in books ==> o.err == Some(BookNotFound)
    ensures bookId in books && memberId !in members ==> o.err == Some(MemberNotFound)
    ensures o.err.Some? ==> o.books == books && o.members == members
    ensures o.err.None? <==> bookId in books && memberId in members
    ensures o.err.None? ==>
              && o.books == books[bookId := books[bookId].(status := Available)]
              && o.members.Keys == members.Keys
              && o.members[memberId] == members[memberId].(borrowedBooks := WithoutFirst(members[memberId].borrowedBooks, bookId))
              && forall m :: m in members && m != memberId ==> o.members[m] == members[m]
  {
    if bookId !in books then Outcome(books, members, Some(BookNotFound))
    else if memberId !in members then Outcome(books, members, Some(MemberNotFound))
    else
      var member := members[memberId];
      Outcome(books[bookId := books[bookId].(status := Available)],
              members[memberId := member.(borrowedBooks := WithoutFirst(member.borrowedBooks, bookId))], None)
  }

  /** Removing the first entry with an ID keeps the others in order, and the list shrinks by one
      exactly when such an entry was there. */
  lemma WithoutFirstShape(bs: seq<Book>, bookId: int)
    ensures (exists j :: 0 <= j < |bs| && bs[j].id == bookId) <==> |WithoutFirst(bs, bookId)| == |bs| - 1
    ensures (forall j :: 0 <= j < |bs| ==> bs[j].id != bookId) <==> WithoutFirst(bs, bookId) == bs
    ensures forall i :: 0 <= i < |bs| && bs[i].id == bookId && (forall j :: 0 <= j < i ==> bs[j].id != bookId)
              ==> WithoutFirst(bs, bookId) == bs[..i] + bs[i+1..]
  {
    var p := (b: Book) => HasId(bookId, b);
    match Seqs.FirstWhere(bs, p)
    case None =>
    case Some(k) =>
      assert bs[k].id == bookId;
      assert WithoutFirst(bs, bookId) != bs by {
        assert |WithoutFirst(bs, bookId)| != |bs|;
      }
  }

  /** Borrowing a book and then returning it to the same member restores the member's list and,
      if the book was available before, the book itself, provided the member held no copy of it. */
  lemma {:induction false} BorrowThenReturn(books: map<int, Book>, members: map<int, Member>, bookId: int, memberId: int)
    requires Borrow(books, members, bookId, memberId).err.None?
    requires books[bookId].id == bookId
    requires forall j :: 0 <= j < |members[memberId].borrowedBooks| ==> members[memberId].borrowedBooks[j].id != bookId
    ensures var b := Borrow(books, members, bookId, memberId);
            var r := Return(b.books, b.members, bookId, memberId);
            && r.err.None?
            && r.members == members
            && r.books == books[bookId := books[bookId].(status := Available)]
  {
    var b := Borrow(books, members, bookId, memberId);
    var old_bs := members[memberId].borrowedBooks;
    WithoutAppended(old_bs, b.books[bookId]);
    var r := Return(b.books, b.members, bookId, memberId);
    assert r.members[memberId] == members[memberId];
    assert r.members == members;
  }

  /** Appending a book to a list without its ID and then removing the first entry with that ID gives
      the list back. */
  lemma WithoutAppended(bs: seq<Book>, book: Book)
    requires forall j :: 0 <= j < |bs| ==> bs[j].id != book.id
    ensures WithoutFirst(bs + [book], book.id) == bs
  {
    var all := bs + [book];
    var p := (x: Book) => HasId(book.id, x);
    assert Seqs.FirstWhere(all, p) == Some(|bs|) by {
      assert forall j :: 0 <= j < |bs| ==> !p(all[j]);
      assert p(all[|bs|]);
    }
    assert Seqs.RemoveAt(all, |bs|) == all[..|bs|];
    assert all[..|bs|] == bs;
  }

  /** `order` lists every key of `m` exactly once: one possible iteration order of a Go map range. */
  class Library {
    var books: map<int, Book>
    var members: map<int, Member>

    /** Every entry is stored under its own ID, as AddBook and AddMember store them. */
    ghost predicate Valid()
      reads this
    {
      && (forall k :: k in books ==> books[k].id == k)
      && (forall k :: k in members ==> members[k].id == k)
    }

    /** NewLibrary: two empty maps. */
    constructor ()
      ensures Valid() && books == map[] && members == map[]
    {
      books := map[];
      members := map[];
    }

    /** Inserts or overwrites the book under its ID. */
    method AddBook(book: Book)
      requires Valid()
      modifies this
      ensures Valid()
      ensures books == old(books)[book.id := book] && members == old(members)
    {
      books := books[book.id := book];
    }

    /** Deletes the key; a missing key is a no-op, and members' lists are not touched. */
    method RemoveBook(bookId: int)
      requires Valid()
      modifies this
      ensures Valid()
      ensures books == old(books) - {bookId} && members == old(members)
    {
      books := books - {bookId};
    }

    method BorrowBook(bookId: int, memberId: int) returns (err: Option<string>)
      requires Valid()
      modifies this
      ensures Valid()
      ensures Outcome(books, members, err) == Borrow(old(books), old(members), bookId, memberId)
    {
      var bookExists := bookId in books;
      var memberExists := memberId in members;
      if !bookExists {
        return Some(BookNotFound);
      }
      if !memberExists {
        return Some(MemberNotFound);
      }
      var book := books[bookId];
      var member := members[memberId];
      if book.status == Borrowed {
        return Some(AlreadyBorrowed);
      }
      book := book.(status := Borrowed);
      books := books[bookId := book];
      member := member.(borrowedBooks := member.borrowedBooks + [book]);
      members := members[memberId := member];
      err := None;
    }

    method ReturnBook(bookId: int, memberId: int) returns (err: Option<string>)
      requires Valid()
      modifies this
      ensures Valid()
      ensures Outcome(books, members, err) == Return(old(books), old(members), bookId, memberId)
    {
      if bookId !in books {
        return Some(BookNotFound);
      }
      if memberId !in members {
        return Some(MemberNotFound);
      }
      var book := books[bookId];
      var member := members[memberId];
      book := book.(status := Available);
      books := books[bookId := book];

      var bs := member.borrowedBooks;
      var i := 0;
      while i < |bs|
        invariant 0 <= i <= |bs|
        invariant forall j :: 0 <= j < i ==> bs[j].id != bookId
      {
        if bs[i].id == bookId {
          assert Seqs.FirstWhere(bs, b => HasId(bookId, b)) == Some(i);
          bs := bs[..i] + bs[i+1..];
          break;
        }
        i := i + 1;
      }
      assert bs == WithoutFirst(member.borrowedBooks, bookId);
      member := member.(borrowedBooks := bs);
      members := members[memberId := member];
      err := None;
    }

    /** The available books, one per key, in the order the map range visits the keys. */
    method ListAvailableBooks(order: seq<int>) returns (r: seq<Book>)
      requires Valid()
      requires Seqs.IsIterationOrder(books, order)
      ensures forall i :: 0 <= i < |r| ==> r[i].status == Available && r[i].id in books && books[r[i].id] == r[i]
      ensures forall k :: k in books && books[k].status == Available ==> books[k] in r
      ensures forall i, j :: 0 <= i < j < |r| ==> r[i] != r[j]
    {
      r := [];
      var shelf := books;
      for n := 0 to |order|
        invariant forall i :: 0 <= i < |r| ==> r[i].status == Available && r[i].id in shelf
                                               && r[i].id in order[..n] && shelf[r[i].id] == r[i]
        invariant forall k :: k in shelf && k in order[..n] && shelf[k].status == Available ==> shelf[k] in r
        invariant forall i, j :: 0 <= i < j < |r| ==> r[i] != r[j]
      {
        var k := order[n];
        assert order[..n+1] == order[..n] + [k];
        assert k !in order[..n] by {
          assert forall i :: 0 <= i < n ==> order[i] != k;
        }
        if shelf[k].status == Available {
          assert shelf[k] !in r;
          r := r + [shelf[k]];
        }
      }
      assert order[..|order|] == order;
    }

    /** nil for an unknown member, else the member's list as stored. */
    method ListBorrowedBooks(memberId: int) returns (r: Option<seq<Book>>)
      ensures memberId !in members <==> r.None?
      ensures memberId in members ==> r == Some(members[memberId].borrowedBooks)
    {
      if memberId !in members {
        return None;
      }
      r := Some(members[memberId].borrowedBooks);
    }

    /** Inserts or overwrites the member under its ID. */
    method AddMember(member: Member)
      requires Valid()
      modifies this
      ensures Valid()
      ensures members == old(members)[member.id := member] && books == old(books)
    {
      members := members[member.id := member];
    }
  }
}
