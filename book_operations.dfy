/** `BasicBookOperation`: borrowing and returning a book are guarded transitions of the
    two loan fields `available` and `borrowed_by`, answered with a REST response. The
    functions `BorrowOutcome` and `ReturnOutcome` specify them on rows; the methods of
    `BasicBookOperation` perform them on a model instance. */
module BookOperations {
  import opened Common
  import opened Models

  const HttpOk := 200
  const HttpBadRequest := 400

  const NotAvailableDetail := "Book is not available for borrowing."
  const BorrowedDetail := "Book borrowed successfully."
  const CannotReturnDetail := "Book cannot be returned."
  const ReturnedDetail := "Book returned successfully."

  /** A response with its status code and the `detail` of its JSON body. */
  datatype Response = Response(status: int, detail: string)

  /** The row after an operation and the response it answers with. */
  datatype Outcome = Outcome(book: Book, response: Response)

  /** The loan invariant the backend relies on but the table does not enforce. */
  predicate LoanConsistent(b: Book)
  {
    b.available <==> b.borrowedBy == None
  }

  /** `b` and `r` differ at most in the two loan fields. */
  predicate OnlyLoanFieldsDiffer(b: Book, r: Book)
  {
    r == b.(available := r.available, borrowedBy := r.borrowedBy)
  }

  function BorrowOutcome(b: Book, user: UserId): (r: Outcome)
    ensures r.response.status == HttpOk <==> b.available
    ensures b.available ==>
              && !r.book.available && r.book.borrowedBy == Some(user)
              && r.response.detail == BorrowedDetail
    ensures !b.available ==> r.book == b && r.response == Response(HttpBadRequest, NotAvailableDetail)
    ensures OnlyLoanFieldsDiffer(b, r.book)
  {
    if !b.available then
      Outcome(b, Response(HttpBadRequest, NotAvailableDetail))
    else
      Outcome(b.(available := false, borrowedBy := Some(user)), Response(HttpOk, BorrowedDetail))
  }

  function ReturnOutcome(b: Book, user: UserId): (r: Outcome)
    ensures r.response.status == HttpOk <==> !b.available && b.borrowedBy == Some(user)
    ensures r.response.status == HttpOk ==>
              && r.book.available && r.book.borrowedBy == None
              && r.response.detail == ReturnedDetail
    ensures r.response.status != HttpOk ==>
              r.book == b && r.response == Response(HttpBadRequest, CannotReturnDetail)
    ensures OnlyLoanFieldsDiffer(b, r.book)
  {
    if b.available || b.borrowedBy != Some(user) then
      Outcome(b, Response(HttpBadRequest, CannotReturnDetail))
    else
      Outcome(b.(available := true, borrowedBy := None), Response(HttpOk, ReturnedDetail))
  }

  /** Only the current borrower can return a book. */
  lemma OnlyBorrowerCanReturn(b: Book, user: UserId, other: UserId)
    requires BorrowOutcome(b, user).response.status == HttpOk
    requires other != user
    ensures ReturnOutcome(BorrowOutcome(b, user).book, other).response.status == HttpBadRequest
    ensures ReturnOutcome(BorrowOutcome(b, user).book, other).book == BorrowOutcome(b, user).book
  {
  }

  /** Borrowing and then returning by the same user succeeds twice and leaves the book
      available and unborrowed; a consistent available book comes back exactly as it was. */
  lemma BorrowThenReturn(b: Book, user: UserId)
    requires b.available
    ensures BorrowOutcome(b, user).response.status == HttpOk
    ensures ReturnOutcome(BorrowOutcome(b, user).book, user).response.status == HttpOk
    ensures ReturnOutcome(BorrowOutcome(b, user).book, user).book == b.(borrowedBy := None)
    ensures LoanConsistent(b) ==> ReturnOutcome(BorrowOutcome(b, user).book, user).book == b
  {
  }

  /** A second borrow right after a successful one fails, whoever asks. */
  lemma BorrowIsNotRepeatable(b: Book, user: UserId, next: UserId)
    requires BorrowOutcome(b, user).response.status == HttpOk
    ensures BorrowOutcome(BorrowOutcome(b, user).book, next).response
            == Response(HttpBadRequest, NotAvailableDetail)
  {
  }

  /** A book that is unavailable but has no borrower (for instance after its borrower was
      deleted) can be neither borrowed nor returned by anyone. */
  lemma StrandedBookIsFrozen(b: Book, user: UserId)
    requires !b.available && b.borrowedBy == None
    ensures BorrowOutcome(b, user) == Outcome(b, Response(HttpBadRequest, NotAvailableDetail))
    ensures ReturnOutcome(b, user) == Outcome(b, Response(HttpBadRequest, CannotReturnDetail))
  {
  }

  /** Deleting the borrower of a borrowed book freezes it for good. */
  lemma DeletedBorrowerFreezesBook(b: Book, borrower: UserId, user: UserId)
    requires !b.available && b.borrowedBy == Some(borrower)
    ensures BorrowOutcome(OnBorrowerDeleted(b, borrower), user).response.status == HttpBadRequest
    ensures ReturnOutcome(OnBorrowerDeleted(b, borrower), user).response.status == HttpBadRequest
  {
  }

  /** A request against the loan of one book. */
  datatype LoanRequest = BorrowBy(user: UserId) | ReturnBy(user: UserId)

  function Apply(b: Book, req: LoanRequest): Book
  {
    match req
    case BorrowBy(u) => BorrowOutcome(b, u).book
    case ReturnBy(u) => ReturnOutcome(b, u).book
  }

  /** The row after a series of borrow and return requests, in order. */
  function Replay(b: Book, reqs: seq<LoanRequest>): Book
    decreases |reqs|
  {
    if reqs == [] then b else Replay(Apply(b, reqs[0]), reqs[1..])
  }

  /** Whatever requests arrive, a consistent book stays consistent and no field other than
      the two loan fields ever changes. */
  lemma {:induction false} ReplayKeepsLoanInvariant(b: Book, reqs: seq<LoanRequest>)
    ensures LoanConsistent(b) ==> LoanConsistent(Replay(b, reqs))
    ensures OnlyLoanFieldsDiffer(b, Replay(b, reqs))
    decreases |reqs|
  {
    if reqs != [] {
      ReplayKeepsLoanInvariant(Apply(b, reqs[0]), reqs[1..]);
    }
  }

  /** The stateless operation object the views instantiate. */
  class BasicBookOperation {

    constructor ()
    {
    }

    method Borrow(book: BookInstance, user: UserId) returns (response: Response)
      modifies book`available, book`borrowedBy
      ensures book.Record() == BorrowOutcome(old(book.Record()), user).book
      ensures response == BorrowOutcome(old(book.Record()), user).response
    {
      if !book.available {
        return Response(HttpBadRequest, NotAvailableDetail);
      }
      book.available := false;
      book.borrowedBy := Some(user);
      return Response(HttpOk, BorrowedDetail);
    }

    method ReturnBook(book: BookInstance, user: UserId) returns (response: Response)
      modifies book`available, book`borrowedBy
      ensures book.Record() == ReturnOutcome(old(book.Record()), user).book
      ensures response == ReturnOutcome(old(book.Record()), user).response
    {
      if book.available || book.borrowedBy != Some(user) {
        return Response(HttpBadRequest, CannotReturnDetail);
      }
      book.available := true;
      book.borrowedBy := None;
      return Response(HttpOk, ReturnedDetail);
    }
  }
}
