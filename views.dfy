/** `BookViewSet`: which permission classes guard each action, the search filter of the
    list endpoint, the staff-only creation hook, and the borrow and return actions that
    delegate to `BasicBookOperation`. */
module Views {
  import opened Common
  import opened Text
  import opened Models
  import opened Permissions
  import Serializers
  import opened BookOperations

  // ---------------------------------------------------------------------------
  // permission_classes

  /** The view-level permission check for an action: the viewset default
      `[IsAuthenticated, IsAdminOrReadOnly]`, replaced on the two extra actions by
      `[IsUserOrReadOnly]` alone. */
  predicate ViewSetPermits(user: Requester, httpMethod: string, action: string)
  {
    if action in LoanActions then IsUserOrReadOnly(httpMethod, user, Some(action))
    else IsAuthenticated(user) && IsAdminOrReadOnly(httpMethod, user)
  }

  /** A create request that passes the permission check comes from staff, so the staff
      test in `perform_create` never refuses a request that reaches it. */
  lemma CreatePermitOnlyForStaff(user: Requester)
    ensures ViewSetPermits(user, "POST", "create") <==> IsStaff(user)
  {
  }

  /** The loan actions drop `IsAuthenticated`: an anonymous POST passes their permission
      check, while the anonymous user cannot even list books. */
  lemma LoanActionsSkipAuthentication()
    ensures ViewSetPermits(Anonymous, "POST", "borrow")
    ensures ViewSetPermits(Anonymous, "POST", "return_book")
    ensures !ViewSetPermits(Anonymous, "GET", "list")
  {
  }

  // ---------------------------------------------------------------------------
  // get_queryset

  /** A book matches a query when its title or its author contains it, ignoring case. */
  function Matches(b: Book, query: string): bool
  {
    ContainsIgnoringCase(b.title, query) || ContainsIgnoringCase(b.author, query)
  }

  /** `title__icontains=q | author__icontains=q`, keeping the table order. */
  function FilterByQuery(books: seq<Book>, query: string): (r: seq<Book>)
    ensures forall b :: b in r <==> b in books && Matches(b, query)
    ensures |r| <= |books|
  {
    if books == [] then []
    else if Matches(books[0], query) then [books[0]] + FilterByQuery(books[1..], query)
    else FilterByQuery(books[1..], query)
  }

  /** The list endpoint: an absent or empty `search` returns every book. */
  function GetQueryset(books: seq<Book>, search: Option<string>): (r: seq<Book>)
    ensures search == None || search == Some("") ==> r == books
    ensures search.Some? && search.value != "" ==>
              forall b :: b in r <==> b in books && Matches(b, search.value)
    ensures forall b :: b in r ==> b in books
  {
    if search.Some? && search.value != "" then FilterByQuery(books, search.value) else books
  }

  /** Filtering by the empty query would keep every book, so the empty-search shortcut
      gives the same answer as filtering. */
  lemma {:induction false} EmptyQueryKeepsAll(books: seq<Book>)
    ensures FilterByQuery(books, "") == books
  {
    if books != [] {
      EmptyIsSubstring(Lower(books[0].title));
      EmptyQueryKeepsAll(books[1..]);
      assert books == [books[0]] + books[1..];
    }
  }

  /** The search ignores the case of the query. */
  lemma {:induction false} SearchIgnoresQueryCase(books: seq<Book>, query: string)
    ensures FilterByQuery(books, query) == FilterByQuery(books, Lower(query))
  {
    LowerIdempotent(query);
    if books != [] {
      SearchIgnoresQueryCase(books[1..], query);
    }
  }

  // ---------------------------------------------------------------------------
  // perform_create

  const CreateDeniedDetail := "You do not have permission to create a book."

  /** Saves through the serializer only for staff; anyone else gets PermissionDenied and
      nothing is saved. An `Ok` result is the row that is saved. */
  method PerformCreate(user: Requester, validatedData: Serializers.Data) returns (r: Result<Serializers.Data>)
    ensures !IsStaff(user) ==> r == Err(PermissionDenied(CreateDeniedDetail))
    ensures IsStaff(user) ==>
              (r.Ok? <==> Serializers.TypeRuleHolds(Serializers.Get(validatedData, Serializers.BookTypeKey), validatedData))
    ensures r.Ok? ==> r.value == Serializers.Normalised(validatedData)
  {
    if IsStaff(user) {
      r := Serializers.Create(validatedData);
    } else {
      r := Err(PermissionDenied(CreateDeniedDetail));
    }
  }

  // ---------------------------------------------------------------------------
  // borrow / return_book actions

  /** `borrow` on the book the URL names, for the requesting user. */
  method BorrowAction(book: BookInstance, user: UserId) returns (response: Response)
    modifies book`available, book`borrowedBy
    ensures book.Record() == BorrowOutcome(old(book.Record()), user).book
    ensures response == BorrowOutcome(old(book.Record()), user).response
  {
    var operation := new BasicBookOperation();
    response := operation.Borrow(book, user);
  }

  /** `return_book` on the book the URL names, for the requesting user. */
  method ReturnBookAction(book: BookInstance, user: UserId) returns (response: Response)
    modifies book`available, book`borrowedBy
    ensures book.Record() == ReturnOutcome(old(book.Record()), user).book
    ensures response == ReturnOutcome(old(book.Record()), user).response
  {
    var operation := new BasicBookOperation();
    response := operation.ReturnBook(book, user);
  }
}
