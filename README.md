# Library management: a verified model of the loan, validation, permission and session logic

The library management system is a Django REST backend for books plus a React client.
Users browse and search books, staff create and edit them, and any user can borrow a
book and return it. This project models the parts of that system that make decisions:

- **Loans** (`BookOperations`). Borrowing and returning are guarded transitions of a
  book's `available` and `borrowed_by` fields. Each one answers 200 or 400 with a fixed
  `detail` text. `BasicBookOperation.Borrow` and `.ReturnBook` update a
  `Models.BookInstance` in place. They are proved against the row-level functions
  `BorrowOutcome` and `ReturnOutcome`.
- **The Book model** (`Models`). It covers the row, its type choices, defaults and column
  bounds, ISBN uniqueness, `__str__`, and the `SET_NULL` rule applied when a borrower's
  account is deleted.
- **Serializers** (`Serializers`). Request data is a map from field names to JSON-like
  values, with Python truthiness and comparison written out. The model covers:
  - normalisation of the type-specific fields, a loop proved against `Normalised`;
  - the three per-type `validate` rules;
  - the serializer factory;
  - the `create` and `update` flows that compose these pieces.
- **Permissions** (`Permissions`, `Decorator`, `Views.ViewSetPermits`). These are the
  allow/deny decisions of `IsAdminOrReadOnly`, `IsUserOrReadOnly`, the
  `can_borrow_and_return` decorator and the viewset's per-action permission classes.
- **Views** (`Views`). The model covers the search filter of the list endpoint, the
  staff-only `perform_create`, and the `borrow`/`return_book` actions that delegate to
  `BasicBookOperation`.
- **Client session** (`AuthContext`). `AuthProvider` holds these fields:
  - the in-memory token;
  - the token persisted under "token";
  - the query cache;
  - the pending flags of the login and register mutations;
  - the last navigation target.

  Its methods perform init, the fetch start on render, a later identity fetch
  start/success/failure, the retry of a failed fetch, login, register and logout. Each method is proved against a transition function on `Session`.
- **Route guard** (`ProtectedRoute`). This is the three-way spinner / redirect / children
  decision, plus lemmas that connect it to session states.

The Django file `core/library/views.py` imports `.permissions` and `.book_operations`.
The modules modelled for these are `library/permissions.py` and
`library/book_operations.py`.

Three behaviours of the code are worth knowing; the model states each as a lemma:

- A failed identity refetch clears the token but, for a moment, keeps the user already
  in the query cache. The query client is configured with one retry
  (`app/src/index.tsx:16`). Until that retry runs, the user is still exposed with no
  token and nothing loading. The retry then runs the query function with no token, and
  the cached user is replaced by `null`. `AuthContext.FailedRefetchExposesUserUntilRetry`
  walks through both steps. `AuthContext.NoStrandedUserPreserved` shows that this retry
  window is the only place a user appears without a token, apart from one exception: a
  retry that itself fails while a user is cached.
- A returning visitor whose stored token has expired ends up with the query's `null`
  cached. After they log in, the app goes to /dashboard and starts the user fetch. Under
  the query library's `isLoading` rule (fetching with no data at all), a cached `null`
  counts as data, so nothing is loading and there is no user. The guard therefore sends
  the visitor back to /login while the fetch is still running
  (`ProtectedRoute.LoginAfterExpiredTokenRedirects`).
- The Book model does not tie `available` to `borrowed_by`. Deleting a borrower's account
  nulls `borrowed_by` (`on_delete=SET_NULL`) but leaves the book unavailable, and after
  that no one can borrow or return it (`BookOperations.DeletedBorrowerFreezesBook`).
- The comment at `core/library/views.py:16` says only authenticated users can access
  book data. But the `borrow` and `return_book` actions replace the viewset's permission
  classes with `IsUserOrReadOnly` alone, so an anonymous POST passes their permission
  check (`Views.LoanActionsSkipAuthentication`).

## Model

| member | source | states |
|---|---|---|
| `Text.ContainsIsSubstring` | core/library/decorator.py:13 | Python's left-to-right `needle in hay` scan is true exactly when the needle occurs at some position of the string |
| `Models.BookTypeValue` | core/library/models.py:12-22 | each book type is stored as one of the three choice values, within the column's 20 characters |
| `Models.ParseBookType` | core/library/models.py:12-22 | a column value is accepted exactly when it is a choice value, and is read back to the type that stores it |
| `Models.BookTypeRoundTrip` | core/library/models.py:12-16 | reading back a stored type gives the same type |
| `Models.FieldsValid` | core/library/models.py:5-26 | title and author fit 255 characters, the ISBN 13, the file format 10; pages and duration are non-negative when set |
| `Models.IsbnsUnique` | core/library/models.py:7 | no two rows share an ISBN |
| `Models.AppendKeepsIsbnsUnique` | core/library/models.py:7 | adding a book whose ISBN is not yet in the table keeps ISBNs unique |
| `Models.NewBook` | core/library/models.py:4-26 | a new book is available, unborrowed, printed, and has null pages, file format and duration; it meets the column bounds iff title and author fit 255 characters and the ISBN fits 13 |
| `Models.Describe` | core/library/models.py:28-29 | the text form is the title, then " by ", then the author |
| `Models.OnBorrowerDeleted` | core/library/models.py:10 | deleting a user nulls `borrowed_by` on the books that user borrowed and changes nothing else |
| `Models.DeletingBorrowerStrandsBook` | core/library/models.py:9-10 | deleting the borrower of a borrowed book leaves a valid row that is unavailable and has no borrower |
| `BookOperations.BorrowOutcome` | library/book_operations.py:18-30 | borrow succeeds (200) iff the book is available; it then sets unavailable and borrowed by the user; otherwise it answers 400 "Book is not available for borrowing." and leaves the book unchanged; only the loan fields ever change |
| `BookOperations.ReturnOutcome` | library/book_operations.py:32-44 | return succeeds (200) iff the book is unavailable and borrowed by this user; it then sets available and no borrower; otherwise it answers 400 "Book cannot be returned." and changes nothing; only the loan fields ever change |
| `BookOperations.OnlyBorrowerCanReturn` | library/book_operations.py:33-37 | after a successful borrow, a return by any other user fails and leaves the book as it is |
| `BookOperations.BorrowThenReturn` | core/library/tests.py:23-29 | borrow then return by the same user both answer 200 and leave the book available with no borrower; a consistent book is restored exactly |
| `BookOperations.BorrowIsNotRepeatable` | library/book_operations.py:19-24 | a second borrow right after a successful one answers 400, whoever asks |
| `BookOperations.StrandedBookIsFrozen` | library/book_operations.py:18-37 | an unavailable book with no borrower can be neither borrowed nor returned by anyone |
| `BookOperations.DeletedBorrowerFreezesBook` | core/library/models.py:10 | once a borrowed book's borrower is deleted, every borrow and return of it answers 400 |
| `BookOperations.ReplayKeepsLoanInvariant` | library/book_operations.py:18-44 | over any sequence of borrow and return requests, `available <==> borrowed_by is null` is preserved and no field other than the two loan fields changes |
| `BookOperations.BasicBookOperation.Borrow` | library/book_operations.py:18-30 | updates the instance's loan fields in place exactly as `BorrowOutcome` says and returns its response |
| `BookOperations.BasicBookOperation.ReturnBook` | library/book_operations.py:32-44 | updates the instance's loan fields in place exactly as `ReturnOutcome` says and returns its response |
| `Serializers.UnrelatedFields` | core/library/serializers.py:73-80 | `book_type` is never among the nulled fields; a missing or unknown type nulls nothing |
| `Serializers.Normalised` | core/library/serializers.py:69-83 | the type's unrelated fields are present and null; every other key keeps its presence and value |
| `Serializers.SetNullForUnrelatedFields` | core/library/serializers.py:69-83 | the loop writing null into each unrelated field produces exactly `Normalised` of its input |
| `Serializers.NormalisedByType` | core/library/serializers.py:73-81 | printed nulls duration and file format; ebook nulls pages and duration; audiobook nulls pages and file format; the type's own field and `book_type` are kept |
| `Serializers.NormalisedUnknownTypeIsIdentity` | core/library/serializers.py:71-80 | a missing or unknown `book_type` leaves the data unchanged |
| `Serializers.NormalisedIdempotent` | core/library/serializers.py:69-83 | normalising twice equals normalising once |
| `Serializers.ValidatePrinted` | core/library/serializers.py:15-22 | accepts (returning the data) iff the type is "printed" and pages is a positive integer. A wrong type raises the type message; a falsy pages (missing, null, 0, "" or false) raises "Pages is required for printed books."; a negative integer raises "Pages must be a positive integer." |
| `Serializers.ValidateEbook` | core/library/serializers.py:27-32 | accepts iff the type is "ebook" and the file format is truthy; otherwise it raises the type or "File format is required" error |
| `Serializers.ValidateAudiobook` | core/library/serializers.py:37-44 | accepts iff the type is "audiobook" and duration is a positive integer. A wrong type raises the type message; a falsy duration raises "Duration is required for audiobooks."; a negative integer raises "Duration must be a positive integer." |
| `Serializers.TextPagesRaiseTypeError` | core/library/serializers.py:18-20 | a non-empty text value for pages gets past the presence check and fails the `<= 0` comparison with a TypeError |
| `Serializers.Validate` | core/library/serializers.py:91-105 | the base serializer accepts anything; a type-specific serializer accepts iff the data carries its own `book_type` and that type's rule holds; accepted data is returned unchanged |
| `Serializers.GetSerializer` | core/library/serializers.py:47-61 | exactly "printed", "ebook" and "audiobook" map to their own serializers; anything else, including no type, raises a validation error keyed by `book_type` |
| `Serializers.Create` | core/library/serializers.py:85-93 | creation succeeds iff the type is known and its own field passes that type's rule on the input; it saves the normalised data; an unknown or missing type is rejected with the `book_type` error |
| `Serializers.Update` | core/library/serializers.py:95-107 | without a truthy `book_type` no type rule applies; an unknown type is rejected; a known type must pass its rule; on success the instance is overwritten by the normalised data |
| `Permissions.IsAdminOrReadOnly` | library/permissions.py:9-15 | a safe method passes; any other method passes only for staff (the anonymous user is truthy and not staff) |
| `Permissions.IsUserOrReadOnly` | library/permissions.py:24-35 | staff pass; anyone else passes only a POST to the `borrow` or `return_book` action |
| `Permissions.AdminOrReadOnlyDecision` | library/permissions.py:9-15 | GET, HEAD and OPTIONS are allowed for everyone; any other method is allowed iff the user is staff |
| `Permissions.UserOrReadOnlyDecision` | library/permissions.py:24-35 | staff are always allowed; a regular user is allowed iff the request is a POST to the `borrow` or `return_book` action |
| `Permissions.UserOrReadOnlyRefusesReads` | library/permissions.py:30-35 | a regular user is refused every safe method by IsUserOrReadOnly |
| `Permissions.StaffMayDoWhatOthersMay` | library/permissions.py:9-35 | for both classes, every request allowed to a regular user is allowed to staff |
| `Decorator.CanBorrowAndReturn` | core/library/decorator.py:4-17 | the wrapped function is called, with the request unchanged, iff the user is staff or the request is a POST whose path contains "borrow" or "return_book"; otherwise PermissionDenied is raised and nothing is called |
| `Decorator.DecisionDependsOnlyOnStaffMethodAndPath` | core/library/decorator.py:7-13 | two requests that agree on staff status, method and which of the two words their paths contain get the same decision |
| `Decorator.PathWordIsEnough` | core/library/decorator.py:12-14 | any POST path containing the word passes, for example "/api/books/borrowed/" |
| `Views.ViewSetPermits` | core/library/views.py:18-43 | the two loan actions are checked by `IsUserOrReadOnly` alone; every other action by `IsAuthenticated` and `IsAdminOrReadOnly` together |
| `Views.CreatePermitOnlyForStaff` | core/library/views.py:18-28 | a create request passes the viewset permissions iff the requester is staff |
| `Views.LoanActionsSkipAuthentication` | core/library/views.py:37-47 | the anonymous user passes the permission check of POST `borrow` and `return_book`, but is refused the list |
| `Text.ContainsIgnoringCase` | core/library/views.py:34 | `icontains`: the field contains the query once both are lower-cased |
| `Views.FilterByQuery` | core/library/views.py:33-34 | a book is in the result iff it is in the table and its title or author contains the query, ignoring case; the result is no longer than the table |
| `Views.GetQueryset` | core/library/views.py:30-35 | an absent or empty `search` returns every book; otherwise a book is returned iff it matches; the result is always drawn from the table |
| `Views.EmptyQueryKeepsAll` | core/library/views.py:31-35 | filtering by the empty query would keep every book, so the empty-search shortcut changes nothing |
| `Views.SearchIgnoresQueryCase` | core/library/views.py:34 | searching for a query and for its lower-case form gives the same books |
| `Views.PerformCreate` | core/library/views.py:20-28 | a regular user gets PermissionDenied and nothing is saved; for staff a row is saved iff the serializer's type rule holds, and the saved row is the normalised data |
| `Views.BorrowAction` | core/library/views.py:37-41 | returns exactly what `BasicBookOperation.borrow` returns for the book and the requesting user, with the same effect on the book |
| `Views.ReturnBookAction` | core/library/views.py:43-47 | returns exactly what `BasicBookOperation.return_book` returns for the book and the requesting user, with the same effect on the book |
| `AuthContext.SessionUser` | app/src/contexts/auth-context.tsx:153 | `user || null`: the user cached under ["user"], or none when nothing or `null` is cached |
| `AuthContext.SessionLoading` | app/src/contexts/auth-context.tsx:158 | loading while the user query fetches with no data yet (a pending retry included), or while a login or register mutation is pending |
| `AuthContext.ObserveUserQuery` | app/src/contexts/auth-context.tsx:91-105 | on a render, the user query starts a first attempt exactly when it is enabled (`!!token`), idle, and its data is missing or invalidated; otherwise nothing changes |
| `AuthContext.Invalidate` | app/src/contexts/auth-context.tsx:113 | invalidation keeps every entry and its data and marks exactly the entries under the given key prefix |
| `AuthContext.FailureToasts` | app/src/contexts/auth-context.tsx:60-80 | a failed login shows the server's `detail`, or "Invalid credentials" when it has none; registration falls back to "Registration failed" |
| `AuthContext.InitRestoresPersistedToken` | app/src/contexts/auth-context.tsx:86-105 | the initial token is the persisted one; with a truthy token the user query is fetching from the first render and the context reports loading; without one there is no user and nothing is loading |
| `AuthContext.FetchNeedsToken` | app/src/contexts/auth-context.tsx:94-104 | whatever the event, an attempt of the user query (first try or retry) starts only when the token is present and non-empty |
| `AuthContext.FetchFailureClearsToken` | app/src/contexts/auth-context.tsx:97-101 | a failed attempt removes the token from storage and from memory; a first attempt then waits for its retry; with no user cached, none is exposed |
| `AuthContext.RetryWithoutTokenClearsUser` | app/src/contexts/auth-context.tsx:94 | a retry that runs without a token settles the query on `null`: no user, nothing fetching, and loading only if a mutation is pending |
| `AuthContext.LoginEffects` | app/src/contexts/auth-context.tsx:104-120 | login success stores the access token in memory and in storage and marks the user query invalidated; with a non-empty token and no fetch in flight the query then refetches; login failure leaves the token unchanged |
| `AuthContext.RegisterKeepsToken` | app/src/contexts/auth-context.tsx:123-132 | registration never changes the token, so there is no automatic login; success navigates to /login |
| `AuthContext.LogoutFromAnyState` | app/src/contexts/auth-context.tsx:142-148 | from any state, logout leaves no token in memory or storage, an empty cache, no user, and navigation to /login |
| `AuthContext.StepKeepsValid` | app/src/contexts/auth-context.tsx:86-148 | every transition keeps the in-memory token equal to the persisted one, and keeps identity fetches in flight only with a token |
| `AuthContext.RunKeepsValid` | app/src/contexts/auth-context.tsx:85-164 | after any sequence of transitions from a valid state, the in-memory token equals the persisted one |
| `AuthContext.TokenAlwaysPersisted` | app/src/contexts/auth-context.tsx:86-148 | from startup, after any events, the in-memory token equals the persisted one |
| `AuthContext.NoStrandedUserPreserved` | app/src/contexts/auth-context.tsx:91-105 | "a user without a token only while a retry is pending" is kept by every transition except a failing retry attempt while a user is cached |
| `AuthContext.FailedRefetchExposesUserUntilRetry` | app/src/contexts/auth-context.tsx:94-101 | after a successful fetch and a failed refetch, the token is gone but the user is still exposed and nothing is loading; once the retry runs without a token, the user is gone |
| `AuthContext.AuthProvider.ObserveQuery` | app/src/contexts/auth-context.tsx:91-105 | performs in place the render-time fetch start that `ObserveUserQuery` describes |
| `AuthContext.AuthProvider.constructor` | app/src/contexts/auth-context.tsx:86-105 | the provider starts from the persisted token with an empty cache (the state is `Init`); it exposes no user, and it reports loading exactly when that token is truthy |
| `AuthContext.AuthProvider.StartUserQuery` | app/src/contexts/auth-context.tsx:91-105 | starts the user query exactly as `StartUserFetch` does, and reports whether it did |
| `AuthContext.AuthProvider.OnUserQuerySuccess` | app/src/contexts/auth-context.tsx:96 | caches the fetched user under ["user"] and ends the fetch |
| `AuthContext.AuthProvider.OnUserQueryError` | app/src/contexts/auth-context.tsx:97-101 | removes the stored token and sets the token to null; a first attempt then waits for its retry, and a failed retry ends the fetch |
| `AuthContext.AuthProvider.OnRetryDue` | app/src/contexts/auth-context.tsx:93-96 | runs the scheduled retry: with no token it caches `null` and ends the fetch, otherwise it starts a second attempt |
| `AuthContext.AuthProvider.Login` | app/src/contexts/auth-context.tsx:134-136 | marks the login mutation pending |
| `AuthContext.AuthProvider.OnLoginSuccess` | app/src/contexts/auth-context.tsx:104-116 | stores the access token in storage and memory, invalidates ["user"], goes to /dashboard, says "Welcome back!", and lets the now-enabled user query start fetching |
| `AuthContext.AuthProvider.OnLoginError` | app/src/contexts/auth-context.tsx:117-119 | ends the mutation with the token untouched and shows the error message |
| `AuthContext.AuthProvider.Register` | app/src/contexts/auth-context.tsx:138-140 | marks the register mutation pending |
| `AuthContext.AuthProvider.OnRegisterSuccess` | app/src/contexts/auth-context.tsx:125-128 | ends the mutation, goes to /login and says the user can now log in |
| `AuthContext.AuthProvider.OnRegisterError` | app/src/contexts/auth-context.tsx:129-131 | ends the mutation and shows the error message |
| `AuthContext.AuthProvider.Logout` | app/src/contexts/auth-context.tsx:142-148 | removes the stored token, sets the token to null, clears the whole cache, goes to /login; afterwards no user is exposed, and loading is reported only while a login or register is pending |
| `ProtectedRoute.Guard` | app/src/components/protected-route.tsx:9-25 | while loading it shows the spinner, whatever the user; when not loading, with no user it redirects to /login with replace, and with a user it renders the children |
| `ProtectedRoute.AnonymousStartRedirects` | app/src/components/protected-route.tsx:20-22 | starting without a stored token, the guard redirects to /login |
| `ProtectedRoute.ResolvingThenAuthenticated` | app/src/components/protected-route.tsx:12-24 | with a stored token the guard shows the spinner from the first render, then the children once the user arrives; if the fetch fails, the spinner stays while the retry waits, and the guard redirects to /login once the retry has run without a token |
| `ProtectedRoute.LoginShowsSpinnerUntilUserArrives` | app/src/components/protected-route.tsx:12-18 | after a login with nothing cached under ["user"] and no fetch in flight, the app is at /dashboard and the guard shows the spinner, not the redirect |
| `ProtectedRoute.LoginAfterExpiredTokenRedirects` | app/src/components/protected-route.tsx:12-22 | after an expired stored token has left `null` cached, a login goes to /dashboard and starts the user fetch, yet the guard redirects to /login because nothing is loading and there is no user |
| `ProtectedRoute.LogoutRedirects` | app/src/components/protected-route.tsx:20-22 | right after logout, with no login or register pending, the guard redirects to /login |
| `ProtectedRoute.ChildrenOnlyWithUser` | app/src/components/protected-route.tsx:20-24 | protected content is rendered only when a user is present and nothing is loading |

## Left out

- Field-level validation by Django REST framework is not modelled. `is_valid` runs it before `validate`: required `IntegerField`/`CharField`, `choices`, `max_length` and ISBN uniqueness. The model checks only the custom `validate` rules. So an input rejected there is, in the model, rejected by `validate` when the type's own field is missing, and may carry a different message.
- Persistence is not modelled. This covers `save()`, `get_object()` with its 404, and how querysets are evaluated. `FilterByQuery` keeps table order, while the database promises no order. `PerformCreate` reports the row it would save instead of writing it. `Update` reports the overwritten row as `instance + data`.
- Views.FilterByQuery: `icontains` is modelled with ASCII lower-casing, not the database's own case folding.
- The loan operations take an account id. A borrow by the anonymous user, which passes the permission check, fails when Django assigns it to `borrowed_by`; that failure is not modelled.
- `IBookOperation` is an abstract base class with no behaviour.
- Models.Book: `published_date` is an uninterpreted string; date parsing is not modelled.
- The client's transport is not modelled. This covers `fetch`, JSON parsing and the API base URL. Responses enter as parameters: a user, an access token or an error `detail`.
- `localStorage` is the `stored` field, `navigate` is the `location` field, and toasts are returned strings.
- TanStack Query is reduced to a few things:
  - the user query's fetch phase (first attempt, scheduled retry, retry attempt), reflecting `retry: 1` (`app/src/index.tsx:16`);
  - a fetch that starts on the render where the query is enabled and has missing or invalidated data;
  - cached data that survives a failed fetch;
  - prefix invalidation.

  The retry delay is not modelled: the retry is an event that may come at any later point. Cancelling a fetch that is already in flight (`cancelRefetch`) is not modelled either. Refetches on reconnect or remount are one event (`StartUserFetch`) that may also come at any point.
- The query function reads the token of the latest render; the model assumes this when the retry runs.
- AuthContext.NoStrandedUserPreserved: not proved for a retry attempt that fails while a user is cached. That is reachable only when a login lands inside the retry window. The model then keeps the user without a token, and what the library actually does on that path depends on the cancellation it leaves out.
- The UI screens and forms are not part of this model, and neither are `app/src/services/api.ts`, `auth/views.py`, `library/middleware.py` and `core/library/urls.py`.
- The client's string-typed `duration` is not modelled; the backend's integer is used.
