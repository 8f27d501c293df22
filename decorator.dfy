/** `can_borrow_and_return`: a decorator that lets staff through to the wrapped view
    method, lets a regular user through only for a POST whose path mentions `borrow` or
    `return_book`, and otherwise raises PermissionDenied without calling it. */
module Decorator {
  import opened Common
  import opened Text
  import opened Permissions

  /** The parts of a request the decorator and the wrapped method see (`*args` and
      `**kwargs` travel inside it unchanged). */
  datatype Request = Request(user: Requester, httpMethod: string, path: string, args: seq<string>)

  const DeniedDetail := "User must be admin to perform this action."

  /** Reference for the decision, with substring occurrence stated by position. */
  ghost predicate MayProceed(req: Request)
  {
    || IsStaff(req.user)
    || (req.httpMethod == "POST" && (IsSubstring("borrow", req.path) || IsSubstring("return_book", req.path)))
  }

  /** `wrapper(self, request, *args, **kwargs)` around `func`: the result of the call, or
      the PermissionDenied it raises instead of calling `func`. */
  function CanBorrowAndReturn<T>(func: Request -> T, req: Request): (r: Result<T>)
    ensures r.Ok? <==> MayProceed(req)
    ensures r.Ok? ==> r.value == func(req)
    ensures r.Err? ==> r.error == PermissionDenied(DeniedDetail)
    ensures IsStaff(req.user) ==> r.Ok?
    ensures req.httpMethod != "POST" && !IsStaff(req.user) ==> r.Err?
  {
    ContainsIsSubstring(req.path, "borrow");
    ContainsIsSubstring(req.path, "return_book");
    if IsStaff(req.user) then Ok(func(req))
    else if req.httpMethod == "POST" && (Contains(req.path, "borrow") || Contains(req.path, "return_book")) then
      Ok(func(req))
    else Err(PermissionDenied(DeniedDetail))
  }

  /** The decision depends only on staff status, the method and which of the two words
      occur in the path. */
  lemma DecisionDependsOnlyOnStaffMethodAndPath<T>(f: Request -> T, g: Request -> T, a: Request, b: Request)
    requires IsStaff(a.user) == IsStaff(b.user) && a.httpMethod == b.httpMethod
    requires IsSubstring("borrow", a.path) == IsSubstring("borrow", b.path)
    requires IsSubstring("return_book", a.path) == IsSubstring("return_book", b.path)
    ensures CanBorrowAndReturn(f, a).Ok? == CanBorrowAndReturn(g, b).Ok?
  {
  }

  /** The test is on the path text, not on the route: a regular user's POST to any path
      that mentions the word passes, such as "/api/books/borrowed/". */
  lemma PathWordIsEnough<T>(f: Request -> T, user: Requester, args: seq<string>)
    ensures CanBorrowAndReturn(f, Request(user, "POST", "/api/books/borrowed/", args)).Ok?
  {
    assert OccursAt("borrow", "/api/books/borrowed/", 11);
  }
}
