/** The two permission classes of the book API. Each is a pure decision on the request
    method, whether the requester is staff, and (for the second) the view action. */
module Permissions {
  import opened Common
  import opened Models

  /** `request.user`: the anonymous user or an authenticated account. */
  datatype Requester = Anonymous | Member(id: UserId, isStaff: bool)

  /** `request.user.is_staff`; the anonymous user is never staff. */
  predicate IsStaff(user: Requester)
  {
    user.Member? && user.isStaff
  }

  /** `IsAuthenticated`. */
  predicate IsAuthenticated(user: Requester)
  {
    user.Member?
  }

  /** Django REST framework's SAFE_METHODS (the safe methods of section 9.2.1 of RFC 9110
      that it treats as read-only). */
  const SafeMethods: seq<string> := ["GET", "HEAD", "OPTIONS"]

  /** The two extra actions a regular user may call. */
  const LoanActions: seq<string> := ["borrow", "return_book"]

  /** `IsAdminOrReadOnly.has_permission`. */
  predicate IsAdminOrReadOnly(httpMethod: string, user: Requester)
  {
    if httpMethod in SafeMethods then true
    else IsStaff(user)
  }

  /** `IsUserOrReadOnly.has_permission`; `action` is `view.action`, absent when the router
      maps no action to the method. */
  predicate IsUserOrReadOnly(httpMethod: string, user: Requester, action: Option<string>)
  {
    if IsStaff(user) then true
    else if httpMethod == "POST" && action.Some? && action.value in LoanActions then true
    else false
  }

  /** Every safe method is open to every user; any other method needs staff. */
  lemma AdminOrReadOnlyDecision(httpMethod: string, user: Requester)
    ensures httpMethod in SafeMethods ==> IsAdminOrReadOnly(httpMethod, user)
    ensures httpMethod !in SafeMethods ==> (IsAdminOrReadOnly(httpMethod, user) <==> IsStaff(user))
  {
  }

  /** Staff may do anything; a regular user only POST to `borrow` or `return_book`. */
  lemma UserOrReadOnlyDecision(httpMethod: string, user: Requester, action: Option<string>)
    ensures IsStaff(user) ==> IsUserOrReadOnly(httpMethod, user, action)
    ensures !IsStaff(user) ==>
              (IsUserOrReadOnly(httpMethod, user, action) <==>
                 httpMethod == "POST" && (action == Some("borrow") || action == Some("return_book")))
  {
  }

  /** Despite its name, IsUserOrReadOnly refuses reads to regular users. */
  lemma UserOrReadOnlyRefusesReads(user: Requester, action: Option<string>)
    requires !IsStaff(user)
    ensures forall m :: m in SafeMethods ==> !IsUserOrReadOnly(m, user, action)
  {
  }

  /** For both classes, whatever a regular user may do, a staff user may do too. */
  lemma StaffMayDoWhatOthersMay(httpMethod: string, action: Option<string>, regular: Requester, staff: Requester)
    requires IsStaff(staff)
    ensures IsAdminOrReadOnly(httpMethod, regular) ==> IsAdminOrReadOnly(httpMethod, staff)
    ensures IsUserOrReadOnly(httpMethod, regular, action) ==> IsUserOrReadOnly(httpMethod, staff, action)
  {
  }
}
