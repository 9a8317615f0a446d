/** The access policies of api/v1/permissions.py. Each decides, from the request's HTTP
    verb and its user (and, at object level, the author of the targeted row), whether the
    request may go on. They are pure and total. */
module Permissions {
  import opened Models

  type HttpMethod = string

  /** The framework's SAFE_METHODS. */
  const SafeMethods: set<HttpMethod> := {"GET", "HEAD", "OPTIONS"}

  predicate IsSafe(verb: HttpMethod) {
    verb in SafeMethods
  }

  /** The request's user. `account` is the primary key of a signed-in user; an anonymous
      caller has none. The flags and the role are independent inputs: `isAdmin` and
      `isModerator` are computed by the user model, which this model leaves uninterpreted. */
  datatype Principal = Principal(account: Option<UserId>, isStaff: bool, isSuperuser: bool,
                                 isAdmin: bool, isModerator: bool, role: string)
  {
    /** `is_authenticated`: a stored user always is, the anonymous user never is. */
    predicate IsAuthenticated() {
      account.Some?
    }

    /** `obj.author == request.user`: stored rows compare by primary key, and the anonymous
        user equals no stored user. */
    predicate IsUser(id: UserId) {
      account == Some(id)
    }
  }

  /** The permission classes the views use. */
  datatype Policy =
    | AdminmOrReadOnly                    // IsAdminmOrReadOnly
    | AdminOrReadOnly                     // IsAdminOrReadOnly
    | AuthorOrModeratorOrAdminOrReadOnly  // IsAuthorOrModeRatOrOrAdminOrReadOnly
    | SuperUserOrAdminOnly                // IsSuperUserOrIsAdminOnly
    | AdminOnly                           // IsAdmin
    | AuthenticatedOnly                   // the framework's IsAuthenticated (users/me)

  /** The action-level check, `has_permission`. Python's `A or B and C` is `A or (B and C)`. */
  predicate HasPermission(policy: Policy, verb: HttpMethod, user: Principal): (ok: bool)
    ensures ok ==> IsSafe(verb) || user.IsAuthenticated()
    ensures HasReadOnlyCarveOut(policy) && IsSafe(verb) ==> ok
  {
    match policy
    case AdminmOrReadOnly =>
      IsSafe(verb) || (user.IsAuthenticated() && (user.isStaff || user.role == "admin"))
    case AdminOrReadOnly =>
      IsSafe(verb) || (user.IsAuthenticated() && user.isAdmin)
    case AuthorOrModeratorOrAdminOrReadOnly =>
      // inherited from the framework's IsAuthenticatedOrReadOnly
      IsSafe(verb) || user.IsAuthenticated()
    case SuperUserOrAdminOnly =>
      user.IsAuthenticated() && (user.isSuperuser || user.isStaff || user.isAdmin)
    case AdminOnly =>
      user.IsAuthenticated() && user.isAdmin
    case AuthenticatedOnly =>
      user.IsAuthenticated()
  }

  /** The object-level check, `has_object_permission`; the framework's default allows. */
  predicate HasObjectPermission(policy: Policy, verb: HttpMethod, user: Principal, author: UserId): (ok: bool)
    ensures user.IsUser(author) ==> ok
    ensures !policy.AuthorOrModeratorOrAdminOrReadOnly? ==> ok
    ensures ok && !IsSafe(verb) && !user.isModerator && !user.isAdmin ==> user.IsUser(author) || !policy.AuthorOrModeratorOrAdminOrReadOnly?
  {
    match policy
    case AuthorOrModeratorOrAdminOrReadOnly =>
      IsSafe(verb) || user.IsUser(author) || user.isModerator || user.isAdmin
    case _ => true
  }

  /** The two-phase decision: the action-level check first, then, when the request
      targets one stored row, the object-level check against that row's author. */
  predicate Permits(policy: Policy, verb: HttpMethod, user: Principal, target: Option<UserId>): (ok: bool)
    ensures ok ==> HasPermission(policy, verb, user)
    ensures target.None? ==> (ok <==> HasPermission(policy, verb, user))
  {
    HasPermission(policy, verb, user)
    && (target.Some? ==> HasObjectPermission(policy, verb, user, target.value))
  }

  predicate HasReadOnlyCarveOut(policy: Policy) {
    policy.AdminmOrReadOnly? || policy.AdminOrReadOnly? || policy.AuthorOrModeratorOrAdminOrReadOnly?
  }

  /** Every request `a` lets through, `b` lets through as well. */
  ghost predicate AtLeastAsStrict(a: Policy, b: Policy) {
    forall verb, user :: HasPermission(a, verb, user) ==> HasPermission(b, verb, user)
  }

  /** The read-only policies let every caller, signed in or not, read anything. */
  lemma SafeMethodsAlwaysPermitted(policy: Policy, verb: HttpMethod, user: Principal, target: Option<UserId>)
    requires HasReadOnlyCarveOut(policy) && IsSafe(verb)
    ensures Permits(policy, verb, user, target)
  {
  }

  /** No policy lets an anonymous caller write, whatever its flags and role say. */
  lemma UnauthenticatedNeverWrites(policy: Policy, verb: HttpMethod, user: Principal, target: Option<UserId>)
    requires !user.IsAuthenticated() && !IsSafe(verb)
    ensures !Permits(policy, verb, user, target)
  {
  }

  /** IsAdminmOrReadOnly: a write needs a signed-in user who is staff or has role "admin";
      the role alone, without a session, is not enough. */
  lemma AdminmOrReadOnlyWrites(verb: HttpMethod, user: Principal)
    requires !IsSafe(verb)
    ensures HasPermission(AdminmOrReadOnly, verb, user)
            <==> user.IsAuthenticated() && (user.isStaff || user.role == "admin")
    ensures user.role == "admin" && !user.IsAuthenticated() ==> !HasPermission(AdminmOrReadOnly, verb, user)
  {
  }

  /** IsAdminOrReadOnly: a write needs a signed-in user whose `is_admin` holds. */
  lemma AdminOrReadOnlyWrites(verb: HttpMethod, user: Principal)
    requires !IsSafe(verb)
    ensures HasPermission(AdminOrReadOnly, verb, user) <==> user.IsAuthenticated() && user.isAdmin
  {
  }

  /** The author of a row may do anything to it, whatever their role. */
  lemma AuthorMayAlwaysEdit(verb: HttpMethod, user: Principal, author: UserId)
    requires user.IsUser(author)
    ensures Permits(AuthorOrModeratorOrAdminOrReadOnly, verb, user, Some(author))
  {
  }

  /** Anyone else needs to be moderator or admin to change a row. */
  lemma NonAuthorNeedsModeratorOrAdmin(verb: HttpMethod, user: Principal, author: UserId)
    requires !IsSafe(verb) && !user.IsUser(author)
    ensures Permits(AuthorOrModeratorOrAdminOrReadOnly, verb, user, Some(author))
            <==> user.IsAuthenticated() && (user.isModerator || user.isAdmin)
  {
  }

  /** IsSuperUserOrIsAdminOnly and IsAdmin have no read-only carve-out and do not look at
      the verb at all. */
  lemma StrictPoliciesIgnoreMethod(verb: HttpMethod, otherVerb: HttpMethod, user: Principal)
    ensures HasPermission(SuperUserOrAdminOnly, verb, user)
            <==> user.IsAuthenticated() && (user.isSuperuser || user.isStaff || user.isAdmin)
    ensures HasPermission(AdminOnly, verb, user) <==> user.IsAuthenticated() && user.isAdmin
    ensures HasPermission(SuperUserOrAdminOnly, verb, user) == HasPermission(SuperUserOrAdminOnly, otherVerb, user)
    ensures HasPermission(AdminOnly, verb, user) == HasPermission(AdminOnly, otherVerb, user)
    ensures !user.isAdmin ==> !HasPermission(AdminOnly, "GET", user)
  {
  }

  /** The strength order among the policies: IsAdmin is the strictest of the admin
      policies, and each admin policy is at least as strict as the plain session gate. */
  lemma PolicyStrengthOrder()
    ensures AtLeastAsStrict(AdminOnly, AdminOrReadOnly)
    ensures AtLeastAsStrict(AdminOnly, SuperUserOrAdminOnly)
    ensures AtLeastAsStrict(SuperUserOrAdminOnly, AuthenticatedOnly)
    ensures AtLeastAsStrict(AdminOrReadOnly, AuthorOrModeratorOrAdminOrReadOnly)
    ensures AtLeastAsStrict(AdminmOrReadOnly, AuthorOrModeratorOrAdminOrReadOnly)
    ensures AtLeastAsStrict(AuthenticatedOnly, AuthorOrModeratorOrAdminOrReadOnly)
  {
  }

  /** The order is strict where it should be: a safe request by an anonymous caller
      separates the read-only policies from the strict ones. */
  lemma StrictPoliciesAreStricter()
    ensures !AtLeastAsStrict(AdminOrReadOnly, AdminOnly)
    ensures !AtLeastAsStrict(AdminOrReadOnly, SuperUserOrAdminOnly)
  {
    var anonymous := Principal(None, false, false, false, false, "user");
    assert HasPermission(AdminOrReadOnly, "GET", anonymous);
    assert !HasPermission(AdminOnly, "GET", anonymous);
    assert !HasPermission(SuperUserOrAdminOnly, "GET", anonymous);
  }

  /** Where `is_admin` means "staff or role admin", IsAdminmOrReadOnly and IsAdminOrReadOnly
      decide alike. */
  lemma AdminPoliciesAgreeOnDerivedAdmin(verb: HttpMethod, user: Principal)
    requires user.isAdmin == (user.isStaff || user.role == "admin")
    ensures HasPermission(AdminmOrReadOnly, verb, user) == HasPermission(AdminOrReadOnly, verb, user)
  {
  }
}
