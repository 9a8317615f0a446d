# yamdb authorization and validation, in Dafny

This project models the decision logic of the yamdb review service's REST API (version 1). It covers three areas:

- **Access policies.** These decide whether a request may go on. The action-level check looks at the HTTP verb and the caller. The object-level check also looks at the author of the targeted row.
- **Input validation.** This covers the field rules of the serializers, the username rule with its substring test against "me", the one-review-per-title-and-author rule, the score bounds, and the read-only fields a client cannot set.
- **Request handlers.** These cover review and comment creation, review update, the per-title and per-review listings, category and genre deletion, the user endpoints (`me`, and the PUT→405 refusal), signup and token exchange.

Layout, one module per file:

- `models.dfy` (`Models`): the table rows, `Option`/`Result`, and the table-wide constraints the store keeps. These are unique names and addresses, and one review per (title, author). It also holds the lemmas that inserts and updates keep those constraints.
- `permissions.dfy` (`Permissions`): the permission classes, as pure predicates over a `Principal`. It holds the lemmas about them: read-only carve-outs, no writes for anonymous callers, the author's rights, and the strength order.
- `serializers.dfy` (`Serializers`): the field rules and validation hooks, as pure functions. The user and review tables they query are passed in.
- `views.dfy` (`Views`): each handler's outcome, as a pure function of the request and the tables. The `Store` class holds the tables, and its methods apply those outcomes to the tables it `modifies`. Its invariant `Valid()` keeps:
  - keys below their counters;
  - unique names and addresses;
  - one review per title and author;
  - every review attached to a stored title, and every comment to a stored review.

Inputs the model treats as parameters:
- The project settings (name and address limits, score bounds) are a `Settings` value.
- The `users.validators.username_me` validator, the e-mail syntax check and the confirmation-code check are functions in `Collaborators`.
- A sent confirmation mail is returned as a `Mail` value.
- `is_admin` and `is_moderator` are independent flags of the `Principal`. The user model that computes them is not part of this model.

Behaviour of the code worth knowing, modelled as the code does it:
- **Missing category or genre slug.** Deletion looks the slug up with a plain `get`, with no 404 handling. So a missing slug is an unhandled error (modelled as status 500), not a not-found response.
- **Conflicting signup.** A signup that breaks a unique column is answered with 400, not with a distinct conflict status.
- **PUT on the user endpoints.** The PUT→405 override is on `users/<username>`, and there the admin check runs before it. On `users/me`, PUT is refused with 405 only because the action routes just GET and PATCH (HEAD follows GET, and OPTIONS is answered by the framework). That happens after the session check, which covers every method of the route.
- **Trimmed, then checked.** Every character field trims its input before any rule runs, so a padded name such as " me " is checked as "me" (and so refused by UserSerializer).
- **Refused permission checks.** An anonymous caller gets 401 and any other caller 403. This assumes an authenticator that advertises an authentication header, as the JWT authenticator does.

## Model

| member | source | states |
|---|---|---|
| Permissions.SafeMethodsAlwaysPermitted | api_yamdb/api/v1/permissions.py:4-38 | under the three read-only policies, GET, HEAD and OPTIONS are permitted for every caller, signed in or not, at both check levels |
| Permissions.UnauthenticatedNeverWrites | api_yamdb/api/v1/permissions.py:4-63 | no policy lets an anonymous caller use an unsafe method, whatever flags or role it carries |
| Permissions.AdminmOrReadOnlyWrites | api_yamdb/api/v1/permissions.py:5-8 | an unsafe method passes IsAdminmOrReadOnly iff the caller is signed in and is staff or has role "admin"; role "admin" without a session is denied |
| Permissions.AdminOrReadOnlyWrites | api_yamdb/api/v1/permissions.py:15-20 | an unsafe method passes IsAdminOrReadOnly iff the caller is signed in and `is_admin` holds |
| Permissions.AuthorMayAlwaysEdit | api_yamdb/api/v1/permissions.py:23-38 | the author of a row passes both checks of the author policy for every method, whatever their role |
| Permissions.NonAuthorNeedsModeratorOrAdmin | api_yamdb/api/v1/permissions.py:32-38 | for an unsafe method, a caller who is not the author passes iff signed in and moderator or admin |
| Permissions.StrictPoliciesIgnoreMethod | api_yamdb/api/v1/permissions.py:48-63 | IsSuperUserOrIsAdminOnly passes iff signed in and superuser, staff or admin; IsAdmin iff signed in and admin; neither depends on the verb, so GET by a non-admin is denied |
| Permissions.PolicyStrengthOrder | api_yamdb/api/v1/permissions.py:15-63 | whatever IsAdmin permits, IsAdminOrReadOnly and IsSuperUserOrIsAdminOnly permit too; each policy permits no more than the plain session-or-read gate |
| Permissions.StrictPoliciesAreStricter | api_yamdb/api/v1/permissions.py:15-54 | the order is strict: an anonymous GET passes IsAdminOrReadOnly but neither strict policy |
| Permissions.AdminPoliciesAgreeOnDerivedAdmin | api_yamdb/api/v1/permissions.py:5-20 | when `is_admin` means "staff or role admin", IsAdminmOrReadOnly and IsAdminOrReadOnly decide alike |
| Permissions.HasPermission | api_yamdb/api/v1/permissions.py:5-63 | an action-level check passes only for a safe method or a signed-in caller; the three read-only policies pass every safe method |
| Permissions.HasObjectPermission | api_yamdb/api/v1/permissions.py:32-38 | the author of a row always passes the object-level check; policies without their own object check always pass; for an unsafe method, a caller who is neither moderator nor admin passes the author policy only as the author |
| Permissions.Permits | api_yamdb/api/v1/permissions.py:4-63 | the two-phase decision never passes a request the action-level check refuses, and with no target row it is exactly that check |
| Serializers.Contains | api_yamdb/api/v1/serializers.py:88 | a prefix is always contained, and a contained needle is no longer than the haystack |
| Serializers.ContainsHasSlice | api_yamdb/api/v1/serializers.py:88 | a contained needle starts at some index of the haystack |
| Serializers.SliceGivesContains | api_yamdb/api/v1/serializers.py:88 | a needle found at any index of the haystack is contained in it |
| Serializers.ContainsIsSubstring | api_yamdb/api/v1/serializers.py:88 | Python's string `in` holds exactly when the needle occurs as a contiguous slice of the haystack |
| Serializers.SubstringsOfMe | api_yamdb/api/v1/serializers.py:88-90 | the names that occur in "me" are exactly "", "m", "e" and "me" |
| Serializers.ValidateUsername | api_yamdb/api/v1/serializers.py:84-91 | a name is accepted iff no stored user has it and it is none of "", "m", "e", "me"; an existing name gets the taken error first; an accepted name comes back unchanged |
| Serializers.Strip | api_yamdb/api/v1/serializers.py:69-70 | trimming never lengthens a string |
| Serializers.StripIsSlice | api_yamdb/api/v1/serializers.py:69-70 | the trimming character fields apply leaves a slice of the input, starting right after its leading whitespace |
| Serializers.StripCutsOnlySpace | api_yamdb/api/v1/serializers.py:69-70 | trimming cuts only whitespace after the kept slice, and the kept slice has no whitespace at either end |
| Serializers.StripEmptyIffAllSpace | api_yamdb/api/v1/serializers.py:69-70 | trimming leaves nothing exactly when the input is all whitespace, which is how a blank field is recognised |
| Serializers.MatchesUsernamePattern | api_yamdb/api/v1/serializers.py:58-59 | `^[\w.@+-]+\Z` matches iff the string is nonempty and every character is in the class |
| Serializers.CleanCharField | api_yamdb/api/v1/serializers.py:58-70 | a character field is skipped only when absent from a partial update; it is accepted iff present and, after trimming, either blank where blanks are allowed (giving the empty string) or nonblank, within its length limit, free of U+0000 and matching its pattern; a blank value where blanks are not allowed is refused as blank; the value is the trimmed input; a refusal carries at least one reason |
| Serializers.SignUpUsername | api_yamdb/api/v1/serializers.py:58-65 | a signup name is accepted iff, trimmed, it is nonempty, at most the username limit long, made only of word characters and `. @ + -`, and accepted by `username_me` |
| Serializers.ValidateSignUp | api_yamdb/api/v1/serializers.py:57-65 | signup data is valid iff both the name and the address fields are; the validated values are the trimmed inputs |
| Serializers.ValidateTokenRequest | api_yamdb/api/v1/serializers.py:68-73 | a token request is valid iff both fields are present, nonblank after trimming and free of U+0000, and the trimmed name passes `username_me`; the validated values are the trimmed inputs |
| Serializers.WithHook | api_yamdb/api/v1/serializers.py:64-65 | a `validate_<field>` hook accepts exactly the values its field accepted and the hook approves, keeps them unchanged, leaves an absent field absent and passes a refusal through |
| Serializers.CleanScore | api_yamdb/api/v1/serializers.py:104-109 | a score is skipped only when absent from a partial update, accepted iff present and within both bounds, kept unchanged, and refused with at least one reason otherwise |
| Serializers.ScoreBounds | api_yamdb/api/v1/serializers.py:104-109 | a supplied score is accepted iff it lies within the configured minimum and maximum; each bound reports its own error |
| Serializers.ScoreBoundsOneToTen | api_yamdb/api/v1/serializers.py:104-109 | with the bounds the error messages name, the accepted scores are exactly 1 to 10 |
| Serializers.PatchUser | api_yamdb/api/v1/serializers.py:76-95 | a partial user update is accepted iff every sent field passes its user column's rules (trimmed first, blank, length, U+0000, validators), the trimmed name passes `validate_username`, the trimmed address belongs to no other user, and a writable `role` is one of the choices; the new row has each sent field trimmed and every other field unchanged, and `role` changes only when writable; a refusal reports at least one issue |
| Serializers.CleanColumn | api_yamdb/api/v1/serializers.py:76-82 | a user column's field in a partial update is skipped iff not sent and accepted iff the sent value passes the column's rules; the value is the trimmed input |
| Serializers.NameField | api_yamdb/api/v1/serializers.py:84-91 | the `username` field is accepted iff the sent name passes its column's rules and, trimmed, `validate_username` |
| Serializers.AddressField | api_yamdb/api/v1/serializers.py:76-82 | the `email` field is accepted iff the sent address passes its column's rules and, trimmed, belongs to no other user |
| Serializers.RoleField | api_yamdb/api/v1/serializers.py:94-95 | the `role` field is ignored where read-only, and otherwise accepted iff the sent value is one of the choices |
| Serializers.PaddedReservedNameRefused | api_yamdb/api/v1/serializers.py:88-90 | a sent name that trims to one of "", "m", "e", "me" (such as " me " or spaces only) is refused |
| Serializers.SelfEditIgnoresRole | api_yamdb/api/v1/serializers.py:94-95 | through UserEditSerializer, the `role` a client sends has no effect, and an accepted update keeps the stored role |
| Serializers.ResendingOwnUsernameRefused | api_yamdb/api/v1/serializers.py:84-87 | sending one's own current name back, padded or not, is refused, because the taken check does not exempt the edited user |
| Serializers.PatchKeepsUniqueness | api_yamdb/api/v1/serializers.py:84-91 | an accepted user update keeps names and addresses unique |
| Serializers.ReviewFields | api_yamdb/api/v1/serializers.py:98-109 | review fields are accepted iff text and score are both present outside partial updates, a sent text is nonblank after trimming and free of U+0000, and a sent score lies within the bounds; the accepted data is the trimmed text and the score, each where sent |
| Serializers.ReviewAuthorIsReadOnly | api_yamdb/api/v1/serializers.py:100-103 | the `author` a client sends has no effect on validated review data |
| Serializers.ValidateReview | api_yamdb/api/v1/serializers.py:111-119 | `validate` accepts iff the method is not POST, or the title exists and the caller has no review of it; accepted data is unchanged |
| Serializers.ValidateReviewOnlyChecksPost | api_yamdb/api/v1/serializers.py:111-119 | for any method other than POST, `validate` never refuses and returns the data unchanged |
| Serializers.ValidateReviewOnPost | api_yamdb/api/v1/serializers.py:112-118 | on POST, a missing title is reported before any duplicate; with the title present, the one-review error arises iff the caller already reviewed that title; accepted data is unchanged |
| Serializers.CommentFields | api_yamdb/api/v1/serializers.py:126-136 | a comment is accepted iff its text is present, nonblank after trimming and free of U+0000; the value is the trimmed text |
| Serializers.CommentReviewIsReadOnly | api_yamdb/api/v1/serializers.py:128-136 | the `review` and `author` a client sends have no effect on validated comment data |
| Models.AddReviewKeepsOneReviewPerTitleAndAuthor | api_yamdb/api/v1/serializers.py:116-118 | storing a review under a fresh key for a (title, author) pair with no review keeps at most one review per pair |
| Models.ReplaceReviewKeepsOneReviewPerTitleAndAuthor | api_yamdb/api/v1/serializers.py:111-119 | rewriting a review without changing its title or author keeps at most one review per pair |
| Models.AddUserKeepsUniqueness | api_yamdb/api/v1/views.py:84-90 | storing a user whose name and address are both new keeps names and addresses unique |
| Views.Denial | api_yamdb/api/v1/permissions.py:4-63 | a refused permission check answers 401 exactly for an anonymous caller and 403 exactly for a signed-in one |
| Views.ReviewCreation | api_yamdb/api/v1/views.py:157-158 | a review POST succeeds iff the caller is signed in, the fields are valid, the title exists and the caller has no review of it; the stored row has the caller as author, the route's title, the trimmed text and an in-bounds score; each refusal has its status (401, 400, 404, 400) |
| Views.ReviewCreationIgnoresPayloadAuthor | api_yamdb/api/v1/views.py:157-158 | the `author` in the payload has no effect on review creation |
| Views.ReviewUpdate | api_yamdb/api/v1/views.py:147-155 | a review PUT or PATCH succeeds iff the review exists under the route's title, both permission checks pass (author, moderator or admin) and the fields are valid; title and author never change; text and score change only where sent; refusals come in the framework's order: 401 without a session, 404 for a missing title or a review not under it, 403 when the object check fails, 400 for invalid fields |
| Views.Edited | api_yamdb/api/v1/views.py:147-149 | saving validated review data keeps the title and author and replaces the text and score only where they were sent |
| Views.SecondReviewRefusedButEditAllowed | api_yamdb/api/v1/serializers.py:111-119 | after a caller's review of a title is stored, a second POST by that caller for that title is refused, while a valid PATCH of the stored review by the caller succeeds and keeps them as author |
| Views.CommentCreation | api_yamdb/api/v1/views.py:165-172 | a comment POST succeeds iff the caller is signed in, the text is valid and the route's review exists; the stored row is attached to that review with the caller as author; each refusal has its status (401, 400, 404) |
| Views.CommentCreationIgnoresRouteTitle | api_yamdb/api/v1/views.py:165-166 | the title id in a comment route plays no part in comment creation |
| Views.SlugDeletion | api_yamdb/api/v1/views.py:33-56 | a deletion answers 204 iff IsAdminmOrReadOnly permits, the verb is DELETE and the slug exists, and then only that slug's entry goes; every other answer leaves the table unchanged; a request IsAdminmOrReadOnly refuses gets the permission denial (401 anonymous, 403 signed in); OPTIONS answers 200 without deleting; other verbs get 405 after the permission check; a missing slug is an unhandled error (500) |
| Views.FindByUsername | api_yamdb/api/v1/views.py:108 | a user with the given name is found iff one is stored, and the one found has that name |
| Views.MeOutcome | api_yamdb/api/v1/views.py:126-139 | `me` requires a session for every method (401); OPTIONS answers with the route's description; only GET, HEAD and PATCH reach the action (405 otherwise); a caller with no stored row gets 404; GET and HEAD return the caller's row; PATCH succeeds iff UserEditSerializer accepts the update, returns the updated row with the role unchanged, and otherwise answers 400 |
| Views.UserUpdate | api_yamdb/api/v1/views.py:118-144 | a non-admin gets the permission denial (401 anonymous, 403 signed in) for PUT and PATCH alike; PUT by an admin gets 405; a successful PATCH is by an admin, targets the user with the route's name, and is that user's UserSerializer update; an unknown name gets 404; for an admin PATCH on a stored name, the request succeeds iff UserSerializer accepts the update, otherwise 400 |
| Views.SignUpOutcome | api_yamdb/api/v1/views.py:77-98 | every failure is 400; a success carries the validated data and either reuses the user with exactly that name and address or creates one whose name and address are both new; with valid data, a conflict arises iff no user matches both and some user has the name or the address |
| Views.TokenOutcome | api_yamdb/api/v1/views.py:101-115 | invalid input gives 400; an unknown name gives 404; for the user with that name, a token is issued iff the confirmation code passes the check, and a failing code gives 400 |
| Views.Store.ReviewQueryset | api_yamdb/api/v1/views.py:151-155 | a missing title gives 404; otherwise the listing is exactly the stored reviews of that title |
| Views.Store.CommentQueryset | api_yamdb/api/v1/views.py:165-169 | a missing review gives 404; otherwise the listing is exactly the stored comments of that review |
| Views.Store.CreateReview | api_yamdb/api/v1/views.py:157-158 | keeps the store invariant; on success adds exactly the row ReviewCreation decides under a new key, which then appears in the title's listing, and answers 201; otherwise changes nothing and answers the refusal's status |
| Views.Store.UpdateReview | api_yamdb/api/v1/views.py:147-149 | keeps the store invariant; on success replaces the review with the row ReviewUpdate decides, otherwise leaves the reviews unchanged |
| Views.Store.CreateComment | api_yamdb/api/v1/views.py:171-172 | keeps the store invariant; on success adds exactly the row CommentCreation decides under a new key, which then appears in the review's listing |
| Views.Store.DeleteCategory | api_yamdb/api/v1/views.py:33-39 | keeps the store invariant; answers SlugDeletion's status and leaves the categories as SlugDeletion decides: the slug removed on 204, unchanged otherwise |
| Views.Store.DeleteGenre | api_yamdb/api/v1/views.py:50-56 | keeps the store invariant; answers SlugDeletion's status and leaves the genres as SlugDeletion decides: the slug removed on 204, unchanged otherwise |
| Views.Store.Me | api_yamdb/api/v1/views.py:131-139 | keeps the store invariant; GET and HEAD return the caller's row and OPTIONS returns no row, changing nothing; a successful PATCH stores and returns the updated row; a refusal changes nothing |
| Views.Store.UpdateUser | api_yamdb/api/v1/views.py:141-144 | keeps the store invariant; PUT leaves the user table unchanged and answers 405 or the denial; a successful PATCH stores the updated row under the named user's key |
| Views.Store.InsertUser | api_yamdb/api/v1/views.py:84-87 | stores a user with a new name and address under a fresh key, keeping the store invariant |
| Views.Store.SignUp | api_yamdb/api/v1/views.py:77-98 | keeps the store invariant; a refusal sends no mail and changes nothing; a reused user gets the mail and nothing changes; a new user is stored with the validated name and address and role "user", and gets the mail |
| Views.Store.ObtainToken | api_yamdb/api/v1/views.py:101-115 | a token is only ever issued for a stored user; every refusal is 400 or 404 |

## Left out

- The routing table (`urls.py`) is declarative and has no logic of its own. Each handler is modelled under the route it serves.
- The title rating (an average over review scores) is a floating-point aggregate computed by the database.
- Token generation and signing, JWT issuing, and mail delivery are foreign I/O. Only the yes/no outcome of the code check is a parameter. A sent mail is a returned value; its code is not modelled.
- Search, filtering, ordering, pagination and the nested title representation are framework machinery.
- Title, category and genre create and list, and the admin slug view set, are plain framework CRUD with no logic of their own in this code. `categories` and `genres` exist as tables only for the deletion handlers.
- Review and comment deletion, comment update, user creation by an admin, user deletion and user listing are framework defaults. Only their permission policies are modelled, through the Permissions lemmas.
- The user model is not part of this model. `is_admin` and `is_moderator` are uninterpreted inputs. Name and address uniqueness of stored users is taken as given. The role of a user created by signup, "user", is taken as given.
- `username_me` (imported from `users.validators` at api_yamdb/api/v1/serializers.py:8 and called at :65 and :73) is taken as a yes/no check that returns its input unchanged when it accepts; a version that rewrites the value is not modelled.
- The rules the user model declares for its columns (blank allowed or not, maximum length, validators, the choices of `role`) are the parameter `UserRules`. The `role` column is taken as a choice column. The unique-name validator a unique column adds is not modelled separately: `validate_username` already refuses every stored name, so it changes only which reason is reported. A blank address that would clash on a unique column is refused as taken, where the source would leave it to the database.
- SignUpApiView and TokenRegApiView declare no permission classes; the project's default permission is taken as allowing everyone. The project settings file is not part of this model.
- Deleting a category or genre only removes its row here. What happens to the titles that refer to it is decided by the `on_delete` rule in reviews/models.py, which is not part of this model.
- The e-mail address syntax check is an uninterpreted parameter, `Collaborators.isEmail`.
- The username pattern's `\w` class is taken as ASCII letters, digits and `_`, not Python's Unicode word characters.
- Trimming removes ASCII whitespace only, not the full Unicode set Python's `str.strip` removes.
- Parsing of request bodies (string-to-integer coercion of `score`, type errors on malformed JSON) is left out. A payload arrives as typed optional fields.
- OPTIONS answers are represented by their status (and, on `users/me`, by the absence of a row); the metadata body the framework describes is not modelled. Outside `users/me` and the slug deletions, HEAD and OPTIONS are modelled only through their permission decisions.
- Validation error messages are represented by their field and reason codes, not by their text.
- The review–insert check-then-act race is concurrency, outside a sequential model.
- Serializers.ReviewFields: the `text` field's rules come from the `text` column of the review model in reviews/models.py, which is not part of this model; the column is taken as required, not blank, with no maximum length and no validators of its own.
- Serializers.CommentFields: likewise, the `text` column of the comment model is taken as required, not blank, with no maximum length and no validators of its own.
- Views.MeOutcome: the caller's row is looked up by primary key. The source filters on `username=self.request.user` (api_yamdb/api/v1/views.py:132), which finds the same row only because the user model's string form is its username; that string form is taken as given.
- Views.Store.ObtainToken: states only that the token's user is stored and which statuses refusals use; the full decision is Views.TokenOutcome, which it returns.
