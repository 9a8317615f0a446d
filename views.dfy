/** The request handlers of api/v1/views.py over an in-memory store. Each handler's
    decision is a pure function of the request and the tables (permission check, then
    lookups and validation, in the order the framework runs them); the `Store` methods
    apply that decision to the tables. Token signing and mail delivery stay outside: the
    confirmation-code check is a parameter, and a sent mail is returned as a value. */
module Views {
  import opened Models
  import opened Permissions
  import opened Serializers

  datatype Status =
    | Ok200 | Created201 | NoContent204
    | BadRequest400 | NotAuthenticated401 | Forbidden403 | NotFound404 | MethodNotAllowed405
    | ServerError500

  /** A refused permission check: an anonymous caller is asked to authenticate, anyone else
      is forbidden. (With no authentication header to advertise, the framework would send
      403 for the first case too.) */
  function Denial(caller: Principal): (r: Status)
    ensures r == NotAuthenticated401 <==> !caller.IsAuthenticated()
    ensures r == Forbidden403 <==> caller.IsAuthenticated()
  {
    if caller.IsAuthenticated() then Forbidden403 else NotAuthenticated401
  }

  /** The collaborators the views call but this model does not define: the
      `users.validators.username_me` validator, the e-mail address syntax check, and the confirmation-code
      check of the token generator. */
  datatype Collaborators = Collaborators(usernameMe: string -> bool, isEmail: string -> bool,
                                         checkToken: (UserId, string) -> bool)

  /** A confirmation mail: the address it goes to and the account whose code it carries. */
  datatype Mail = Mail(recipient: string, account: UserId)

  /** The role a user created by signup gets. */
  const DefaultRole: string := "user"

  const ReviewPolicy: Policy := AuthorOrModeratorOrAdminOrReadOnly

  // ---------------------------------------------------------------------------------
  // ReviewViewSet and CommentViewSet

  /** POST on a title's reviews: the session gate, the serializer's fields, its `validate`
      (title exists, no earlier review by the caller), then `perform_create`, which sets the
      author and the title on the server side. */
  function ReviewCreation(caller: Principal, titleId: TitleId, payload: ReviewPayload, s: Settings,
                          titles: set<TitleId>, reviews: map<ReviewId, Review>): (r: Result<Review, Status>)
    ensures r.Ok? <==> caller.IsAuthenticated() && ReviewFields(payload, false, s).Ok?
                       && titleId in titles && !HasReviewBy(reviews, titleId, caller.account.value)
    ensures r.Ok? ==> r.value.author == caller.account.value && r.value.title == titleId
                      && r.value.text == Strip(payload.text.value) && r.value.score == payload.score.value
                      && s.minScore <= r.value.score <= s.maxScore
    ensures !caller.IsAuthenticated() ==> r == Err(NotAuthenticated401)
    ensures caller.IsAuthenticated() && ReviewFields(payload, false, s).Err? ==> r == Err(BadRequest400)
    ensures caller.IsAuthenticated() && ReviewFields(payload, false, s).Ok? && titleId !in titles
            ==> r == Err(NotFound404)
    ensures (caller.IsAuthenticated() && ReviewFields(payload, false, s).Ok? && titleId in titles
             && HasReviewBy(reviews, titleId, caller.account.value)) ==> r == Err(BadRequest400)
  {
    if !HasPermission(ReviewPolicy, "POST", caller) then Err(Denial(caller))
    else
      var author := caller.account.value;
      match ReviewFields(payload, false, s)
      case Err(_) => Err(BadRequest400)
      case Ok(data) =>
        match ValidateReview("POST", author, titleId, titles, reviews, data)
        case Err(TitleNotFound) => Err(NotFound404)
        case Err(OneReviewOnly) => Err(BadRequest400)
        case Ok(d) => Ok(Review(titleId, author, d.text.value, d.score.value))
  }

  /** Whatever the client sends as `author`, the stored review has the caller as author. */
  lemma ReviewCreationIgnoresPayloadAuthor(caller: Principal, titleId: TitleId, payload: ReviewPayload,
                                           author: Option<string>, s: Settings,
                                           titles: set<TitleId>, reviews: map<ReviewId, Review>)
    ensures ReviewCreation(caller, titleId, payload, s, titles, reviews)
            == ReviewCreation(caller, titleId, payload.(author := author), s, titles, reviews)
  {
    ReviewAuthorIsReadOnly(payload, false, s, author);
  }

  /** PUT or PATCH on one review: the session gate, the title and the review looked up
      within that title, the object-level check against the review's author, the fields
      (all required for PUT), and `validate`, which does not look for duplicates here. Only
      the text and the score change. */
  function ReviewUpdate(caller: Principal, verb: HttpMethod, titleId: TitleId, reviewId: ReviewId,
                        payload: ReviewPayload, s: Settings, titles: set<TitleId>,
                        reviews: map<ReviewId, Review>): (r: Result<Review, Status>)
    requires verb == "PUT" || verb == "PATCH"
    ensures r.Ok? <==> reviewId in reviews && titleId in titles && reviews[reviewId].title == titleId
                       && Permits(ReviewPolicy, verb, caller, Some(reviews[reviewId].author))
                       && ReviewFields(payload, verb == "PATCH", s).Ok?
    ensures r.Ok? ==> r.value.title == reviews[reviewId].title && r.value.author == reviews[reviewId].author
    ensures r.Ok? ==> r.value.text == (if payload.text.Some? then Strip(payload.text.value) else reviews[reviewId].text)
                      && r.value.score == payload.score.GetOr(reviews[reviewId].score)
    ensures !caller.IsAuthenticated() ==> r == Err(NotAuthenticated401)
    ensures caller.IsAuthenticated() && titleId !in titles ==> r == Err(NotFound404)
    ensures (caller.IsAuthenticated() && titleId in titles
             && (reviewId !in reviews || reviews[reviewId].title != titleId)) ==> r == Err(NotFound404)
    ensures (caller.IsAuthenticated() && titleId in titles && reviewId in reviews && reviews[reviewId].title == titleId
             && !HasObjectPermission(ReviewPolicy, verb, caller, reviews[reviewId].author)) ==> r == Err(Forbidden403)
    ensures (titleId in titles && reviewId in reviews && reviews[reviewId].title == titleId
             && Permits(ReviewPolicy, verb, caller, Some(reviews[reviewId].author))
             && ReviewFields(payload, verb == "PATCH", s).Err?) ==> r == Err(BadRequest400)
  {
    if !HasPermission(ReviewPolicy, verb, caller) then Err(Denial(caller))
    else if titleId !in titles then Err(NotFound404)
    else if reviewId !in reviews || reviews[reviewId].title != titleId then Err(NotFound404)
    else if !HasObjectPermission(ReviewPolicy, verb, caller, reviews[reviewId].author) then Err(Denial(caller))
    else
      match ReviewFields(payload, verb == "PATCH", s)
      case Err(_) => Err(BadRequest400)
      case Ok(data) =>
        ValidateReviewOnlyChecksPost(verb, caller.account.value, titleId, titles, reviews, data);
        Ok(Edited(reviews[reviewId], ValidateReview(verb, caller.account.value, titleId, titles, reviews, data).value))
  }

  /** The serializer's save on an existing review: the sent fields replace the stored ones. */
  function Edited(current: Review, data: ReviewData): (r: Review)
    ensures r.title == current.title && r.author == current.author
    ensures r.text == data.text.GetOr(current.text) && r.score == data.score.GetOr(current.score)
  {
    Review(current.title, current.author, data.text.GetOr(current.text), data.score.GetOr(current.score))
  }

  /** One review per title and author is a rule about creation only: once a caller's review
      of a title is stored, a second POST by that caller is refused, while the author can
      still edit the stored one. */
  lemma {:induction false} SecondReviewRefusedButEditAllowed(caller: Principal, titleId: TitleId,
                                                            first: ReviewPayload, second: ReviewPayload,
                                                            edit: ReviewPayload, s: Settings,
                                                            titles: set<TitleId>,
                                                            reviews: map<ReviewId, Review>, id: ReviewId)
    requires ReviewCreation(caller, titleId, first, s, titles, reviews).Ok? && id !in reviews
    requires ReviewFields(edit, true, s).Ok?
    ensures var after := reviews[id := ReviewCreation(caller, titleId, first, s, titles, reviews).value];
            ReviewCreation(caller, titleId, second, s, titles, after).Err?
            && ReviewUpdate(caller, "PATCH", titleId, id, edit, s, titles, after).Ok?
            && ReviewUpdate(caller, "PATCH", titleId, id, edit, s, titles, after).value.author == caller.account.value
  {
    var row := ReviewCreation(caller, titleId, first, s, titles, reviews).value;
    var after := reviews[id := row];
    assert after[id].title == titleId && after[id].author == caller.account.value;
    assert HasReviewBy(after, titleId, caller.account.value);
  }

  /** POST on a review's comments: the session gate, the text, then `perform_create`, which
      looks the review up by its id and sets it and the author on the server side. */
  function CommentCreation(caller: Principal, titleId: TitleId, reviewId: ReviewId, payload: CommentPayload,
                           reviews: map<ReviewId, Review>): (r: Result<Comment, Status>)
    ensures r.Ok? <==> caller.IsAuthenticated() && CommentFields(payload).Ok? && reviewId in reviews
    ensures r.Ok? ==> r.value == Comment(reviewId, caller.account.value, Strip(payload.text.value))
    ensures !caller.IsAuthenticated() ==> r == Err(NotAuthenticated401)
    ensures caller.IsAuthenticated() && CommentFields(payload).Err? ==> r == Err(BadRequest400)
    ensures caller.IsAuthenticated() && CommentFields(payload).Ok? && reviewId !in reviews ==> r == Err(NotFound404)
  {
    if !HasPermission(ReviewPolicy, "POST", caller) then Err(Denial(caller))
    else
      match CommentFields(payload)
      case Err(_) => Err(BadRequest400)
      case Ok(text) =>
        if reviewId !in reviews then Err(NotFound404)
        else Ok(Comment(reviewId, caller.account.value, text))
  }

  /** `get_review` uses the review id alone: the route's title id plays no part, so a
      comment can be posted under any title id, even one the review does not belong to. */
  lemma CommentCreationIgnoresRouteTitle(caller: Principal, titleId: TitleId, otherTitle: TitleId,
                                         reviewId: ReviewId, payload: CommentPayload,
                                         reviews: map<ReviewId, Review>)
    ensures CommentCreation(caller, titleId, reviewId, payload, reviews)
            == CommentCreation(caller, otherTitle, reviewId, payload, reviews)
  {
  }

  // ---------------------------------------------------------------------------------
  // categorie_delete and genres_delete

  /** The answer to a request on a category or genre slug, and the table after it. */
  datatype Deletion = Deletion(status: Status, table: map<Slug, string>)

  /** A request on a category or genre slug, behind IsAdminmOrReadOnly. The view accepts
      DELETE, and OPTIONS, which the framework answers with the view's description without
      running the body. Any other method is refused once the permission check has passed.
      The slug is fetched with a plain `get`, so a missing slug is an unhandled error, not a
      404. */
  function SlugDeletion(caller: Principal, verb: HttpMethod, slug: Slug, table: map<Slug, string>): (r: Deletion)
    ensures r.status == NoContent204 <==> HasPermission(AdminmOrReadOnly, verb, caller) && verb == "DELETE" && slug in table
    ensures r.status == NoContent204 ==> r.table.Keys == table.Keys - {slug}
                                         && forall k :: k in r.table ==> r.table[k] == table[k]
    ensures r.status != NoContent204 ==> r.table == table
    ensures !HasPermission(AdminmOrReadOnly, verb, caller) ==> r.status == Denial(caller)
    ensures !caller.IsAuthenticated() && verb == "DELETE" ==> r.status == NotAuthenticated401
    ensures verb == "OPTIONS" ==> r.status == Ok200
    ensures (HasPermission(AdminmOrReadOnly, verb, caller) && verb != "DELETE" && verb != "OPTIONS")
            ==> r.status == MethodNotAllowed405
    ensures HasPermission(AdminmOrReadOnly, verb, caller) && verb == "DELETE" && slug !in table
            ==> r.status == ServerError500
  {
    if !HasPermission(AdminmOrReadOnly, verb, caller) then Deletion(Denial(caller), table)
    else if verb == "OPTIONS" then Deletion(Ok200, table)
    else if verb != "DELETE" then Deletion(MethodNotAllowed405, table)
    else if slug !in table then Deletion(ServerError500, table)
    else Deletion(NoContent204, table - {slug})
  }

  // ---------------------------------------------------------------------------------
  // UserViewSet

  /** The user with a given name; names are unique in the store. */
  function FindByUsername(users: map<UserId, User>, name: string): (r: Option<UserId>)
    requires UniqueUsernames(users)
    ensures r.Some? <==> name in Usernames(users)
    ensures r.Some? ==> r.value in users && users[r.value].username == name
  {
    if exists id :: id in users && users[id].username == name then
      var id :| id in users && users[id].username == name; Some(id)
    else None
  }

  /** `users/me`: signed-in callers only, for every method of the route. OPTIONS is
      answered with the route's description (`None`); GET, and HEAD, which the framework
      routes to the GET action, return the caller's row; PATCH applies a partial update
      through UserEditSerializer, whose `role` is read-only, and returns the updated row;
      other methods are refused. The row is looked up before the method is branched on. */
  function MeOutcome(caller: Principal, verb: HttpMethod, patch: UserPatch, users: map<UserId, User>,
                     rules: UserRules): (r: Result<Option<User>, Status>)
    ensures !caller.IsAuthenticated() ==> r == Err(NotAuthenticated401)
    ensures caller.IsAuthenticated() && verb == "OPTIONS" ==> r == Ok(None)
    ensures (caller.IsAuthenticated() && verb != "GET" && verb != "HEAD" && verb != "PATCH" && verb != "OPTIONS")
            ==> r == Err(MethodNotAllowed405)
    ensures (caller.IsAuthenticated() && (verb == "GET" || verb == "HEAD" || verb == "PATCH")
             && caller.account.value !in users) ==> r == Err(NotFound404)
    ensures (caller.IsAuthenticated() && caller.account.value in users && (verb == "GET" || verb == "HEAD"))
            ==> r == Ok(Some(users[caller.account.value]))
    ensures caller.IsAuthenticated() && caller.account.value in users && verb == "PATCH" ==>
              var edit := PatchUser(patch, false, caller.account.value, users, rules);
              (r.Ok? <==> edit.Ok?)
              && (r.Ok? ==> r == Ok(Some(edit.value)) && edit.value.role == users[caller.account.value].role)
              && (r.Err? ==> r == Err(BadRequest400))
  {
    if !HasPermission(AuthenticatedOnly, verb, caller) then Err(Denial(caller))
    else if verb == "OPTIONS" then Ok(None)
    else if verb != "GET" && verb != "HEAD" && verb != "PATCH" then Err(MethodNotAllowed405)
    else if caller.account.value !in users then Err(NotFound404)
    else if verb != "PATCH" then Ok(Some(users[caller.account.value]))
    else
      match PatchUser(patch, false, caller.account.value, users, rules)
      case Err(_) => Err(BadRequest400)
      case Ok(row) => Ok(Some(row))
  }

  /** PUT or PATCH on `users/<username>` behind IsAdmin: PUT is refused with 405 before
      anything is looked up; PATCH updates through UserSerializer, where `role` is
      writable. */
  function UserUpdate(caller: Principal, verb: HttpMethod, username: string, patch: UserPatch,
                      users: map<UserId, User>, rules: UserRules): (r: Result<(UserId, User), Status>)
    requires verb == "PUT" || verb == "PATCH"
    requires UniqueUsernames(users)
    ensures !HasPermission(AdminOnly, verb, caller) ==> r == Err(Denial(caller))
    ensures verb == "PUT" ==> r == Err(if HasPermission(AdminOnly, verb, caller) then MethodNotAllowed405 else Denial(caller))
    ensures r.Ok? ==> verb == "PATCH" && HasPermission(AdminOnly, verb, caller)
                      && r.value.0 in users && users[r.value.0].username == username
                      && PatchUser(patch, true, r.value.0, users, rules) == Ok(r.value.1)
    ensures HasPermission(AdminOnly, verb, caller) && verb == "PATCH" && username !in Usernames(users)
            ==> r == Err(NotFound404)
    ensures HasPermission(AdminOnly, verb, caller) && verb == "PATCH" && username in Usernames(users) ==>
              var id := FindByUsername(users, username).value;
              (r.Ok? <==> PatchUser(patch, true, id, users, rules).Ok?)
              && (r.Err? ==> r == Err(BadRequest400))
  {
    if !HasPermission(AdminOnly, verb, caller) then Err(Denial(caller))
    else if verb == "PUT" then Err(MethodNotAllowed405)
    else
      match FindByUsername(users, username)
      case None => Err(NotFound404)
      case Some(id) =>
        match PatchUser(patch, true, id, users, rules)
        case Err(_) => Err(BadRequest400)
        case Ok(row) => Ok((id, row))
  }

  // ---------------------------------------------------------------------------------
  // SignUpApiView and TokenRegApiView

  /** The outcome of `get_or_create`: the validated data and the stored user it found, if
      any (none means a new user is to be created). */
  datatype Registration = Registration(data: SignUpData, existing: Option<UserId>)

  /** POST on auth/signup: validation, then `get_or_create` on the (name, address) pair. A
      pair that matches no user but shares its name or its address with one breaks a unique
      column and is answered with 400. */
  function SignUpOutcome(username: Option<string>, email: Option<string>, s: Settings,
                         hooks: Collaborators, users: map<UserId, User>): (r: Result<Registration, Status>)
    requires UniqueUsernames(users)
    ensures r.Err? ==> r.error == BadRequest400
    ensures r.Ok? ==> ValidateSignUp(username, email, s, hooks.usernameMe, hooks.isEmail) == Ok(r.value.data)
    ensures r.Ok? && r.value.existing.Some? ==>
              r.value.existing.value in users
              && users[r.value.existing.value].username == r.value.data.username
              && users[r.value.existing.value].email == r.value.data.email
    ensures r.Ok? && r.value.existing.None? ==>
              r.value.data.username !in Usernames(users) && r.value.data.email !in Emails(users)
    ensures ValidateSignUp(username, email, s, hooks.usernameMe, hooks.isEmail).Ok? ==>
              var d := ValidateSignUp(username, email, s, hooks.usernameMe, hooks.isEmail).value;
              r.Err? <==> (forall id :: id in users ==> users[id] .username != d.username || users[id].email != d.email)
                          && (d.username in Usernames(users) || d.email in Emails(users))
  {
    match ValidateSignUp(username, email, s, hooks.usernameMe, hooks.isEmail)
    case Err(_) => Err(BadRequest400)
    case Ok(d) =>
      match FindByUsername(users, d.username)
      case Some(id) =>
        if users[id].email == d.email then Ok(Registration(d, Some(id)))
        else Err(BadRequest400)
      case None =>
        if d.email in Emails(users) then Err(BadRequest400)
        else Ok(Registration(d, None))
  }

  /** POST on auth/token: validation, the user looked up by name (404), then the
      confirmation-code check; a token is issued for the returned user only when the
      check passes. */
  function TokenOutcome(username: Option<string>, code: Option<string>, hooks: Collaborators,
                        users: map<UserId, User>): (r: Result<UserId, Status>)
    requires UniqueUsernames(users)
    ensures ValidateTokenRequest(username, code, hooks.usernameMe).Err? ==> r == Err(BadRequest400)
    ensures r.Ok? ==> var req := ValidateTokenRequest(username, code, hooks.usernameMe);
                      req.Ok? && r.value in users && users[r.value].username == req.value.username
                      && hooks.checkToken(r.value, req.value.confirmationCode)
    ensures ValidateTokenRequest(username, code, hooks.usernameMe).Ok? ==>
              var req := ValidateTokenRequest(username, code, hooks.usernameMe).value;
              (req.username !in Usernames(users) ==> r == Err(NotFound404))
              && (forall id :: id in users && users[id].username == req.username ==>
                    (r.Ok? <==> hooks.checkToken(id, req.confirmationCode))
                    && (!hooks.checkToken(id, req.confirmationCode) ==> r == Err(BadRequest400)))
  {
    match ValidateTokenRequest(username, code, hooks.usernameMe)
    case Err(_) => Err(BadRequest400)
    case Ok(req) =>
      match FindByUsername(users, req.username)
      case None => Err(NotFound404)
      case Some(id) =>
        if hooks.checkToken(id, req.confirmationCode) then Ok(id) else Err(BadRequest400)
  }

  // ---------------------------------------------------------------------------------
  // The store

  /** The tables the views read and write, with the auto-increment counters of the
      primary keys. */
  class Store {
    const settings: Settings
    const rules: UserRules
    var users: map<UserId, User>
    var titles: set<TitleId>
    var categories: map<Slug, string>
    var genres: map<Slug, string>
    var reviews: map<ReviewId, Review>
    var comments: map<CommentId, Comment>
    var nextUser: UserId
    var nextReview: ReviewId
    var nextComment: CommentId

    /** Keys below their counters, unique user names and addresses, one review per title
        and author, and every review and comment attached to a stored parent. */
    ghost predicate Valid()
      reads this
    {
      (forall id :: id in users ==> id < nextUser)
      && (forall id :: id in reviews ==> id < nextReview)
      && (forall id :: id in comments ==> id < nextComment)
      && UniqueUsernames(users) && UniqueEmails(users)
      && OneReviewPerTitleAndAuthor(reviews)
      && (forall id :: id in reviews ==> reviews[id].title in titles)
      && (forall id :: id in comments ==> comments[id].review in reviews)
    }

    constructor (settings: Settings, rules: UserRules, titles: set<TitleId>,
                 categories: map<Slug, string>, genres: map<Slug, string>)
      ensures Valid()
      ensures this.settings == settings && this.rules == rules && this.titles == titles
      ensures this.categories == categories && this.genres == genres
      ensures users == map[] && reviews == map[] && comments == map[]
    {
      this.settings := settings;
      this.rules := rules;
      this.titles := titles;
      this.categories := categories;
      this.genres := genres;
      users, reviews, comments := map[], map[], map[];
      nextUser, nextReview, nextComment := 0, 0, 0;
    }

    /** `ReviewViewSet.get_title` and `get_queryset`: the reviews of an existing title. */
    function ReviewQueryset(titleId: TitleId): (r: Result<map<ReviewId, Review>, Status>)
      reads this
      ensures r.Err? <==> titleId !in titles
      ensures r.Err? ==> r.error == NotFound404
      ensures r.Ok? ==> (forall id :: id in r.value <==> id in reviews && reviews[id].title == titleId)
                        && (forall id :: id in r.value ==> r.value[id] == reviews[id])
    {
      if titleId !in titles then Err(NotFound404)
      else Ok(map id | id in reviews && reviews[id].title == titleId :: reviews[id])
    }

    /** `CommentViewSet.get_review` and `get_queryset`: the comments of an existing review. */
    function CommentQueryset(reviewId: ReviewId): (r: Result<map<CommentId, Comment>, Status>)
      reads this
      ensures r.Err? <==> reviewId !in reviews
      ensures r.Err? ==> r.error == NotFound404
      ensures r.Ok? ==> (forall id :: id in r.value <==> id in comments && comments[id].review == reviewId)
                        && (forall id :: id in r.value ==> r.value[id] == comments[id])
    {
      if reviewId !in reviews then Err(NotFound404)
      else Ok(map id | id in comments && comments[id].review == reviewId :: comments[id])
    }

    method CreateReview(caller: Principal, titleId: TitleId, payload: ReviewPayload)
      returns (status: Status, created: Option<ReviewId>)
      requires Valid()
      modifies this
      ensures Valid()
      ensures users == old(users) && titles == old(titles) && comments == old(comments)
      ensures categories == old(categories) && genres == old(genres)
      ensures var outcome := ReviewCreation(caller, titleId, payload, settings, old(titles), old(reviews));
              if outcome.Ok? then
                status == Created201 && created.Some? && created.value !in old(reviews)
                && reviews == old(reviews)[created.value := outcome.value]
              else
                status == outcome.error && created.None? && reviews == old(reviews)
      ensures status == Created201 ==> ReviewQueryset(titleId).Ok? && created.value in ReviewQueryset(titleId).value
    {
      var outcome := ReviewCreation(caller, titleId, payload, settings, titles, reviews);
      if outcome.Ok? {
        AddReviewKeepsOneReviewPerTitleAndAuthor(reviews, nextReview, outcome.value);
        reviews := reviews[nextReview := outcome.value];
        status, created := Created201, Some(nextReview);
        nextReview := nextReview + 1;
      } else {
        status, created := outcome.error, None;
      }
    }

    method UpdateReview(caller: Principal, verb: HttpMethod, titleId: TitleId, reviewId: ReviewId,
                        payload: ReviewPayload) returns (status: Status)
      requires Valid()
      requires verb == "PUT" || verb == "PATCH"
      modifies this`reviews
      ensures Valid()
      ensures var outcome := ReviewUpdate(caller, verb, titleId, reviewId, payload, settings, titles, old(reviews));
              if outcome.Ok? then status == Ok200 && reviews == old(reviews)[reviewId := outcome.value]
              else status == outcome.error && reviews == old(reviews)
    {
      var outcome := ReviewUpdate(caller, verb, titleId, reviewId, payload, settings, titles, reviews);
      if outcome.Ok? {
        ReplaceReviewKeepsOneReviewPerTitleAndAuthor(reviews, reviewId, outcome.value);
        reviews := reviews[reviewId := outcome.value];
        status := Ok200;
      } else {
        status := outcome.error;
      }
    }

    method CreateComment(caller: Principal, titleId: TitleId, reviewId: ReviewId, payload: CommentPayload)
      returns (status: Status, created: Option<CommentId>)
      requires Valid()
      modifies this`comments, this`nextComment
      ensures Valid()
      ensures var outcome := CommentCreation(caller, titleId, reviewId, payload, reviews);
              if outcome.Ok? then
                status == Created201 && created.Some? && created.value !in old(comments)
                && comments == old(comments)[created.value := outcome.value]
              else
                status == outcome.error && created.None? && comments == old(comments)
      ensures status == Created201 ==> CommentQueryset(reviewId).Ok? && created.value in CommentQueryset(reviewId).value
    {
      var outcome := CommentCreation(caller, titleId, reviewId, payload, reviews);
      if outcome.Ok? {
        comments := comments[nextComment := outcome.value];
        status, created := Created201, Some(nextComment);
        nextComment := nextComment + 1;
      } else {
        status, created := outcome.error, None;
      }
    }

    method DeleteCategory(caller: Principal, verb: HttpMethod, slug: Slug) returns (status: Status)
      requires Valid()
      modifies this`categories
      ensures Valid()
      ensures var outcome := SlugDeletion(caller, verb, slug, old(categories));
              status == outcome.status && categories == outcome.table
    {
      var outcome := SlugDeletion(caller, verb, slug, categories);
      categories := outcome.table;
      status := outcome.status;
    }

    method DeleteGenre(caller: Principal, verb: HttpMethod, slug: Slug) returns (status: Status)
      requires Valid()
      modifies this`genres
      ensures Valid()
      ensures var outcome := SlugDeletion(caller, verb, slug, old(genres));
              status == outcome.status && genres == outcome.table
    {
      var outcome := SlugDeletion(caller, verb, slug, genres);
      genres := outcome.table;
      status := outcome.status;
    }

    method Me(caller: Principal, verb: HttpMethod, patch: UserPatch) returns (status: Status, data: Option<User>)
      requires Valid()
      modifies this`users
      ensures Valid()
      ensures var outcome := MeOutcome(caller, verb, patch, old(users), rules);
              if outcome.Ok? then
                status == Ok200 && data == outcome.value
                && users == (if verb == "PATCH" then old(users)[caller.account.value := outcome.value.value] else old(users))
              else
                status == outcome.error && data.None? && users == old(users)
    {
      var outcome := MeOutcome(caller, verb, patch, users, rules);
      if outcome.Ok? {
        if verb == "PATCH" {
          PatchKeepsUniqueness(patch, false, caller.account.value, users, rules);
          users := users[caller.account.value := outcome.value.value];
        }
        status, data := Ok200, outcome.value;
      } else {
        status, data := outcome.error, None;
      }
    }

    method UpdateUser(caller: Principal, verb: HttpMethod, username: string, patch: UserPatch)
      returns (status: Status, data: Option<User>)
      requires Valid()
      requires verb == "PUT" || verb == "PATCH"
      modifies this`users
      ensures Valid()
      ensures var outcome := UserUpdate(caller, verb, username, patch, old(users), rules);
              if outcome.Ok? then
                status == Ok200 && data == Some(outcome.value.1)
                && users == old(users)[outcome.value.0 := outcome.value.1]
              else
                status == outcome.error && data.None? && users == old(users)
      ensures verb == "PUT" ==> users == old(users) && (status == MethodNotAllowed405 || status == Denial(caller))
    {
      var outcome := UserUpdate(caller, verb, username, patch, users, rules);
      if outcome.Ok? {
        PatchKeepsUniqueness(patch, true, outcome.value.0, users, rules);
        users := users[outcome.value.0 := outcome.value.1];
        status, data := Ok200, Some(outcome.value.1);
      } else {
        status, data := outcome.error, None;
      }
    }

    /** `User.objects.create`: stores a row whose name and address are both new under the
        next primary key. */
    method InsertUser(row: User) returns (id: UserId)
      requires Valid()
      requires row.username !in Usernames(users) && row.email !in Emails(users)
      modifies this`users, this`nextUser
      ensures Valid()
      ensures id !in old(users) && users == old(users)[id := row]
    {
      id := nextUser;
      AddUserKeepsUniqueness(users, id, row);
      users := users[id := row];
      nextUser := nextUser + 1;
    }

    method SignUp(username: Option<string>, email: Option<string>, hooks: Collaborators)
      returns (status: Status, mail: Option<Mail>)
      requires Valid()
      modifies this`users, this`nextUser
      ensures Valid()
      ensures var outcome := SignUpOutcome(username, email, settings, hooks, old(users));
              match outcome
              case Err(e) => status == e && mail.None? && users == old(users)
              case Ok(Registration(d, Some(id))) =>
                status == Ok200 && mail == Some(Mail(d.email, id)) && users == old(users)
              case Ok(Registration(d, None)) =>
                status == Ok200 && mail.Some? && mail.value.recipient == d.email
                && mail.value.account !in old(users)
                && users == old(users)[mail.value.account := User(d.username, d.email, "", "", "", DefaultRole)]
    {
      var outcome := SignUpOutcome(username, email, settings, hooks, users);
      if outcome.Err? {
        status, mail := outcome.error, None;
      } else if outcome.value.existing.Some? {
        status, mail := Ok200, Some(Mail(outcome.value.data.email, outcome.value.existing.value));
      } else {
        var d := outcome.value.data;
        var row := User(d.username, d.email, "", "", "", DefaultRole);
        var id := InsertUser(row);
        status, mail := Ok200, Some(Mail(d.email, id));
      }
    }

    /** TokenRegApiView.post over the current user table. */
    function ObtainToken(username: Option<string>, code: Option<string>, hooks: Collaborators): (r: Result<UserId, Status>)
      reads this
      requires Valid()
      ensures r.Ok? ==> r.value in users
      ensures r.Err? ==> r.error == BadRequest400 || r.error == NotFound404
    {
      TokenOutcome(username, code, hooks, users)
    }
  }
}
