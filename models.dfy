/** The rows of the service's tables (users, reviews, comments) and the table-wide
    constraints the store keeps. The ORM model classes themselves are not part of this
    model; only the columns the API layer reads or writes appear here. */
module Models {

  datatype Option<T> = None | Some(value: T) {
    function GetOr(default: T): T {
      match this
      case Some(v) => v
      case None => default
    }
  }

  datatype Result<T, E> = Ok(value: T) | Err(error: E)

  /** Primary keys, as the store assigns them. */
  type UserId = nat
  type TitleId = nat
  type ReviewId = nat
  type CommentId = nat

  /** The slug that names a category or a genre. */
  type Slug = string

  datatype User = User(username: string, email: string, firstName: string, lastName: string,
                       bio: string, role: string)

  datatype Review = Review(title: TitleId, author: UserId, text: string, score: int)

  datatype Comment = Comment(review: ReviewId, author: UserId, text: string)

  /** `Review.objects.filter(title_id=title, author=author).exists()` */
  predicate HasReviewBy(reviews: map<ReviewId, Review>, title: TitleId, author: UserId) {
    exists id :: id in reviews && reviews[id].title == title && reviews[id].author == author
  }

  /** At most one review per (title, author) pair. */
  ghost predicate OneReviewPerTitleAndAuthor(reviews: map<ReviewId, Review>) {
    forall a, b ::
      (a in reviews && b in reviews && reviews[a].title == reviews[b].title
       && reviews[a].author == reviews[b].author) ==> a == b
  }

  function Usernames(users: map<UserId, User>): set<string> {
    set id | id in users :: users[id].username
  }

  function Emails(users: map<UserId, User>): set<string> {
    set id | id in users :: users[id].email
  }

  ghost predicate UniqueUsernames(users: map<UserId, User>) {
    forall a, b :: a in users && b in users && users[a].username == users[b].username ==> a == b
  }

  ghost predicate UniqueEmails(users: map<UserId, User>) {
    forall a, b :: a in users && b in users && users[a].email == users[b].email ==> a == b
  }

  /** Storing a review for a pair that has none keeps the pairs distinct. */
  lemma {:induction false} AddReviewKeepsOneReviewPerTitleAndAuthor(reviews: map<ReviewId, Review>, id: ReviewId, row: Review)
    requires OneReviewPerTitleAndAuthor(reviews)
    requires id !in reviews
    requires !HasReviewBy(reviews, row.title, row.author)
    ensures OneReviewPerTitleAndAuthor(reviews[id := row])
  {
  }

  /** Rewriting a review without touching its title or author keeps the pairs distinct. */
  lemma {:induction false} ReplaceReviewKeepsOneReviewPerTitleAndAuthor(reviews: map<ReviewId, Review>, id: ReviewId, row: Review)
    requires OneReviewPerTitleAndAuthor(reviews)
    requires id in reviews && row.title == reviews[id].title && row.author == reviews[id].author
    ensures OneReviewPerTitleAndAuthor(reviews[id := row])
  {
    var after := reviews[id := row];
    forall a, b | a in after && b in after && after[a].title == after[b].title && after[a].author == after[b].author
      ensures a == b
    {
      assert after[a].title == reviews[a].title && after[a].author == reviews[a].author;
      assert after[b].title == reviews[b].title && after[b].author == reviews[b].author;
    }
  }

  /** Storing a user whose name and address are both new keeps names and addresses unique. */
  lemma AddUserKeepsUniqueness(users: map<UserId, User>, id: UserId, row: User)
    requires UniqueUsernames(users) && UniqueEmails(users)
    requires id !in users
    requires row.username !in Usernames(users) && row.email !in Emails(users)
    ensures UniqueUsernames(users[id := row]) && UniqueEmails(users[id := row])
  {
    forall a | a in users
      ensures users[a].username != row.username && users[a].email != row.email
    {
      assert users[a].username in Usernames(users);
      assert users[a].email in Emails(users);
    }
  }
}
