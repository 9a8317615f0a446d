/** The input validation of api/v1/serializers.py: the field rules the serializers declare,
    their `validate_username` and `validate` hooks, and which fields are read-only. The
    checks are pure; the user and review tables they query are passed in. */
module Serializers {
  import opened Models

  /** The limits the project settings supply. */
  datatype Settings = Settings(limitUsername: nat, limitEmail: nat, minScore: int, maxScore: int)

  datatype Field = Username | Email | FirstName | LastName | Bio | Role | ConfirmationCode | Text | Score

  /** Why a field was refused: missing, blank, too long, holding U+0000, not matching its
      pattern, not among the choices, below the minimum, above the maximum, already taken,
      the reserved name, or refused by the `users.validators.username_me` validator. */
  datatype Code = Required | Blank | MaxLength | NullCharacter | Pattern | NotAChoice | BelowMin | AboveMax
                | Taken | Reserved | Rejected

  datatype Issue = Issue(field: Field, code: Code)

  /** What a field contributes to the validated data: nothing (absent from a partial
      update), a clean value, or its error codes. */
  datatype Cleaned<T> = Skipped | Value(value: T) | Invalid(codes: set<Code>)

  function IssuesOf<T>(field: Field, c: Cleaned<T>): set<Issue> {
    if c.Invalid? then set code | code in c.codes :: Issue(field, code) else {}
  }

  function Supplied<T>(c: Cleaned<T>): Option<T> {
    if c.Value? then Some(c.value) else None
  }

  // ---------------------------------------------------------------------------------
  // Strings

  /** Python's `needle in hay` on two strings: a substring test. */
  function Contains(hay: string, needle: string): (b: bool)
    ensures needle <= hay ==> b
    ensures b ==> |needle| <= |hay|
    decreases |hay|
  {
    needle <= hay || (hay != [] && Contains(hay[1..], needle))
  }

  /** Where `Contains` holds, the needle starts at some index of the haystack. */
  lemma {:induction false} ContainsHasSlice(hay: string, needle: string) returns (i: nat)
    requires Contains(hay, needle)
    ensures i + |needle| <= |hay| && hay[i..i + |needle|] == needle
    decreases |hay|
  {
    if needle <= hay {
      i := 0;
    } else {
      var j := ContainsHasSlice(hay[1..], needle);
      i := j + 1;
      assert hay[i..i + |needle|] == hay[1..][j..j + |needle|];
    }
  }

  /** A needle that starts at some index of the haystack is contained in it. */
  lemma {:induction false} SliceGivesContains(hay: string, needle: string, i: nat)
    requires i + |needle| <= |hay| && hay[i..i + |needle|] == needle
    ensures Contains(hay, needle)
    decreases i
  {
    if i == 0 {
      assert needle <= hay;
    } else {
      assert hay[1..][i - 1..i - 1 + |needle|] == needle;
      SliceGivesContains(hay[1..], needle, i - 1);
    }
  }

  /** `Contains` is exactly "occurs as a contiguous slice". */
  lemma ContainsIsSubstring(hay: string, needle: string)
    ensures Contains(hay, needle) <==> exists i, j :: 0 <= i <= j <= |hay| && hay[i..j] == needle
  {
    if Contains(hay, needle) {
      var i := ContainsHasSlice(hay, needle);
      assert hay[i..i + |needle|] == needle;
    }
    if exists i, j :: 0 <= i <= j <= |hay| && hay[i..j] == needle {
      var i, j :| 0 <= i <= j <= |hay| && hay[i..j] == needle;
      SliceGivesContains(hay, needle, i);
    }
  }

  /** The strings that occur in "me" are exactly "", "m", "e" and "me". */
  lemma {:induction false} SubstringsOfMe(name: string)
    ensures Contains("me", name) <==> name == "" || name == "m" || name == "e" || name == "me"
  {
    assert "me"[1..] == "e" && "e"[1..] == "";
    assert Contains("me", name) == (name <= "me" || name <= "e" || name <= "");
    if name <= "me" {
      assert name == "me"[..|name|];
      assert |name| == 1 ==> name == "m";
    }
  }

  /** Whitespace as Python's `str.strip()` removes it, restricted to ASCII. */
  predicate IsSpace(c: char) {
    c == ' ' || '\t' <= c <= '\r' || '\U{1C}' <= c <= '\U{1F}'
  }

  /** The number of whitespace characters `s` starts with. */
  function LeadingSpaces(s: string): (n: nat)
    ensures n <= |s|
    ensures forall k :: 0 <= k < n ==> IsSpace(s[k])
    ensures n < |s| ==> !IsSpace(s[n])
  {
    if s != [] && IsSpace(s[0]) then 1 + LeadingSpaces(s[1..]) else 0
  }

  /** The number of whitespace characters `s` ends with. */
  function TrailingSpaces(s: string): (n: nat)
    ensures n <= |s|
    ensures forall k :: |s| - n <= k < |s| ==> IsSpace(s[k])
    ensures n < |s| ==> !IsSpace(s[|s| - n - 1])
  {
    if s != [] && IsSpace(s[|s| - 1]) then 1 + TrailingSpaces(s[..|s| - 1]) else 0
  }

  /** `str.strip()`: whitespace cut from both ends. Its meaning is stated by the three
      lemmas below. */
  function Strip(s: string): (r: string)
    ensures |r| <= |s|
  {
    var front := s[LeadingSpaces(s)..];
    front[..|front| - TrailingSpaces(front)]
  }

  /** What Strip leaves is the slice of the input after its leading whitespace. */
  lemma StripIsSlice(s: string)
    ensures LeadingSpaces(s) + |Strip(s)| <= |s|
    ensures Strip(s) == s[LeadingSpaces(s)..LeadingSpaces(s) + |Strip(s)|]
  {
    var front := s[LeadingSpaces(s)..];
    assert Strip(s) == front[..|front| - TrailingSpaces(front)];
  }

  /** Only whitespace is cut off after the slice, and none is left at either end of it. */
  lemma StripCutsOnlySpace(s: string)
    ensures forall k :: LeadingSpaces(s) + |Strip(s)| <= k < |s| ==> IsSpace(s[k])
    ensures Strip(s) != [] ==> !IsSpace(Strip(s)[0]) && !IsSpace(Strip(s)[|Strip(s)| - 1])
  {
    var i := LeadingSpaces(s);
    var front := s[i..];
    var n := TrailingSpaces(front);
    var r := front[..|front| - n];
    assert Strip(s) == r;
    forall k | i + |r| <= k < |s| ensures IsSpace(s[k]) {
      assert s[k] == front[k - i];
    }
    if r != [] {
      assert r[0] == front[0];
      assert r[|r| - 1] == front[|front| - n - 1];
    }
  }

  /** Nothing is left exactly when the input is all whitespace. */
  lemma StripEmptyIffAllSpace(s: string)
    ensures Strip(s) == [] <==> forall k :: 0 <= k < |s| ==> IsSpace(s[k])
  {
    StripIsSlice(s);
    StripCutsOnlySpace(s);
    var i := LeadingSpaces(s);
    if forall k :: 0 <= k < |s| ==> IsSpace(s[k]) {
      assert i == |s|;
    }
  }

  /** The character class `[\w.@+-]`, with `\w` taken as ASCII letters, digits and `_`. */
  predicate IsUsernameChar(c: char) {
    'a' <= c <= 'z' || 'A' <= c <= 'Z' || '0' <= c <= '9' || c == '_'
    || c == '.' || c == '@' || c == '+' || c == '-'
  }

  /** The pattern `^[\w.@+-]+\Z`: one character of the class, then the rest. */
  function MatchesUsernamePattern(s: string): (m: bool)
    ensures m <==> s != [] && forall i :: 0 <= i < |s| ==> IsUsernameChar(s[i])
  {
    s != [] && IsUsernameChar(s[0]) && (|s| == 1 || MatchesUsernamePattern(s[1..]))
  }

  // ---------------------------------------------------------------------------------
  // Field rules

  /** No character is U+0000: the framework adds this validator to every character field. */
  predicate HasNoNul(t: string) {
    forall i :: 0 <= i < |t| ==> t[i] != '\0'
  }

  /** A character field as the framework checks it. The value is trimmed. A blank value is
      refused, unless blanks are allowed, in which case it is the empty string and no
      validator runs. Otherwise every validator runs (a maximum length, no U+0000, a
      pattern) and all failures are reported. */
  function CleanCharField(raw: Option<string>, partial: bool, allowBlank: bool, maxLength: Option<nat>,
                          pattern: string -> bool): (c: Cleaned<string>)
    ensures c.Skipped? <==> partial && raw.None?
    ensures c.Value? <==> raw.Some? && (Strip(raw.value) == [] ==> allowBlank)
                          && (Strip(raw.value) != [] ==>
                                (maxLength.Some? ==> |Strip(raw.value)| <= maxLength.value)
                                && HasNoNul(Strip(raw.value)) && pattern(Strip(raw.value)))
    ensures c.Value? ==> c.value == Strip(raw.value)
    ensures c.Invalid? ==> c.codes != {}
    ensures raw.Some? && Strip(raw.value) == [] && !allowBlank ==> c == Invalid({Blank})
  {
    match raw
    case None => if partial then Skipped else Invalid({Required})
    case Some(v) =>
      var t := Strip(v);
      if t == [] then (if allowBlank then Value([]) else Invalid({Blank}))
      else
        var codes := (if maxLength.Some? && |t| > maxLength.value then {MaxLength} else {})
                     + (if HasNoNul(t) then {} else {NullCharacter})
                     + (if pattern(t) then {} else {Pattern});
        if codes == {} then Value(t) else Invalid(codes)
  }

  /** A field-level `validate_<field>` hook runs only on a value its field accepted. */
  function WithHook(c: Cleaned<string>, accepts: string -> bool): (r: Cleaned<string>)
    ensures r.Value? <==> c.Value? && accepts(c.value)
    ensures r.Value? ==> r.value == c.value
    ensures r.Skipped? <==> c.Skipped?
    ensures c.Invalid? ==> r == c
  {
    if c.Value? && !accepts(c.value) then Invalid({Rejected}) else c
  }

  /** `score`: an integer with MinValueValidator and MaxValueValidator; both run. */
  function CleanScore(raw: Option<int>, partial: bool, s: Settings): (c: Cleaned<int>)
    ensures c.Skipped? <==> partial && raw.None?
    ensures c.Value? <==> raw.Some? && s.minScore <= raw.value <= s.maxScore
    ensures c.Value? ==> c.value == raw.value
    ensures c.Invalid? ==> c.codes != {}
  {
    match raw
    case None => if partial then Skipped else Invalid({Required})
    case Some(v) =>
      var codes := (if v < s.minScore then {BelowMin} else {}) + (if v > s.maxScore then {AboveMax} else {});
      if codes == {} then Value(v) else Invalid(codes)
  }

  /** A supplied score is accepted exactly inside the configured bounds, and each bound it
      crosses is reported. */
  lemma ScoreBounds(v: int, partial: bool, s: Settings)
    ensures CleanScore(Some(v), partial, s) == Value(v) <==> s.minScore <= v <= s.maxScore
    ensures v < s.minScore ==> BelowMin in CleanScore(Some(v), partial, s).codes
    ensures v > s.maxScore ==> AboveMax in CleanScore(Some(v), partial, s).codes
  {
  }

  /** With the bounds the error messages state, the accepted scores are 1 to 10. */
  lemma ScoreBoundsOneToTen(v: int, partial: bool, limitUsername: nat, limitEmail: nat)
    ensures CleanScore(Some(v), partial, Settings(limitUsername, limitEmail, 1, 10)).Value? <==> 1 <= v <= 10
  {
  }

  // ---------------------------------------------------------------------------------
  // SignUpSerializer and TokenRegSerializer

  /** `SignUpSerializer.username`: a RegexField with the settings' length limit, followed
      by the `users.validators.username_me` hook. */
  function SignUpUsername(raw: Option<string>, s: Settings, usernameMe: string -> bool): (c: Cleaned<string>)
    ensures c.Value? <==> raw.Some? && var t := Strip(raw.value);
                          t != [] && |t| <= s.limitUsername
                          && (forall i :: 0 <= i < |t| ==> IsUsernameChar(t[i]))
                          && usernameMe(t)
    ensures c.Value? ==> c.value == Strip(raw.value)
    ensures !c.Skipped?
  {
    WithHook(CleanCharField(raw, false, false, Some(s.limitUsername), MatchesUsernamePattern), usernameMe)
  }

  datatype SignUpData = SignUpData(username: string, email: string)

  /** `SignUpSerializer.is_valid()`: both fields are checked and every failure reported. The
      address syntax check of the e-mail field is the parameter `isEmail`. */
  function ValidateSignUp(username: Option<string>, email: Option<string>, s: Settings,
                          usernameMe: string -> bool, isEmail: string -> bool): (r: Result<SignUpData, set<Issue>>)
    ensures r.Ok? <==> SignUpUsername(username, s, usernameMe).Value?
                       && CleanCharField(email, false, false, Some(s.limitEmail), isEmail).Value?
    ensures r.Ok? ==> r.value.username == Strip(username.value) && r.value.email == Strip(email.value)
  {
    var name := SignUpUsername(username, s, usernameMe);
    var address := CleanCharField(email, false, false, Some(s.limitEmail), isEmail);
    if name.Value? && address.Value? then Ok(SignUpData(name.value, address.value))
    else Err(IssuesOf(Username, name) + IssuesOf(Email, address))
  }

  datatype TokenRequest = TokenRequest(username: string, confirmationCode: string)

  /** `TokenRegSerializer.is_valid()`: two required character fields; the user name also
      goes through `username_me`. */
  function ValidateTokenRequest(username: Option<string>, code: Option<string>,
                                usernameMe: string -> bool): (r: Result<TokenRequest, set<Issue>>)
    ensures r.Ok? <==> username.Some? && Strip(username.value) != [] && HasNoNul(Strip(username.value))
                       && usernameMe(Strip(username.value))
                       && code.Some? && Strip(code.value) != [] && HasNoNul(Strip(code.value))
    ensures r.Ok? ==> r.value == TokenRequest(Strip(username.value), Strip(code.value))
  {
    var name := WithHook(CleanCharField(username, false, false, None, (t: string) => true), usernameMe);
    var secret := CleanCharField(code, false, false, None, (t: string) => true);
    if name.Value? && secret.Value? then Ok(TokenRequest(name.value, secret.value))
    else Err(IssuesOf(Username, name) + IssuesOf(ConfirmationCode, secret))
  }

  // ---------------------------------------------------------------------------------
  // UserSerializer and UserEditSerializer

  /** `UserSerializer.validate_username`: a name any stored user already has is refused
      first; then every name that occurs in "me" is refused; otherwise the name passes
      unchanged. */
  function ValidateUsername(username: string, users: map<UserId, User>): (r: Result<string, Code>)
    ensures r.Ok? <==> username !in Usernames(users) && username !in {"", "m", "e", "me"}
    ensures r.Ok? ==> r.value == username
    ensures username in Usernames(users) ==> r == Err(Taken)
    ensures username !in Usernames(users) && username in {"", "m", "e", "me"} ==> r == Err(Reserved)
  {
    SubstringsOfMe(username);
    if username in Usernames(users) then Err(Taken)
    else if Contains("me", username) then Err(Reserved)
    else Ok(username)
  }

  /** What the user model declares for one character column, and so what the field a
      model serializer derives from it checks: whether blanks are allowed, the maximum
      length, and the column's own validators. */
  datatype ColumnRule = ColumnRule(allowBlank: bool, maxLength: Option<nat>, valid: string -> bool)

  /** The rules of the user model's columns. `role` is a choice column: `role` tells which
      strings are among its choices (the empty string included when blanks are allowed). */
  datatype UserRules = UserRules(username: ColumnRule, email: ColumnRule, firstName: ColumnRule,
                                 lastName: ColumnRule, bio: ColumnRule, role: string -> bool)

  /** The sent string `v` passes the field of a column with rule `rule`. */
  predicate ColumnAccepts(rule: ColumnRule, v: string) {
    var t := Strip(v);
    (t == [] ==> rule.allowBlank)
    && (t != [] ==> (rule.maxLength.Some? ==> |t| <= rule.maxLength.value) && HasNoNul(t) && rule.valid(t))
  }

  /** A column's field in a partial update. */
  function CleanColumn(raw: Option<string>, rule: ColumnRule): (c: Cleaned<string>)
    ensures c.Skipped? <==> raw.None?
    ensures c.Value? <==> raw.Some? && ColumnAccepts(rule, raw.value)
    ensures c.Value? ==> c.value == Strip(raw.value)
    ensures c.Invalid? ==> c.codes != {}
  {
    CleanCharField(raw, true, rule.allowBlank, rule.maxLength, rule.valid)
  }

  /** The value a column has after an accepted update: the trimmed sent value, or the
      current one. */
  function Updated(raw: Option<string>, current: string): string {
    if raw.Some? then Strip(raw.value) else current
  }

  /** The user fields a client may send. */
  datatype UserPatch = UserPatch(username: Option<string>, email: Option<string>,
                                 firstName: Option<string>, lastName: Option<string>,
                                 bio: Option<string>, role: Option<string>)

  predicate EmailTakenByOther(users: map<UserId, User>, id: UserId, email: string) {
    exists other :: other in users && other != id && users[other].email == email
  }

  /** The `username` field of a user update: its column's rules, then `validate_username`
      on the trimmed name. */
  function NameField(raw: Option<string>, rule: ColumnRule, users: map<UserId, User>): (c: Cleaned<string>)
    ensures c.Skipped? <==> raw.None?
    ensures c.Value? <==> raw.Some? && ColumnAccepts(rule, raw.value) && ValidateUsername(Strip(raw.value), users).Ok?
    ensures c.Value? ==> c.value == Strip(raw.value)
    ensures c.Invalid? ==> c.codes != {}
  {
    var column := CleanColumn(raw, rule);
    if column.Value? then
      match ValidateUsername(column.value, users) case Ok(v) => Value(v) case Err(code) => Invalid({code})
    else column
  }

  /** The `email` field of an update of user `id`: its column's rules, then no other user
      may have the trimmed address. */
  function AddressField(raw: Option<string>, rule: ColumnRule, users: map<UserId, User>, id: UserId): (c: Cleaned<string>)
    ensures c.Skipped? <==> raw.None?
    ensures c.Value? <==> raw.Some? && ColumnAccepts(rule, raw.value) && !EmailTakenByOther(users, id, Strip(raw.value))
    ensures c.Value? ==> c.value == Strip(raw.value)
    ensures c.Invalid? ==> c.codes != {}
  {
    var column := CleanColumn(raw, rule);
    if column.Value? && EmailTakenByOther(users, id, column.value) then Invalid({Taken}) else column
  }

  /** The `role` field: a choice, not trimmed; ignored where it is read-only. */
  function RoleField(raw: Option<string>, writable: bool, choice: string -> bool): (c: Cleaned<string>)
    ensures c.Skipped? <==> !writable || raw.None?
    ensures c.Value? <==> writable && raw.Some? && choice(raw.value)
    ensures c.Value? ==> c.value == raw.value
    ensures c.Invalid? ==> c.codes != {}
  {
    if writable && raw.Some? then (if choice(raw.value) then Value(raw.value) else Invalid({NotAChoice}))
    else Skipped
  }

  /** A partial update of user `id` through UserSerializer (`roleWritable`) or
      UserEditSerializer, whose `role` is read-only. Every sent field is checked by its
      column's rules; the trimmed name then goes through `validate_username`, and an
      address another user has is refused, as the store keeps addresses unique. Fields
      the client did not send keep their value; every failure is reported. */
  function PatchUser(patch: UserPatch, roleWritable: bool, id: UserId, users: map<UserId, User>,
                     rules: UserRules): (r: Result<User, set<Issue>>)
    requires id in users
    ensures r.Ok? <==>
              (patch.username.Some? ==> ColumnAccepts(rules.username, patch.username.value)
                                        && ValidateUsername(Strip(patch.username.value), users).Ok?)
              && (patch.email.Some? ==> ColumnAccepts(rules.email, patch.email.value)
                                        && !EmailTakenByOther(users, id, Strip(patch.email.value)))
              && (patch.firstName.Some? ==> ColumnAccepts(rules.firstName, patch.firstName.value))
              && (patch.lastName.Some? ==> ColumnAccepts(rules.lastName, patch.lastName.value))
              && (patch.bio.Some? ==> ColumnAccepts(rules.bio, patch.bio.value))
              && (roleWritable && patch.role.Some? ==> rules.role(patch.role.value))
    ensures r.Ok? ==> r.value == User(Updated(patch.username, users[id].username),
                                      Updated(patch.email, users[id].email),
                                      Updated(patch.firstName, users[id].firstName),
                                      Updated(patch.lastName, users[id].lastName),
                                      Updated(patch.bio, users[id].bio),
                                      if roleWritable then patch.role.GetOr(users[id].role) else users[id].role)
    ensures r.Err? ==> r.error != {}
  {
    var current := users[id];
    var name := NameField(patch.username, rules.username, users);
    var address := AddressField(patch.email, rules.email, users, id);
    var first := CleanColumn(patch.firstName, rules.firstName);
    var last := CleanColumn(patch.lastName, rules.lastName);
    var bio := CleanColumn(patch.bio, rules.bio);
    var role := RoleField(patch.role, roleWritable, rules.role);
    var issues := IssuesOf(Username, name) + IssuesOf(Email, address) + IssuesOf(FirstName, first)
                  + IssuesOf(LastName, last) + IssuesOf(Bio, bio) + IssuesOf(Role, role);
    if name.Invalid? || address.Invalid? || first.Invalid? || last.Invalid? || bio.Invalid? || role.Invalid? then
      IssuesReported(Username, name);
      IssuesReported(Email, address);
      IssuesReported(FirstName, first);
      IssuesReported(LastName, last);
      IssuesReported(Bio, bio);
      IssuesReported(Role, role);
      Err(issues)
    else
      Ok(User(Supplied(name).GetOr(current.username), Supplied(address).GetOr(current.email),
              Supplied(first).GetOr(current.firstName), Supplied(last).GetOr(current.lastName),
              Supplied(bio).GetOr(current.bio), Supplied(role).GetOr(current.role)))
  }

  /** A refused field with a reason contributes an issue. */
  lemma IssuesReported<T>(field: Field, c: Cleaned<T>)
    ensures c.Invalid? && c.codes != {} ==> IssuesOf(field, c) != {}
  {
    if c.Invalid? && c.codes != {} {
      var code :| code in c.codes;
      assert Issue(field, code) in IssuesOf(field, c);
    }
  }

  /** Self-edit cannot change the role, and what the client sends as `role` is ignored. */
  lemma SelfEditIgnoresRole(patch: UserPatch, id: UserId, users: map<UserId, User>, rules: UserRules,
                            role: Option<string>)
    requires id in users
    ensures PatchUser(patch, false, id, users, rules) == PatchUser(patch.(role := role), false, id, users, rules)
    ensures PatchUser(patch, false, id, users, rules).Ok? ==> PatchUser(patch, false, id, users, rules).value.role == users[id].role
  {
  }

  /** `validate_username` does not exempt the user being edited: sending one's own current
      name back, padded or not, is refused. */
  lemma ResendingOwnUsernameRefused(patch: UserPatch, roleWritable: bool, id: UserId, users: map<UserId, User>,
                                    rules: UserRules)
    requires id in users && patch.username.Some? && Strip(patch.username.value) == users[id].username
    ensures PatchUser(patch, roleWritable, id, users, rules).Err?
  {
    assert users[id].username in Usernames(users);
  }

  /** The reserved check sees the trimmed name: " me " is refused like "me", and so is a
      name of spaces only. */
  lemma PaddedReservedNameRefused(patch: UserPatch, roleWritable: bool, id: UserId, users: map<UserId, User>,
                                  rules: UserRules)
    requires id in users && patch.username.Some? && Strip(patch.username.value) in {"", "m", "e", "me"}
    ensures PatchUser(patch, roleWritable, id, users, rules).Err?
  {
  }

  /** An accepted update keeps user names and e-mail addresses unique. */
  lemma {:induction false} PatchKeepsUniqueness(patch: UserPatch, roleWritable: bool, id: UserId,
                                                users: map<UserId, User>, rules: UserRules)
    requires id in users && UniqueUsernames(users) && UniqueEmails(users)
    requires PatchUser(patch, roleWritable, id, users, rules).Ok?
    ensures UniqueUsernames(users[id := PatchUser(patch, roleWritable, id, users, rules).value])
    ensures UniqueEmails(users[id := PatchUser(patch, roleWritable, id, users, rules).value])
  {
  }

  // ---------------------------------------------------------------------------------
  // ReviewSerializer and CommentSerializer

  /** The review fields a client may send; `author` is read-only and never read. */
  datatype ReviewPayload = ReviewPayload(text: Option<string>, score: Option<int>, author: Option<string>)

  /** The validated review fields; in a partial update an absent field is `None`. */
  datatype ReviewData = ReviewData(text: Option<string>, score: Option<int>)

  /** The field-level part of `ReviewSerializer.is_valid()`: a required text that is not
      blank and has no U+0000, and a score inside the bounds; a partial update may leave
      either out. */
  function ReviewFields(p: ReviewPayload, partial: bool, s: Settings): (r: Result<ReviewData, set<Issue>>)
    ensures r.Ok? <==> (!partial ==> p.text.Some? && p.score.Some?)
                       && (p.text.Some? ==> Strip(p.text.value) != [] && HasNoNul(Strip(p.text.value)))
                       && (p.score.Some? ==> s.minScore <= p.score.value <= s.maxScore)
    ensures r.Ok? ==> r.value == ReviewData(if p.text.Some? then Some(Strip(p.text.value)) else None, p.score)
  {
    var text := CleanCharField(p.text, partial, false, None, (t: string) => true);
    var score := CleanScore(p.score, partial, s);
    if text.Invalid? || score.Invalid? then Err(IssuesOf(Text, text) + IssuesOf(Score, score))
    else Ok(ReviewData(Supplied(text), Supplied(score)))
  }

  /** Whatever the client sends as `author` does not reach the validated data. */
  lemma ReviewAuthorIsReadOnly(p: ReviewPayload, partial: bool, s: Settings, author: Option<string>)
    ensures ReviewFields(p, partial, s) == ReviewFields(p.(author := author), partial, s)
  {
  }

  datatype ReviewRefusal = TitleNotFound | OneReviewOnly

  /** `ReviewSerializer.validate`: on POST the route's title must exist and the caller must
      not have reviewed it yet; other methods pass the data through. */
  function ValidateReview(verb: string, author: UserId, titleId: TitleId, titles: set<TitleId>,
                          reviews: map<ReviewId, Review>, data: ReviewData): (r: Result<ReviewData, ReviewRefusal>)
    ensures r.Ok? <==> verb != "POST" || (titleId in titles && !HasReviewBy(reviews, titleId, author))
    ensures r.Ok? ==> r.value == data
  {
    if verb == "POST" then
      if titleId !in titles then Err(TitleNotFound)
      else if HasReviewBy(reviews, titleId, author) then Err(OneReviewOnly)
      else Ok(data)
    else Ok(data)
  }

  /** Off POST, `validate` never refuses and returns the data unchanged. */
  lemma ValidateReviewOnlyChecksPost(verb: string, author: UserId, titleId: TitleId, titles: set<TitleId>,
                                     reviews: map<ReviewId, Review>, data: ReviewData)
    requires verb != "POST"
    ensures ValidateReview(verb, author, titleId, titles, reviews, data) == Ok(data)
  {
  }

  /** On POST, a missing title is reported before any duplicate, and a second review of
      the same title by the same author is refused. */
  lemma ValidateReviewOnPost(author: UserId, titleId: TitleId, titles: set<TitleId>,
                             reviews: map<ReviewId, Review>, data: ReviewData)
    ensures titleId !in titles ==> ValidateReview("POST", author, titleId, titles, reviews, data) == Err(TitleNotFound)
    ensures titleId in titles ==>
              (ValidateReview("POST", author, titleId, titles, reviews, data) == Err(OneReviewOnly)
               <==> HasReviewBy(reviews, titleId, author))
  {
  }

  /** The comment fields a client may send; `author` and `review` are read-only. */
  datatype CommentPayload = CommentPayload(text: Option<string>, review: Option<ReviewId>, author: Option<string>)

  /** The field-level part of `CommentSerializer.is_valid()` on create: the text. */
  function CommentFields(p: CommentPayload): (r: Result<string, set<Issue>>)
    ensures r.Ok? <==> p.text.Some? && Strip(p.text.value) != [] && HasNoNul(Strip(p.text.value))
    ensures r.Ok? ==> r.value == Strip(p.text.value)
  {
    var text := CleanCharField(p.text, false, false, None, (t: string) => true);
    if text.Value? then Ok(text.value) else Err(IssuesOf(Text, text))
  }

  /** Whatever the client sends as `review` or `author` does not reach the validated data. */
  lemma CommentReviewIsReadOnly(p: CommentPayload, review: Option<ReviewId>, author: Option<string>)
    ensures CommentFields(p) == CommentFields(p.(review := review, author := author))
  {
  }
}
