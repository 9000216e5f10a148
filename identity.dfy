/**
 * The identity manager: the collection logic of the sign-up, verify,
 * sign-in and update-profile handlers over the user collection, each as a
 * function from the collection read at the start of the request to the
 * outcome and the collection written back.
 */
module Identity {
  import opened Wrappers
  import opened Records

  /** The lookups the handlers make with `users.find`: exact (`===`) comparison of one field. */
  datatype Query = EmailIs(email: string) | TokenIs(token: Option<string>)

  predicate Selects(q: Query, u: User) {
    match q
    case EmailIs(e) => u.email == e
    case TokenIs(t) => u.token == t
  }

  /** `k` is the position of the first user the query selects. */
  predicate IsFirst(users: seq<User>, q: Query, k: nat) {
    k < |users| && Selects(q, users[k]) && forall j :: 0 <= j < k ==> !Selects(q, users[j])
  }

  /** `users.find(...)`, returning the position of the element it finds. */
  function Find(users: seq<User>, q: Query): (r: Option<nat>)
    ensures r.Some? ==> IsFirst(users, q, r.value)
    ensures r.None? <==> forall j :: 0 <= j < |users| ==> !Selects(q, users[j])
    decreases |users|
  {
    if users == [] then None
    else if Selects(q, users[0]) then Some(0)
    else match Find(users[1..], q)
      case None => None
      case Some(k) => Some(k + 1)
  }

  predicate EmailTaken(users: seq<User>, email: string) {
    exists j :: 0 <= j < |users| && users[j].email == email
  }

  /** The record sign-up stores: unverified, holding the token, no profile yet. */
  function NewUser(email: string, hashed: string, token: string): User {
    User(email, hashed, false, Some(token), None, None, None, None, None, None)
  }

  /** The record verification leaves: verified, token removed. */
  function Verified(u: User): User {
    u.(verified := true, token := None)
  }

  /** The record a profile update leaves: the five form fields overwritten, the upload replaced only when a file came. */
  function Profiled(u: User, form: ProfileForm, file: Option<string>): User {
    u.(phone := form.phone, familyPhone := form.familyPhone, age := form.age,
       address := form.address, idNumber := form.idNumber,
       idUpload := if file.Some? then file else u.idUpload)
  }

  /**
   * Sign-up, given the digest the hashing collaborator produced for the
   * password and the random token.
   */
  function Signup(users: seq<User>, email: string, hashed: string, token: string): (r: Step<seq<User>>)
    ensures r.outcome == DuplicateEmail <==> EmailTaken(users, email)
    ensures r.outcome == DuplicateEmail ==> r.state == users
    ensures r.outcome != DuplicateEmail ==> r.outcome == Ok && r.state == users + [NewUser(email, hashed, token)]
  {
    match Find(users, EmailIs(email))
    case Some(_) => Step(DuplicateEmail, users)
    case None => Step(Ok, users + [NewUser(email, hashed, token)])
  }

  /**
   * Verification with the token of the query string (`None` when the query
   * has none): the first user whose token equals it is verified and loses
   * its token.
   */
  function Verify(users: seq<User>, token: Option<string>): (r: Step<seq<User>>)
    ensures r.outcome == InvalidToken <==> forall j :: 0 <= j < |users| ==> users[j].token != token
    ensures r.outcome == InvalidToken ==> r.state == users
    ensures r.outcome != InvalidToken ==>
      r.outcome == Ok &&
      exists k: nat :: IsFirst(users, TokenIs(token), k) && r.state == users[k := Verified(users[k])]
  {
    match Find(users, TokenIs(token))
    case None => Step(InvalidToken, users)
    case Some(k) => Step(Ok, users[k := Verified(users[k])])
  }

  /**
   * Sign-in, given the collaborator's digest comparison: the email is looked
   * up first, then the password is compared, and only then is the
   * verification flag consulted.
   */
  function Signin(users: seq<User>, email: string, password: string, compare: (string, string) -> bool): (r: Outcome)
    ensures r == Ok || r == InvalidCredentials || r == NotVerified
    ensures r == Ok <==>
      exists k: nat :: IsFirst(users, EmailIs(email), k) && compare(password, users[k].password) && users[k].verified
    ensures r == NotVerified <==>
      exists k: nat :: IsFirst(users, EmailIs(email), k) && compare(password, users[k].password) && !users[k].verified
    ensures r == InvalidCredentials <==>
      !EmailTaken(users, email) ||
      exists k: nat :: IsFirst(users, EmailIs(email), k) && !compare(password, users[k].password)
  {
    match Find(users, EmailIs(email))
    case None => InvalidCredentials
    case Some(k) =>
      if !compare(password, users[k].password) then InvalidCredentials
      else if !users[k].verified then NotVerified
      else Ok
  }

  /** Profile update for the signed-in email. */
  function UpdateProfile(users: seq<User>, email: string, form: ProfileForm, file: Option<string>): (r: Step<seq<User>>)
    ensures r.outcome == UserNotFound <==> !EmailTaken(users, email)
    ensures r.outcome == UserNotFound ==> r.state == users
    ensures r.outcome != UserNotFound ==>
      r.outcome == Ok &&
      exists k: nat :: IsFirst(users, EmailIs(email), k) && r.state == users[k := Profiled(users[k], form, file)]
  {
    match Find(users, EmailIs(email))
    case None => Step(UserNotFound, users)
    case Some(k) => Step(Ok, users[k := Profiled(users[k], form, file)])
  }
}
