/**
 * Properties of the identity manager: the invariants its handlers keep,
 * single-use tokens, and that a new account stays locked until its own
 * token is presented.
 */
module Accounts {
  import opened Wrappers
  import opened Records
  import opened Identity

  /** No two users share an email. */
  predicate DistinctEmails(users: seq<User>) {
    forall i, j :: 0 <= i < j < |users| ==> users[i].email != users[j].email
  }

  /** A user without a token has been verified (tokens are removed only by verification). */
  predicate TokenlessVerified(users: seq<User>) {
    forall i :: 0 <= i < |users| ==> users[i].token.None? ==> users[i].verified
  }

  predicate WellFormed(users: seq<User>) {
    DistinctEmails(users) && TokenlessVerified(users)
  }

  lemma SignupKeepsWellFormed(users: seq<User>, email: string, hashed: string, token: string)
    requires WellFormed(users)
    ensures WellFormed(Signup(users, email, hashed, token).state)
  {
  }

  lemma VerifyKeepsWellFormed(users: seq<User>, token: Option<string>)
    requires WellFormed(users)
    ensures WellFormed(Verify(users, token).state)
  {
  }

  lemma UpdateProfileKeepsWellFormed(users: seq<User>, email: string, form: ProfileForm, file: Option<string>)
    requires WellFormed(users)
    ensures WellFormed(UpdateProfile(users, email, form, file).state)
  {
  }

  /** A second sign-up with an email that was just registered is rejected and changes nothing. */
  lemma SignupTwiceRejected(users: seq<User>, email: string, h1: string, t1: string, h2: string, t2: string)
    requires Signup(users, email, h1, t1).outcome == Ok
    ensures var after := Signup(users, email, h1, t1).state;
      Signup(after, email, h2, t2) == Step(DuplicateEmail, after)
  {
    var after := Signup(users, email, h1, t1).state;
    assert after[|users|].email == email;
  }

  /** Exactly one user holds the token `t`. */
  predicate SoleHolder(users: seq<User>, t: string, k: nat) {
    k < |users| && users[k].token == Some(t) &&
    forall j :: 0 <= j < |users| && j != k ==> users[j].token != Some(t)
  }

  /**
   * A token held by one user verifies that user and nobody else; presenting
   * it again is rejected and changes nothing.
   */
  lemma VerifyIsSingleUse(users: seq<User>, t: string, k: nat)
    requires SoleHolder(users, t, k)
    ensures Verify(users, Some(t)) == Step(Ok, users[k := Verified(users[k])])
    ensures var after := Verify(users, Some(t)).state;
      Verify(after, Some(t)) == Step(InvalidToken, after)
  {
  }

  /**
   * Tokens are single-use per record, not per value: when a second user
   * happens to hold the same token, presenting it again verifies that user.
   */
  lemma SharedTokenVerifiesNextHolder(users: seq<User>, t: string, i: nat, j: nat)
    requires IsFirst(users, TokenIs(Some(t)), i)
    requires i < j < |users| && users[j].token == Some(t)
    requires forall m :: i < m < j ==> users[m].token != Some(t)
    ensures var after := Verify(users, Some(t)).state;
      Verify(after, Some(t)) == Step(Ok, after[j := Verified(after[j])])
  {
  }

  /**
   * A verify request without a token selects the first user whose token was
   * already removed: it reports success exactly when some account is
   * tokenless, and in a well-formed collection it changes nothing.
   */
  lemma VerifyWithoutToken(users: seq<User>)
    requires TokenlessVerified(users)
    ensures Verify(users, None).state == users
    ensures Verify(users, None).outcome == Ok <==> exists j :: 0 <= j < |users| && users[j].token.None?
  {
  }

  /**
   * A profile update never touches credentials: every user keeps the same
   * email, digest, verification flag and token, and every user other than
   * the first one with the session email is unchanged.
   */
  lemma UpdateProfileKeepsCredentials(users: seq<User>, email: string, form: ProfileForm, file: Option<string>)
    ensures var after := UpdateProfile(users, email, form, file).state;
      |after| == |users| &&
      forall i :: 0 <= i < |users| ==>
        && after[i].email == users[i].email
        && after[i].password == users[i].password
        && after[i].verified == users[i].verified
        && after[i].token == users[i].token
        && (users[i].email != email ==> after[i] == users[i])
  {
  }

  /**
   * After the profile update of the first user with the session email, that
   * user holds the five form fields, and its upload is the new file when one
   * came and the previous upload otherwise.
   */
  lemma UpdateProfileSetsFields(users: seq<User>, k: nat, form: ProfileForm, file: Option<string>)
    requires k < |users| && IsFirst(users, EmailIs(users[k].email), k)
    ensures var after := UpdateProfile(users, users[k].email, form, file).state;
      && after[k].phone == form.phone
      && after[k].familyPhone == form.familyPhone
      && after[k].age == form.age
      && after[k].address == form.address
      && after[k].idNumber == form.idNumber
      && after[k].idUpload == (if file.Some? then file else users[k].idUpload)
  {
  }

  /** A freshly registered user may sign in once its token has been presented, with the password whose digest was stored. */
  lemma SigninAfterVerify(users: seq<User>, email: string, password: string, hashed: string, token: string,
                          compare: (string, string) -> bool)
    requires forall j :: 0 <= j < |users| ==> users[j].token != Some(token)
    requires Signup(users, email, hashed, token).outcome == Ok
    requires compare(password, hashed)
    ensures var registered := Signup(users, email, hashed, token).state;
      var verified := Verify(registered, Some(token));
      verified.outcome == Ok && Signin(verified.state, email, password, compare) == Ok
  {
    var registered := Signup(users, email, hashed, token).state;
    var n := |users|;
    assert SoleHolder(registered, token, n);
    VerifyIsSingleUse(registered, token, n);
    var after := Verify(registered, Some(token)).state;
    assert IsFirst(after, EmailIs(email), n);
  }

  /** The requests that change the user collection. */
  datatype Request =
    | SignupRequest(email: string, hashed: string, token: string)
    | VerifyRequest(presented: Option<string>)
    | ProfileRequest(sessionEmail: string, form: ProfileForm, file: Option<string>)

  function Handle(users: seq<User>, req: Request): Step<seq<User>> {
    match req
    case SignupRequest(e, h, t) => Signup(users, e, h, t)
    case VerifyRequest(t) => Verify(users, t)
    case ProfileRequest(e, f, file) => UpdateProfile(users, e, f, file)
  }

  /** The user collection after a sequence of requests, served one after another. */
  function Run(users: seq<User>, reqs: seq<Request>): seq<User>
    decreases |reqs|
  {
    if reqs == [] then users else Run(Handle(users, reqs[0]).state, reqs[1..])
  }

  /** User `k` is registered with email `email`, unverified, holding token `t`. */
  predicate Pending(users: seq<User>, k: nat, email: string, t: string) {
    k < |users| && users[k].email == email && !users[k].verified && users[k].token == Some(t)
  }

  lemma HandleKeepsPending(users: seq<User>, req: Request, k: nat, email: string, t: string)
    requires Pending(users, k, email, t)
    requires req != VerifyRequest(Some(t))
    ensures Pending(Handle(users, req).state, k, email, t)
  {
  }

  lemma {:induction false} RunKeepsPending(users: seq<User>, reqs: seq<Request>, k: nat, email: string, t: string)
    requires Pending(users, k, email, t)
    requires forall i :: 0 <= i < |reqs| ==> reqs[i] != VerifyRequest(Some(t))
    ensures Pending(Run(users, reqs), k, email, t)
    decreases |reqs|
  {
    if reqs != [] {
      HandleKeepsPending(users, reqs[0], k, email, t);
      RunKeepsPending(Handle(users, reqs[0]).state, reqs[1..], k, email, t);
    }
  }

  /** No request removes a user or changes a stored email. */
  lemma HandleKeepsEmails(users: seq<User>, req: Request)
    ensures var after := Handle(users, req).state;
      |after| >= |users| && forall j :: 0 <= j < |users| ==> after[j].email == users[j].email
  {
    match req
    case SignupRequest(e, h, tok) =>
    case VerifyRequest(tok) =>
    case ProfileRequest(e, f, file) =>
      UpdateProfileKeepsCredentials(users, e, f, file);
  }

  lemma {:induction false} RunKeepsEmails(users: seq<User>, reqs: seq<Request>)
    ensures var after := Run(users, reqs);
      |after| >= |users| && forall j :: 0 <= j < |users| ==> after[j].email == users[j].email
    decreases |reqs|
  {
    if reqs != [] {
      HandleKeepsEmails(users, reqs[0]);
      RunKeepsEmails(Handle(users, reqs[0]).state, reqs[1..]);
    }
  }

  /**
   * A freshly registered user cannot sign in, whatever password it gives and
   * whatever other requests are served, until a verify request carries its
   * token. This holds for any stored collection, including one in which
   * other emails repeat.
   */
  lemma {:induction false} FreshUserLockedUntilVerified(users: seq<User>, email: string, hashed: string, token: string,
                                     reqs: seq<Request>, password: string, compare: (string, string) -> bool)
    requires Signup(users, email, hashed, token).outcome == Ok
    requires forall i :: 0 <= i < |reqs| ==> reqs[i] != VerifyRequest(Some(token))
    ensures Signin(Run(Signup(users, email, hashed, token).state, reqs), email, password, compare) != Ok
  {
    var registered := Signup(users, email, hashed, token).state;
    var n := |users|;
    assert Pending(registered, n, email, token);
    RunKeepsPending(registered, reqs, n, email, token);
    RunKeepsEmails(registered, reqs);
    var final := Run(registered, reqs);
    assert forall j :: 0 <= j < n ==> final[j].email == registered[j].email == users[j].email;
    assert IsFirst(final, EmailIs(email), n);
  }
}
