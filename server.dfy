/**
 * The request handlers of the job board, over the three collection files.
 * Each mutating handler reads its collection in full, changes the records
 * in memory and, when it succeeds, writes the whole collection back.
 */
module Server {
  import opened Wrappers
  import opened Records
  import opened Store
  import Gate
  import Identity
  import Accounts
  import Catalog
  import Intake

  /** One client's session: the email bound at sign-in, if any. */
  class Session {
    var user: Option<string>

    constructor ()
      ensures user == None
    {
      user := None;
    }
  }

  class JobBoard {
    var usersFile: Stored<User>
    var jobsFile: Stored<Job>
    var appsFile: Stored<Application>

    /** The hashing collaborator's comparison of a raw password with a stored digest. */
    const compare: (string, string) -> bool

    function Users(): seq<User>
      reads this
    {
      Load(usersFile)
    }

    /** The user collection as the handlers read it satisfies the identity invariants. */
    ghost predicate Valid()
      reads this
    {
      Accounts.WellFormed(Users())
    }

    /** Start-up: each missing collection file is created empty. */
    constructor (users: Stored<User>, jobs: Stored<Job>, apps: Stored<Application>, compare: (string, string) -> bool)
      ensures usersFile == Bootstrap(users) && jobsFile == Bootstrap(jobs) && appsFile == Bootstrap(apps)
      ensures this.compare == compare
      ensures Accounts.WellFormed(Load(users)) ==> Valid()
    {
      usersFile := Bootstrap(users);
      jobsFile := Bootstrap(jobs);
      appsFile := Bootstrap(apps);
      this.compare := compare;
    }

    /** Sign-up; `hashed` is the digest of the password, `token` the random verification token. */
    method Signup(email: string, hashed: string, token: string) returns (r: Outcome)
      modifies this
      ensures jobsFile == old(jobsFile) && appsFile == old(appsFile)
      ensures var step := Identity.Signup(old(Users()), email, hashed, token);
        r == step.outcome &&
        usersFile == if r == Ok then Save(step.state) else old(usersFile)
      ensures old(Valid()) ==> Valid()
    {
      var users := Load(usersFile);
      var found := Identity.Find(users, Identity.EmailIs(email));
      if found.Some? {
        return DuplicateEmail;
      }
      users := users + [Identity.NewUser(email, hashed, token)];
      usersFile := Save(users);
      r := Ok;
      if old(Valid()) { Accounts.SignupKeepsWellFormed(old(Users()), email, hashed, token); }
    }

    /** Email verification with the token of the query string, `None` when it has none. */
    method Verify(token: Option<string>) returns (r: Outcome)
      modifies this
      ensures jobsFile == old(jobsFile) && appsFile == old(appsFile)
      ensures var step := Identity.Verify(old(Users()), token);
        r == step.outcome &&
        usersFile == if r == Ok then Save(step.state) else old(usersFile)
      ensures old(Valid()) ==> Valid()
      ensures old(Valid()) && token == None ==> usersFile == old(usersFile)
    {
      var users := Load(usersFile);
      var found := Identity.Find(users, Identity.TokenIs(token));
      if found.None? {
        return InvalidToken;
      }
      var k := found.value;
      users := users[k := Identity.Verified(users[k])];
      usersFile := Save(users);
      r := Ok;
      if old(Valid()) {
        Accounts.VerifyKeepsWellFormed(old(Users()), token);
        if token == None { Accounts.VerifyWithoutToken(old(Users())); }
      }
    }

    /** Sign-in; on success the session is bound to the email. */
    method Signin(email: string, password: string, session: Session) returns (r: Outcome)
      modifies session
      ensures r == Identity.Signin(Users(), email, password, compare)
      ensures session.user == if r == Ok then Some(email) else old(session.user)
    {
      var users := Load(usersFile);
      var found := Identity.Find(users, Identity.EmailIs(email));
      if found.None? {
        return InvalidCredentials;
      }
      var user := users[found.value];
      if !compare(password, user.password) {
        return InvalidCredentials;
      }
      if !user.verified {
        return NotVerified;
      }
      session.user := Some(user.email);
      r := Ok;
    }

    /** Profile update for the signed-in user; `file` is the stored name of the uploaded document, if one came. */
    method UpdateProfile(session: Session, form: ProfileForm, file: Option<string>) returns (r: Outcome)
      modifies this
      ensures jobsFile == old(jobsFile) && appsFile == old(appsFile)
      ensures Gate.AuthRequired(session.user).None? ==> r == Unauthenticated && usersFile == old(usersFile)
      ensures Gate.AuthRequired(session.user).Some? ==>
        var step := Identity.UpdateProfile(old(Users()), session.user.value, form, file);
        r == step.outcome &&
        usersFile == if r == Ok then Save(step.state) else old(usersFile)
      ensures old(Valid()) ==> Valid()
    {
      var email := Gate.AuthRequired(session.user);
      if email.None? {
        return Unauthenticated;
      }
      var users := Load(usersFile);
      var found := Identity.Find(users, Identity.EmailIs(email.value));
      if found.None? {
        return UserNotFound;
      }
      var k := found.value;
      users := users[k := Identity.Profiled(users[k], form, file)];
      usersFile := Save(users);
      r := Ok;
      if old(Valid()) { Accounts.UpdateProfileKeepsWellFormed(old(Users()), email.value, form, file); }
    }

    /** Adding a listing, for the administrator only; `now` is the clock reading in milliseconds. */
    method AddJob(session: Session, form: JobForm, now: nat) returns (r: Outcome)
      modifies this
      ensures usersFile == old(usersFile) && appsFile == old(appsFile)
      ensures r == (if Gate.AdminRequired(session.user) then Ok else Forbidden)
      ensures jobsFile == if r == Ok then Save(Catalog.AddJob(Load(old(jobsFile)), now, form)) else old(jobsFile)
      ensures r == Ok ==> Load(jobsFile) == Load(old(jobsFile)) + [Catalog.NewJob(now, form)]
    {
      if !Gate.AdminRequired(session.user) {
        return Forbidden;
      }
      var jobs := Load(jobsFile);
      jobs := jobs + [Catalog.NewJob(now, form)];
      jobsFile := Save(jobs);
      r := Ok;
    }

    /** The listing page's data: the whole job collection in insertion order. */
    method ListJobs() returns (jobs: seq<Job>)
      ensures jobs == Load(jobsFile)
    {
      jobs := Load(jobsFile);
    }

    /**
     * An applicant submission, open to anyone and accepted whatever job id it
     * names; `files` is what the upload parser reports, `None` for a
     * request that is not multipart.
     */
    method Apply(form: ApplicationForm, files: Option<UploadedFiles>) returns (r: Outcome)
      modifies this
      ensures r == Ok
      ensures usersFile == old(usersFile) && jobsFile == old(jobsFile)
      ensures appsFile == Save(Intake.Submit(Load(old(appsFile)), form, files))
    {
      var apps := Load(appsFile);
      apps := apps + [Intake.NewApplication(form, files)];
      appsFile := Save(apps);
      r := Ok;
    }
  }

  /**
   * The administrator adds a listing and the listing page is then loaded:
   * it shows the jobs read before, in their order, followed by the new one.
   */
  method AddJobThenList(board: JobBoard, admin: Session, form: JobForm, now: nat) returns (jobs: seq<Job>)
    requires admin.user == Some(Gate.AdminEmail)
    modifies board
    ensures jobs == Load(old(board.jobsFile)) + [Catalog.NewJob(now, form)]
    ensures board.usersFile == old(board.usersFile) && board.appsFile == old(board.appsFile)
  {
    var r := board.AddJob(admin, form, now);
    jobs := board.ListJobs();
  }
}
