/**
 * The records of the three persisted collections (users, jobs, applications)
 * and the outcomes a request handler can produce.
 *
 * Every form field that the browser may leave out is an `Option<string>`:
 * `None` is JavaScript's `undefined`, which JSON serialisation drops from the
 * stored record and which reads back as `undefined`.
 */
module Records {
  import opened Wrappers

  /** A registered account. `password` holds the salted digest, never the raw password. */
  datatype User = User(
    email: string,
    password: string,
    verified: bool,
    token: Option<string>,
    phone: Option<string>,
    familyPhone: Option<string>,
    age: Option<string>,
    address: Option<string>,
    idNumber: Option<string>,
    idUpload: Option<string>)

  /** A job listing; `id` is the decimal text of the creation time in milliseconds. */
  datatype Job = Job(
    id: string,
    title: Option<string>,
    location: Option<string>,
    jobType: Option<string>,
    description: Option<string>)

  /** What the upload parser reports about one stored attachment. */
  datatype FileMeta = FileMeta(originalName: string, storedName: string, size: nat, mimeType: string)

  /** The attachments of a submission, by form field name. */
  type UploadedFiles = map<string, seq<FileMeta>>

  /** One applicant submission. `files` is `None` when the request was not multipart. */
  datatype Application = Application(
    jobId: Option<string>,
    name: Option<string>,
    address: Option<string>,
    phone: Option<string>,
    idNumber: Option<string>,
    files: Option<UploadedFiles>)

  /** The profile fields of an update-profile form. */
  datatype ProfileForm = ProfileForm(
    phone: Option<string>,
    familyPhone: Option<string>,
    age: Option<string>,
    address: Option<string>,
    idNumber: Option<string>)

  /** The fields of an add-job form. */
  datatype JobForm = JobForm(
    title: Option<string>,
    location: Option<string>,
    jobType: Option<string>,
    description: Option<string>)

  /** The fields of an application form. */
  datatype ApplicationForm = ApplicationForm(
    jobId: Option<string>,
    name: Option<string>,
    address: Option<string>,
    phone: Option<string>,
    idNumber: Option<string>)

  /** The result of a handler, in place of an HTTP status, page or redirect. */
  datatype Outcome =
    | Ok
    | DuplicateEmail
    | InvalidToken
    | InvalidCredentials
    | NotVerified
    | UserNotFound
    | Unauthenticated
    | Forbidden

  /** A handler's outcome together with the collection it leaves behind. */
  datatype Step<S> = Step(outcome: Outcome, state: S)
}
