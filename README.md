# Job board: identity, catalog and intake handlers

A Dafny model of the request handlers of a small job-board web server
(`server.js`). The server keeps three collections, each a JSON file read in
full at the start of a request and written back in full:

- **users**, served by sign-up, email verification, sign-in and profile update;
- **jobs**, which the administrator adds to and anyone lists;
- **applications**, which anyone submits.

Two guards sit in front of some handlers. The sign-in guard admits a
session that carries an email. The administrator guard admits only
`admin@example.com`.

The model has two layers:

- **Pure modules.** `Identity`, `Catalog` and `Intake` hold the collection
  logic as functions, from the collection a handler reads to its outcome and
  the collection it writes back. `Identity.Signin`'s contract fixes the order of
  the sign-in checks. `Accounts` states and proves the other properties: kept
  invariants, single-use tokens, and that an account stays locked until its
  own token is presented.
  `Gate` holds the guards. `Store` holds the empty-on-failure load policy.
  `Decimal` holds the clock-to-text conversion that makes job ids.
- **`Server.JobBoard`.** A class with one field per collection file, of
  type `Store.Stored<T>`: missing, unreadable, malformed, or holding records. It has one
  method per handler. Each method loads its collection as a sequence value.
  A mutating handler then replaces the found element of that sequence or
  appends to it, and saves the whole sequence when it succeeds. The sign-in
  and listing handlers only read. Each contract ties the outcome and the new
  file contents to the pure function applied to what was loaded.
  It also states which other files stay unchanged and that the user
  invariant `Accounts.WellFormed` is kept.

Values the server takes from elsewhere are method parameters:

- the password digest that the hashing collaborator returns at sign-up;
- the random verification token;
- the millisecond clock reading used for a job id;
- the stored name of an uploaded document;
- the multipart parser's file metadata.

The hashing collaborator's password comparison is a function-valued field,
`JobBoard.compare`.

Points where the model follows the code rather than a looser reading of it:

- **The sign-in guard uses JavaScript truthiness.** A session bound to the
  empty email is treated like a session with no email and gets
  `Unauthenticated`. Reaching such a session takes a sign-up with an empty
  email field, a verification and a sign-in. The verification token is mailed
  to the empty address and never arrives, so the account can only be verified
  by someone who already has the token.
- **A verify request without a token can succeed.** `users.find(u =>
  u.token === token)` compares `undefined` with `undefined`, so it matches
  the first user whose token was already removed. The request succeeds
  exactly when some user's token was already removed. Otherwise, for example
  on an empty collection or when every user is still pending, it fails with
  InvalidToken. In a well-formed collection that user is already verified, so
  nothing changes (`Accounts.VerifyWithoutToken`).
- **Tokens are single-use per record, not per value.** If two users hold the
  same token, presenting it again verifies the second one
  (`Accounts.SharedTokenVerifiesNextHolder`). Replay fails only when one user
  holds the token (`Accounts.VerifyIsSingleUse`).
- **Profile fields are overwritten, not merged.** A profile update assigns
  all five form fields, so a field missing from the form becomes `undefined`
  (`None`). Only the uploaded document keeps its old value when no file
  comes.
- **A failed read loses data.** A collection file that is missing, unreadable
  or does not parse reads as empty. The next successful write then replaces it with just
  the new record (`Store.SaveAfterFailedRead`).

## Model

| member | source | states |
|---|---|---|
| `Store.Save` | server.js:42-44 | writing a collection replaces the file, and reading it back gives exactly the records written |
| `Store.Bootstrap` | server.js:30-32 | at start-up a missing collection file becomes an empty one; an existing file, readable or not, is left as it is; what the handlers read is the same either way |
| `Store.SaveAfterFailedRead` | server.js:36-44 | a handler that writes after a failed read leaves only the records it added |
| `Gate.AuthRequired` | server.js:107-110 | a request is sent back to sign in exactly when the session has no email or the empty email; otherwise it is served for the session's email |
| `Gate.AdminRequired` | server.js:107-131 | an administrator request is admitted exactly when the session email is `admin@example.com`, and a session it admits also passes the sign-in guard for that email |
| `Identity.Find` | server.js:82 | the lookup returns the position of the first record whose field equals the key exactly, and nothing exactly when no record matches |
| `Identity.Signup` | server.js:57-65 | sign-up fails with DuplicateEmail, changing nothing, exactly when the email is already registered; otherwise it appends one unverified user holding the digest and the token |
| `Identity.Verify` | server.js:79-91 | verify fails with InvalidToken, changing nothing, exactly when no user's token equals the presented one; otherwise the first such user becomes verified and loses its token, and every other user is unchanged |
| `Identity.Signin` | server.js:94-104 | sign-in gives InvalidCredentials when the email is unknown or the password does not match the first user with it, verified or not; NotVerified only after both pass; Ok exactly when all three checks pass |
| `Identity.UpdateProfile` | server.js:113-125 | a profile update fails with UserNotFound, changing nothing, exactly when no user has the email; otherwise only the first user with it is rewritten |
| `Accounts.SignupKeepsWellFormed` | server.js:60-64 | sign-up keeps emails pairwise distinct and keeps every tokenless user verified |
| `Accounts.VerifyKeepsWellFormed` | server.js:82-86 | verification keeps emails pairwise distinct and keeps every tokenless user verified |
| `Accounts.UpdateProfileKeepsWellFormed` | server.js:115-122 | a profile update keeps emails pairwise distinct and keeps every tokenless user verified |
| `Accounts.SignupTwiceRejected` | server.js:60 | a second sign-up with an email just registered is rejected with DuplicateEmail and leaves the collection as it is |
| `Accounts.VerifyIsSingleUse` | server.js:82-89 | a token held by one user verifies exactly that user; presenting it again fails with InvalidToken and changes nothing |
| `Accounts.SharedTokenVerifiesNextHolder` | server.js:82-86 | when two users hold the same token, presenting it a second time verifies the second holder |
| `Accounts.VerifyWithoutToken` | server.js:80-85 | a verify request without a token succeeds exactly when some user is tokenless, and in a well-formed collection it changes nothing |
| `Accounts.UpdateProfileKeepsCredentials` | server.js:115-122 | a profile update keeps every user's email, digest, verification flag and token, and leaves users with other emails untouched |
| `Accounts.UpdateProfileSetsFields` | server.js:117-122 | the updated user holds the five form fields; its uploaded document is the new file if one came and the previous one otherwise |
| `Accounts.SigninAfterVerify` | server.js:57-102 | after sign-up with a fresh token and verification with it, sign-in with a password matching the stored digest succeeds |
| `Accounts.RunKeepsPending` | server.js:57-125 | an unverified user holding token t stays unverified with that token, at its position and with its email, through any requests that do not present t |
| `Accounts.RunKeepsEmails` | server.js:57-125 | no sequence of sign-up, verify and profile requests removes a user or changes the email stored at any position |
| `Accounts.FreshUserLockedUntilVerified` | server.js:63-101 | a newly registered user cannot sign in, with any password and after any other sign-up, verify or profile requests, until a verify request presents its token; this holds for any stored collection, including one in which emails repeat |
| `Decimal.FromNat` | server.js:137 | the text of a clock reading is a non-empty string of digits without a leading zero, and is "0" only for zero |
| `Decimal.ToNatFromNat` | server.js:137 | reading the text of a clock reading back as a number gives the clock reading |
| `Decimal.FromNatInjective` | server.js:137 | distinct clock readings have distinct texts |
| `Catalog.NewJob` | server.js:137 | a new listing has a non-empty id, the text of the clock reading, and the four form fields |
| `Catalog.AddJob` | server.js:134-140 | adding a listing appends exactly one record at the end and keeps earlier listings and their order |
| `Catalog.IdsDistinguishTimes` | server.js:137 | listings added at different clock readings get different ids |
| `Catalog.IdRecoversTime` | server.js:137 | a listing's id is all digits and reads back as the clock reading it was made at |
| `Catalog.AddToEmpty` | server.js:134-145 | one listing added to an empty catalog lists as exactly that listing, with a non-empty id and the given fields |
| `Intake.Submit` | server.js:153-166 | a submission appends exactly one record at the end and keeps earlier submissions and their order |
| `Server.JobBoard.constructor` | server.js:28-32 | start-up makes each missing collection file empty, and the board starts in the user invariant when the stored users satisfy it |
| `Server.JobBoard.Signup` | server.js:57-76 | the sign-up handler gives `Identity.Signup`'s outcome, writes its collection only on success, leaves the other files alone and keeps the user invariant |
| `Server.JobBoard.Verify` | server.js:79-91 | the verify handler gives `Identity.Verify`'s outcome, writes its collection only on success, leaves the other files alone and keeps the user invariant; under the invariant a request without a token leaves the user file unchanged |
| `Server.JobBoard.Signin` | server.js:94-104 | the sign-in handler gives `Identity.Signin`'s outcome and binds the session to the email exactly when that outcome is Ok |
| `Server.JobBoard.UpdateProfile` | server.js:113-125 | the profile handler rejects a session the sign-in guard refuses, changing nothing; otherwise it gives `Identity.UpdateProfile`'s outcome for the session email and writes only on success |
| `Server.JobBoard.AddJob` | server.js:134-140 | the add-job handler gives Forbidden, changing nothing, unless the session is the administrator's; otherwise it writes back what it read with the new listing appended last |
| `Server.JobBoard.ListJobs` | server.js:143-145 | the listing returns the job collection exactly as the handlers read it, so it reflects every listing added since |
| `Server.AddJobThenList` | server.js:134-145 | an administrator's new listing followed by a listing request shows the jobs read before, in order, followed by the new one |
| `Server.JobBoard.Apply` | server.js:153-166 | the apply handler always succeeds, never consults the job collection, and appends the submission to what it read |

## Left out

- HTTP routing, status codes, redirects, response pages and static file serving (server.js:13-14, 75, 87-89, 103, 168): each handler's response is its `Outcome`.
- Password hashing and comparison internals (server.js:61, 99): the model takes the digest that sign-up stores and the comparison function as given. The hash is salted, so it is not a function of the password.
- Sending the verification email (server.js:46-54, 67-73): failures are caught and logged, so it never changes the sign-up result.
- Multipart parsing and storing uploads on disk (server.js:34, 113, 148-152): the uploaded document is an optional stored file name, and the attachments of a submission are the parser's metadata. A file stored before the profile handler fails with UserNotFound is left on disk; that is not modelled.
- File system and JSON encoding in `loadJson`/`saveJson`, and creating the data and upload directories (server.js:28-29, 36-44). Persistence is the `Stored` value of each collection. A failed write in `saveJson` (server.js:43), which reaches the caller as an unhandled error, is not modelled: `Store.Save` always succeeds. Files that parse to a JSON value other than an array of records are not modelled either. The listing sends any parsed value back unchanged. Adding a job or an application throws only when the value is not an array. The user handlers also throw when `find` reaches a `null` entry before a match. The start-up creation of missing files is modelled by `Store.Bootstrap`.
- Session cookie machinery and the session secret (server.js:16-20): a session is a `Session` object holding the bound email.
- `Math.random` and `Date.now` as value sources (server.js:62, 137): the token and the clock reading are parameters, and nothing is claimed about their uniqueness.
- Concurrent requests: the lost update between two overlapping read-modify-write cycles is not modelled. Handlers are modelled one at a time.
- Form and query fields that are absent or not strings: the model takes every field of a request to be a string or absent. A sign-up or sign-in request without a password is not modelled, because bcrypt rejects an undefined password. A sign-up without an email is not modelled either: the source accepts it and stores a record with no email. Extended URL-encoded parsing can also turn any form field into an array or object (`email[]=a`), or the `token` query parameter into an array. JavaScript's `===` then compares by reference, so the same array email could register twice. None of this is modelled.
- `Decimal.FromNat`: models `Number.prototype.toString` only for non-negative integers below 10^21, where JavaScript writes plain decimal digits. Millisecond clock readings are far below that bound.
