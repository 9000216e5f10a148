/**
 * Application intake: a submission is appended as received. The job id is
 * copied from the form and never checked against the catalog.
 */
module Intake {
  import opened Wrappers
  import opened Records

  /** The record the apply handler stores. */
  function NewApplication(form: ApplicationForm, files: Option<UploadedFiles>): (a: Application)
    ensures a.jobId == form.jobId && a.name == form.name && a.address == form.address
    ensures a.phone == form.phone && a.idNumber == form.idNumber && a.files == files
  {
    Application(form.jobId, form.name, form.address, form.phone, form.idNumber, files)
  }

  /** The collection after a submission: the new one last, the others as they were. */
  function Submit(apps: seq<Application>, form: ApplicationForm, files: Option<UploadedFiles>): (r: seq<Application>)
    ensures |r| == |apps| + 1 && r[..|apps|] == apps && r[|apps|] == NewApplication(form, files)
  {
    apps + [NewApplication(form, files)]
  }
}
