/**
 * The job catalog: adding a listing and listing them all. A listing's id
 * is the decimal text of the millisecond clock reading at the time it was
 * added.
 */
module Catalog {
  import opened Records
  import Decimal

  /** The listing the add-job handler creates at clock reading `now`. */
  function NewJob(now: nat, form: JobForm): (j: Job)
    ensures j.id == Decimal.FromNat(now) && j.id != []
    ensures j.title == form.title && j.location == form.location
    ensures j.jobType == form.jobType && j.description == form.description
  {
    Job(Decimal.FromNat(now), form.title, form.location, form.jobType, form.description)
  }

  /** The collection after adding one listing: the new one last, the others as they were. */
  function AddJob(jobs: seq<Job>, now: nat, form: JobForm): (r: seq<Job>)
    ensures |r| == |jobs| + 1 && r[..|jobs|] == jobs && r[|jobs|] == NewJob(now, form)
  {
    jobs + [NewJob(now, form)]
  }

  /** Two listings added at different clock readings have different ids. */
  lemma IdsDistinguishTimes(now1: nat, now2: nat, f1: JobForm, f2: JobForm)
    requires now1 != now2
    ensures NewJob(now1, f1).id != NewJob(now2, f2).id
  {
    if Decimal.FromNat(now1) == Decimal.FromNat(now2) {
      Decimal.FromNatInjective(now1, now2);
    }
  }

  /** The id of a listing gives back the clock reading it was created at. */
  lemma IdRecoversTime(now: nat, form: JobForm)
    ensures Decimal.AllDigits(NewJob(now, form).id) && Decimal.ToNat(NewJob(now, form).id) == now
  {
    Decimal.ToNatFromNat(now);
  }

  /** Adding one listing to an empty catalog yields exactly that listing, with a non-empty id. */
  lemma AddToEmpty(now: nat, form: JobForm)
    ensures var jobs := AddJob([], now, form);
      |jobs| == 1 && jobs[0].id != [] &&
      jobs[0].title == form.title && jobs[0].location == form.location &&
      jobs[0].jobType == form.jobType && jobs[0].description == form.description
  {
  }
}
