/** plugin/utils/thread_job.py: a job for the thread pool and the relation
    that lets a newer job replace a pending one. */
module ThreadJobs {
  import opened Wrappers

  const UpdateTag: string := "update"
  const ClearTag: string := "clear"
  const CompleteTag: string := "complete"
  const CompleteIncludesTag: string := "complete_includes"
  const InfoTag: string := "info"

  /** A job: its name, and the future that tracks it once submitted (a
      handle of the pool, here its number). */
  datatype ThreadJob = ThreadJob(name: string, future: Option<nat>)

  /** `ThreadJob(name, callback, function, args)`: not submitted yet. */
  function NewJob(name: string): (j: ThreadJob)
    ensures j.name == name && j.future.None?
  {
    ThreadJob(name, None)
  }

  /** `__is_high_priority`: an update or a clear job. */
  predicate IsHighPriority(j: ThreadJob) {
    j.name == UpdateTag || j.name == ClearTag
  }

  /** `is_same_type_as` */
  predicate IsSameTypeAs(j: ThreadJob, other: ThreadJob) {
    j.name == other.name
  }

  /** `overrides`: a job of the same type, or a low-priority job when this
      one is high priority. */
  predicate Overrides(j: ThreadJob, other: ThreadJob) {
    if IsSameTypeAs(j, other) then true
    else IsHighPriority(j) && !IsHighPriority(other)
  }

  /** Every job overrides itself, and same-type is symmetric. */
  lemma OverridesReflexive(j: ThreadJob, k: ThreadJob)
    ensures Overrides(j, j)
    ensures IsSameTypeAs(j, k) <==> IsSameTypeAs(k, j)
  {
  }

  /** An update or clear job overrides every job that is neither. */
  lemma HighPriorityOverrides(j: ThreadJob, other: ThreadJob)
    requires j.name == UpdateTag || j.name == ClearTag
    requires other.name != UpdateTag && other.name != ClearTag
    ensures Overrides(j, other)
  {
  }

  /** Any other job only overrides jobs of its own name. */
  lemma LowPriorityOverridesSameName(j: ThreadJob, other: ThreadJob)
    requires j.name != UpdateTag && j.name != ClearTag
    ensures Overrides(j, other) <==> j.name == other.name
  {
  }

  /** An update job and a clear job never override each other. */
  lemma UpdateClearIndependent(u: ThreadJob, c: ThreadJob)
    requires u.name == UpdateTag && c.name == ClearTag
    ensures !Overrides(u, c) && !Overrides(c, u)
  {
  }

  /** Overriding depends on nothing but the two names. */
  lemma OverridesByName(j: ThreadJob, other: ThreadJob, j2: ThreadJob, other2: ThreadJob)
    requires j.name == j2.name && other.name == other2.name
    ensures Overrides(j, other) <==> Overrides(j2, other2)
  {
  }
}
