/** How the scheduler and the generator meet in the store: the scheduler writes
    generation_queue rows that the generator's selection claims, and the
    generator writes page_cache rows that the scheduler's duplicate check reads. */
module Pipeline {
  import opened Common
  import opened Store
  import opened Fingerprint
  import PendingJobs
  import Scheduler
  import Generator

  /** A row the scheduler admits is claimable by the generator at every instant of
      its window, from its trigger time until an hour later, and at no instant
      before the trigger time. */
  lemma AdmittedJobIsClaimable(queue: seq<WorkItem>, cache: seq<CacheRow>, now: int, userId: string,
                               p: Pattern, freshId: nat, inserts: InsertOutcome, at: int)
    requires Scheduler.Admit(queue, cache, now, userId, p, freshId, inserts).Admitted?
    ensures var row := Scheduler.Admit(queue, cache, now, userId, p, freshId, inserts).row;
      PendingJobs.Eligible(row, at) <==> row.scheduledFor <= at < row.scheduledFor + Scheduler.JOB_VALIDITY
  {
    Scheduler.AdmissionRule(queue, cache, now, userId, p, freshId, inserts);
  }

  /** Closing the loop: once the generator has completed a job whose pattern names
      a query, the scheduler turns the same prediction away as already cached for
      the next thirty minutes (unless it is still queued, which turns it away
      first). */
  lemma GeneratedPageBlocksReadmission(t: Generator.Tables, job: WorkItem, now: int,
                                       generate: Generator.Generate, fetch: Generator.ActivityFetch,
                                       queue: seq<WorkItem>, later: int, freshId: nat, inserts: InsertOutcome)
    requires CacheWellFormed(t.cache, t.nextId)
    requires Generator.ProcessJob(t, job, now, generate, fetch).1 == Generator.PageGenerated
    requires Truthy(job.context.predictedQuery)
    requires later < now + Generator.CACHE_VALIDITY
    requires Scheduler.ConfidenceOf(job.context).Some?
    requires Scheduler.ConfidenceOf(job.context).value >= Scheduler.QUEUE_CONFIDENCE
    requires Scheduler.TriggerOf(job.context, later).Some?
    requires !Scheduler.PendingDuplicate(queue, job.userId, Scheduler.ActionOf(job.context), later)
    ensures Scheduler.Admit(queue, Generator.ProcessJob(t, job, now, generate, fetch).0.cache, later,
                            job.userId, job.context, freshId, inserts) == Scheduler.AlreadyCached
  {
    var q := job.context.predictedQuery.v;
    var components := generate(job, Generator.ContextOf(fetch(job.userId)));
    assert Generator.QueryOf(job.context) == Some(q);
    var relevance := Generator.RelevanceOf(job.context);
    assert Generator.ProcessJob(t, job, now, generate, fetch).0.cache
        == Generator.Upsert(t.cache, t.nextId, job.userId, q, components.value, relevance, now).cache;
    Generator.UpsertIsLive(t.cache, t.nextId, job.userId, q, components.value, relevance, now, later);
    Scheduler.LiveCacheBlocks(queue, Generator.ProcessJob(t, job, now, generate, fetch).0.cache, later,
                              job.userId, job.context, freshId, inserts, q);
  }
}
