/**
 * `ExportService`: export jobs kept in an in-memory cache keyed by export id,
 * with the file content beside each completed job, expiry after 24 hours,
 * request validation and job statistics. The clock, the fresh id and the PDF
 * renderer's outcome are parameters.
 */
module ExportService {
  import opened Wrappers
  import opened Basics
  import opened ResumeData

  type Bytes = seq<bv8>

  /** `timedelta(hours=24)`, in seconds. */
  const Day := 24 * 60 * 60

  datatype Status = Pending | Completed | Failed

  /** The job record the cache stores under the export id. */
  datatype Job = Job(
    exportId: string,
    userId: string,
    resumeTitle: string,
    exportFormat: string,
    status: Status,
    createdAt: int,
    expiresAt: int,
    downloadUrl: Option<string>,
    fileSize: Option<nat>,
    errorMessage: Option<string>,
    completedAt: Option<int>)

  /** A cache value: a job record, or the bytes of an exported file. */
  datatype Entry = JobEntry(job: Job) | FileContent(bytes: Bytes)

  /** The key the file content of job `id` is stored under. */
  function ContentKey(id: string): (k: string)
    ensures k != id
  {
    id + "_content"
  }

  /** `now > expires_at`. */
  predicate Expired(job: Job, now: int)
  {
    now > job.expiresAt
  }

  /** What `get_export_status` reports: the stored job while it is unexpired, nothing otherwise. */
  function StatusOf(cache: map<string, Entry>, id: string, now: int): (r: Option<Job>)
    ensures r.Some? <==> id in cache && cache[id].JobEntry? && !Expired(cache[id].job, now)
    ensures r.Some? ==> r.value == cache[id].job && r.value.expiresAt >= now
  {
    if id in cache && cache[id].JobEntry? && !Expired(cache[id].job, now) then Some(cache[id].job) else None
  }

  /** What `get_export_file` returns: the stored bytes of a live, completed job. */
  function FileOf(cache: map<string, Entry>, id: string, now: int): (r: Option<Bytes>)
    ensures r.Some? ==> StatusOf(cache, id, now).Some? && StatusOf(cache, id, now).value.status == Completed
    ensures r.Some? ==> ContentKey(id) in cache && cache[ContentKey(id)] == FileContent(r.value)
  {
    match StatusOf(cache, id, now)
    case None => None
    case Some(job) =>
      if job.status == Completed && ContentKey(id) in cache && cache[ContentKey(id)].FileContent? then
        Some(cache[ContentKey(id)].bytes)
      else None
  }

  /**
   * A completed job stored with its file can be downloaded, byte for byte,
   * until it expires, whatever the cache held before.
   */
  lemma CreatedFileRoundTrip(cache: map<string, Entry>, job: Job, bytes: Bytes, now: int)
    requires job.status == Completed && !Expired(job, now)
    ensures StatusOf(cache[job.exportId := JobEntry(job)][ContentKey(job.exportId) := FileContent(bytes)], job.exportId, now) == Some(job)
    ensures FileOf(cache[job.exportId := JobEntry(job)][ContentKey(job.exportId) := FileContent(bytes)], job.exportId, now) == Some(bytes)
  {
    var id := job.exportId;
    var c := cache[id := JobEntry(job)][ContentKey(id) := FileContent(bytes)];
    assert c[id] == JobEntry(job);
  }

  /** Once a job is cleaned up, neither its status nor its file can be had. */
  lemma CleanedUpIsGone(cache: map<string, Entry>, id: string, now: int)
    ensures StatusOf(cache - {id, ContentKey(id)}, id, now).None?
    ensures FileOf(cache - {id, ContentKey(id)}, id, now).None?
  {
  }

  /** A pending or failed job never yields a file. */
  lemma OnlyCompletedJobsDownload(cache: map<string, Entry>, id: string, now: int)
    requires id in cache && cache[id].JobEntry? && cache[id].job.status != Completed
    ensures FileOf(cache, id, now).None?
  {
  }

  predicate IsCompleted(j: Job) { j.status == Completed }
  predicate IsFailed(j: Job) { j.status == Failed }
  predicate IsPending(j: Job) { j.status == Pending }
  predicate AnyJob(j: Job) { true }

  /** Whether a job belongs to `userId`. */
  function OwnedBy(userId: string): Job -> bool
  {
    (j: Job) => j.userId == userId
  }

  /** The keys a clean-up of the jobs `ids` removes: each id and its content key. */
  function CleanupKeys(ids: set<string>): set<string>
  {
    ids + set id | id in ids :: ContentKey(id)
  }

  /** The statistics `get_export_statistics` reports; `userJobs` only when a user is given. */
  datatype Statistics = Statistics(
    totalJobs: nat,
    completedJobs: nat,
    failedJobs: nat,
    pendingJobs: nat,
    successRate: real,
    userJobs: Option<nat>)

  /** The outcome of `validate_export_request`: valid, or the first problem found. */
  datatype RequestCheck = Valid | Invalid(message: string)

  const SupportedFormats: set<string> := {"pdf"}

  /**
   * `validate_export_request`: the format must be supported, the content
   * non-empty, and the first and last names present, checked in that order.
   */
  function ValidateExportRequest(content: ResumeContent, format: string): (r: RequestCheck)
    ensures r == Valid <==>
      format in SupportedFormats && !IsEmptyContent(content)
      && Personal(content).firstName != [] && Personal(content).lastName != []
    ensures format !in SupportedFormats ==> r == Invalid("Unsupported export format: " + format)
  {
    if format !in SupportedFormats then Invalid("Unsupported export format: " + format)
    else if IsEmptyContent(content) then Invalid("Resume content is empty")
    else if Personal(content).firstName == [] || Personal(content).lastName == [] then
      Invalid("Personal information (first_name, last_name) is required for export")
    else Valid
  }

  /** The cache of export jobs and file contents. */
  class Exporter {
    var cache: map<string, Entry>

    constructor()
      ensures cache == map[]
    {
      cache := map[];
    }

    /** The ids of the jobs that have expired by `now`. */
    function ExpiredIds(now: int): (ids: set<string>)
      reads this
      ensures ids <= cache.Keys
    {
      set id | id in cache && cache[id].JobEntry? && Expired(cache[id].job, now)
    }

    /** The ids of the stored jobs that satisfy `p`. */
    function JobsWhere(p: Job -> bool): (ids: set<string>)
      reads this
      ensures ids <= cache.Keys
    {
      set id | id in cache && cache[id].JobEntry? && p(cache[id].job)
    }

    /**
     * `create_export_job`: store a pending job under the fresh id `id`,
     * expiring a day after `now`. A PDF job is rendered at once: it completes
     * with the file stored under its content key, or fails with the
     * renderer's message. Jobs in any other format stay pending.
     */
    method CreateExportJob(title: string, format: string, userId: string, now: int, id: string, pdf: Result<Bytes, string>)
      returns (job: Job)
      modifies this
      ensures job.exportId == id && job.userId == userId && job.resumeTitle == title && job.exportFormat == format
      ensures job.createdAt == now && job.expiresAt == now + Day
      ensures format != "pdf" ==>
        && job.status == Pending
        && job.downloadUrl.None? && job.fileSize.None? && job.errorMessage.None? && job.completedAt.None?
        && cache == old(cache)[id := JobEntry(job)]
      ensures format == "pdf" && pdf.Ok? ==>
        && job.status == Completed
        && job.downloadUrl == Some("/api/v1/exports/" + id + "/download")
        && job.fileSize == Some(|pdf.value|)
        && job.errorMessage.None?
        && job.completedAt == Some(now)
        && cache == old(cache)[id := JobEntry(job)][ContentKey(id) := FileContent(pdf.value)]
      ensures format == "pdf" && pdf.Err? ==>
        && job.status == Failed
        && job.downloadUrl.None? && job.fileSize.None?
        && job.errorMessage == Some(pdf.error)
        && job.completedAt == Some(now)
        && cache == old(cache)[id := JobEntry(job)]
    {
      job := Job(id, userId, title, format, Pending, now, now + Day, None, None, None, None);
      cache := cache[id := JobEntry(job)];
      if format == "pdf" {
        match pdf
        case Ok(bytes) =>
          job := job.(status := Completed, downloadUrl := Some("/api/v1/exports/" + id + "/download"),
                      fileSize := Some(|bytes|), completedAt := Some(now));
          cache := cache[ContentKey(id) := FileContent(bytes)];
        case Err(message) =>
          job := job.(status := Failed, errorMessage := Some(message), completedAt := Some(now));
      }
      cache := cache[id := JobEntry(job)];
    }

    /** `cleanup_export_job`: drop the job and its file content; every other entry stays. */
    method CleanupExportJob(id: string) returns (ok: bool)
      modifies this
      ensures ok
      ensures cache == old(cache) - {id, ContentKey(id)}
    {
      if id in cache {
        cache := cache - {id};
      }
      var contentKey := ContentKey(id);
      if contentKey in cache {
        cache := cache - {contentKey};
      }
      assert cache == old(cache) - {id, ContentKey(id)};
      ok := true;
    }

    /**
     * `get_export_status`: unknown ids and file-content entries give nothing
     * and change nothing; an expired job is cleaned up and gives nothing; a
     * live job is returned as stored.
     */
    method GetExportStatus(id: string, now: int) returns (r: Option<Job>)
      modifies this
      ensures r == StatusOf(old(cache), id, now)
      ensures id in old(cache) && old(cache)[id].JobEntry? && Expired(old(cache)[id].job, now) ==>
        cache == old(cache) - {id, ContentKey(id)}
      ensures !(id in old(cache) && old(cache)[id].JobEntry? && Expired(old(cache)[id].job, now)) ==>
        cache == old(cache)
    {
      if id !in cache || !cache[id].JobEntry? {
        return None;
      }
      var job := cache[id].job;
      if Expired(job, now) {
        var _ := CleanupExportJob(id);
        return None;
      }
      return Some(job);
    }

    /**
     * `get_export_file`: the stored bytes of a completed, unexpired job, and
     * nothing otherwise; looking up an expired job cleans it up.
     */
    method GetExportFile(id: string, now: int) returns (r: Option<Bytes>)
      modifies this
      ensures r == FileOf(old(cache), id, now)
      ensures id in old(cache) && old(cache)[id].JobEntry? && Expired(old(cache)[id].job, now) ==>
        cache == old(cache) - {id, ContentKey(id)}
      ensures !(id in old(cache) && old(cache)[id].JobEntry? && Expired(old(cache)[id].job, now)) ==>
        cache == old(cache)
    {
      var job := GetExportStatus(id, now);
      if job.None? || job.value.status != Completed {
        return None;
      }
      var key := ContentKey(id);
      if key in cache && cache[key].FileContent? {
        return Some(cache[key].bytes);
      }
      return None;
    }

    /** The expired jobs' ids, one scan over the cache with no repeats. */
    method ListExpired(now: int) returns (expired: seq<string>)
      ensures Distinct(expired)
      ensures SetOf(expired) == ExpiredIds(now)
    {
      expired := [];
      var remaining := cache.Keys;
      while remaining != {}
        invariant remaining <= cache.Keys
        invariant Distinct(expired)
        invariant forall id :: id in expired <==> id in ExpiredIds(now) && id !in remaining
        decreases remaining
      {
        var id :| id in remaining;
        if cache[id].JobEntry? && Expired(cache[id].job, now) {
          expired := expired + [id];
        }
        remaining := remaining - {id};
      }
    }

    /** Clean up each listed job in turn. */
    method CleanupAll(ids: seq<string>)
      modifies this
      ensures cache == old(cache) - CleanupKeys(SetOf(ids))
    {
      var i := 0;
      while i < |ids|
        invariant 0 <= i <= |ids|
        invariant cache == old(cache) - CleanupKeys(SetOf(ids[..i]))
      {
        var _ := CleanupExportJob(ids[i]);
        assert SetOf(ids[..i + 1]) == SetOf(ids[..i]) + {ids[i]};
        CleanupKeysStep(SetOf(ids[..i]), ids[i]);
        i := i + 1;
      }
      assert ids[..i] == ids;
    }

    /**
     * `cleanup_expired_jobs`: collect the expired jobs, clean each up, and
     * report how many there were; everything else stays.
     */
    method CleanupExpiredJobs(now: int) returns (count: nat)
      modifies this
      ensures count == |old(ExpiredIds(now))|
      ensures cache == old(cache) - CleanupKeys(old(ExpiredIds(now)))
    {
      var expired := ListExpired(now);
      DistinctCount(expired);
      CleanupAll(expired);
      count := |expired|;
    }

    /** The ids among `seen` of stored jobs that satisfy `p`. */
    function SeenWhere(seen: set<string>, p: Job -> bool): set<string>
      reads this
    {
      set id | id in seen && id in cache && cache[id].JobEntry? && p(cache[id].job)
    }

    /** Visiting one more key adds one to a count exactly when that key holds a matching job. */
    lemma SeenStep(seen: set<string>, id: string, p: Job -> bool)
      requires id !in seen && id in cache
      ensures |SeenWhere(seen + {id}, p)| ==
        |SeenWhere(seen, p)| + (if cache[id].JobEntry? && p(cache[id].job) then 1 else 0)
    {
      if cache[id].JobEntry? && p(cache[id].job) {
        assert SeenWhere(seen + {id}, p) == SeenWhere(seen, p) + {id};
      } else {
        assert SeenWhere(seen + {id}, p) == SeenWhere(seen, p);
      }
    }

    /** Counting over every key counts every stored job. */
    lemma SeenAll(p: Job -> bool)
      ensures SeenWhere(cache.Keys, p) == JobsWhere(p)
    {
    }

    /**
     * The scan of `get_export_statistics`: the jobs in each status, and the
     * jobs of `userId`.
     */
    method CountJobs(userId: string) returns (completed: nat, failed: nat, pending: nat, mine: nat)
      ensures completed == |JobsWhere(IsCompleted)|
      ensures failed == |JobsWhere(IsFailed)|
      ensures pending == |JobsWhere(IsPending)|
      ensures mine == |JobsWhere(OwnedBy(userId))|
    {
      completed, failed, pending, mine := 0, 0, 0, 0;
      var remaining := cache.Keys;
      ghost var seen: set<string> := {};
      while remaining != {}
        invariant remaining + seen == cache.Keys && remaining !! seen
        invariant Tallied(seen, userId, completed, failed, pending, mine)
        decreases remaining
      {
        var id :| id in remaining;
        ghost var c0, f0, p0, m0 := completed, failed, pending, mine;
        if cache[id].JobEntry? {
          var job := cache[id].job;
          if job.userId == userId {
            mine := mine + 1;
          }
          if job.status == Completed {
            completed := completed + 1;
          } else if job.status == Failed {
            failed := failed + 1;
          } else {
            pending := pending + 1;
          }
        }
        TallyStep(seen, id, userId, c0, f0, p0, m0);
        seen := seen + {id};
        remaining := remaining - {id};
      }
      assert seen == cache.Keys;
      SeenAll(IsCompleted);
      SeenAll(IsFailed);
      SeenAll(IsPending);
      SeenAll(OwnedBy(userId));
    }

    /** The counts of the keys scanned so far. */
    ghost predicate Tallied(seen: set<string>, userId: string, completed: nat, failed: nat, pending: nat, mine: nat)
      reads this
    {
      && completed == |SeenWhere(seen, IsCompleted)|
      && failed == |SeenWhere(seen, IsFailed)|
      && pending == |SeenWhere(seen, IsPending)|
      && mine == |SeenWhere(seen, OwnedBy(userId))|
    }

    /** Scanning one more key adds its job, if it holds one, to the counts it belongs to. */
    lemma TallyStep(seen: set<string>, id: string, userId: string, completed: nat, failed: nat, pending: nat, mine: nat)
      requires id !in seen && id in cache
      requires Tallied(seen, userId, completed, failed, pending, mine)
      ensures var job := if cache[id].JobEntry? then Some(cache[id].job) else None;
        Tallied(seen + {id}, userId,
          completed + (if job.Some? && job.value.status == Completed then 1 else 0),
          failed + (if job.Some? && job.value.status == Failed then 1 else 0),
          pending + (if job.Some? && job.value.status == Pending then 1 else 0),
          mine + (if job.Some? && job.value.userId == userId then 1 else 0))
    {
      SeenStep(seen, id, IsCompleted);
      SeenStep(seen, id, IsFailed);
      SeenStep(seen, id, IsPending);
      SeenStep(seen, id, OwnedBy(userId));
    }

    /** Every stored job is in exactly one of the three statuses. */
    lemma {:induction false} StatusesPartition()
      ensures |JobsWhere(IsCompleted)| + |JobsWhere(IsFailed)|
        + |JobsWhere(IsPending)| == |JobsWhere(AnyJob)|
    {
      var c, f, p := JobsWhere(IsCompleted), JobsWhere(IsFailed),
        JobsWhere(IsPending);
      assert c !! f && (c + f) !! p;
      assert c + f + p == JobsWhere(AnyJob);
    }

    /**
     * `get_export_statistics`: count the jobs, the jobs of `userId` when one
     * is given, and the jobs in each status; the success rate is the
     * completed share in percent, 0 without jobs.
     */
    method GetExportStatistics(userId: string) returns (s: Statistics)
      ensures s.totalJobs == |JobsWhere(AnyJob)|
      ensures s.completedJobs == |JobsWhere(IsCompleted)|
      ensures s.failedJobs == |JobsWhere(IsFailed)|
      ensures s.pendingJobs == |JobsWhere(IsPending)|
      ensures s.completedJobs + s.failedJobs + s.pendingJobs == s.totalJobs
      ensures s.successRate == SuccessRate(s.completedJobs, s.totalJobs)
      ensures userId == [] <==> s.userJobs.None?
      ensures userId != [] ==> s.userJobs == Some(|JobsWhere(OwnedBy(userId))|)
    {
      var completed, failed, pending, mine := CountJobs(userId);
      StatusesPartition();
      var total := completed + failed + pending;
      s := Statistics(total, completed, failed, pending, SuccessRate(completed, total),
                      if userId != [] then Some(mine) else None);
    }
  }

  /** The completed share in percent, 0 without jobs. */
  function SuccessRate(completed: nat, total: nat): (rate: real)
    requires completed <= total
    ensures 0.0 <= rate <= 100.0
    ensures total == 0 ==> rate == 0.0
    ensures total > 0 ==> (rate == 100.0 <==> completed == total)
  {
    if total > 0 then
      var share := completed as real / total as real;
      ShareBounds(completed, total);
      share * 100.0
    else 0.0
  }

  /** Removing one more job's keys removes the id and its content key from what was left. */
  lemma CleanupKeysStep(ids: set<string>, id: string)
    ensures CleanupKeys(ids + {id}) == CleanupKeys(ids) + {id, ContentKey(id)}
  {
  }
}
