/**
 * Background jobs: the job record and the per-type registry that allows one
 * current job per job type and keeps finished jobs for lookup by id. The
 * registry's lock only serialises access; each operation is modelled as one
 * atomic step.
 */
module Jobs {
  import opened Wrappers
  import opened Json

  /** `JobStatusTypesEnum`. */
  datatype Status = Queued | Running | Success | Failed | Cancelled

  /** The status string a job carries and broadcasts. */
  function StatusName(s: Status): (r: string)
    ensures s == Queued <==> r == "queued"
    ensures s == Running <==> r == "running"
  {
    match s
    case Queued => "queued"
    case Running => "running"
    case Success => "success"
    case Failed => "failed"
    case Cancelled => "cancelled"
  }

  /** Finished statuses: a replaced job in one of these is archived. */
  predicate Finished(s: Status) {
    s == Success || s == Failed || s == Cancelled
  }

  /** Statuses that count as running for `job_is_running`. */
  predicate Active(s: Status) {
    StatusName(s) == "queued" || StatusName(s) == "running"
  }

  /** Every status is either active or finished, never both. */
  lemma ActiveIffNotFinished(s: Status)
    ensures Active(s) <==> !Finished(s)
  {
  }

  /** The fields a `MediaSyncJob` adds to the base job; `Plain` for a base job. */
  datatype Settings = Plain | MediaSync(dryRun: bool, mediaTypes: seq<string>, force: bool)

  function OptionalInt(o: Option<int>): JSON {
    if o.Some? then Int(o.value) else Null
  }

  function OptionalText(o: Option<string>): JSON {
    if o.Some? then Str(o.value) else Null
  }

  function OptionalJson(o: Option<JSON>): JSON {
    if o.Some? then o.value else Null
  }

  /** `Job`: id and type are fixed at creation, the rest changes as the job runs. */
  class Job {
    const id: string
    const jobType: string
    const settings: Settings
    var status: Status
    var results: Option<JSON>
    var startTime: Option<int>
    var endTime: Option<int>
    var errorMessage: Option<string>

    /** A new job is queued, with no results, times or error. */
    constructor (id: string, jobType: string, settings: Settings)
      ensures this.id == id && this.jobType == jobType && this.settings == settings
      ensures status == Queued && results == None && startTime == None && endTime == None && errorMessage == None
    {
      this.id := id;
      this.jobType := jobType;
      this.settings := settings;
      status := Queued;
      results := None;
      startTime := None;
      endTime := None;
      errorMessage := None;
    }

    /**
     * `to_dict`: every field in declaration order, the media sync fields
     * after the base ones.
     */
    function ToDict(): (d: JSON)
      reads this
      ensures d.Obj? && d.keys == BaseKeys + ExtraKeys(settings)
      ensures Get(d, "status") == Some(Str(StatusName(status)))
      ensures Get(d, "results") == Some(OptionalJson(results))
      ensures Get(d, "error_message") == Some(OptionalText(errorMessage))
    {
      var base := map["id" := Str(id), "job_type" := Str(jobType), "start_time" := OptionalInt(startTime),
                       "end_time" := OptionalInt(endTime), "error_message" := OptionalText(errorMessage),
                       "results" := OptionalJson(results), "status" := Str(StatusName(status))];
      match settings
      case Plain => Obj(BaseKeys, base)
      case MediaSync(dryRun, mediaTypes, force) =>
        var extra := map["dry_run" := Bool(dryRun), "force" := Bool(force),
                         "media_types" := Arr(seq(|mediaTypes|, i requires 0 <= i < |mediaTypes| => Str(mediaTypes[i])))];
        Obj(BaseKeys + ExtraKeys(settings), base + extra)
    }
  }

  /** The dict carries the job's id and type, and its start and end times or null. */
  lemma ToDictIdentity(job: Job)
    ensures var d := job.ToDict();
            && Get(d, "id") == Some(Str(job.id)) && Get(d, "job_type") == Some(Str(job.jobType))
            && Get(d, "start_time") == Some(OptionalInt(job.startTime)) && Get(d, "end_time") == Some(OptionalInt(job.endTime))
  {
  }

  /** A media sync job's dict also carries its dry-run flag, its media types in order, and its force flag. */
  lemma ToDictMediaSync(job: Job)
    requires job.settings.MediaSync?
    ensures var d := job.ToDict();
            && Get(d, "dry_run") == Some(Bool(job.settings.dryRun)) && Get(d, "force") == Some(Bool(job.settings.force))
            && Get(d, "media_types") == Some(Arr(seq(|job.settings.mediaTypes|, i requires 0 <= i < |job.settings.mediaTypes| => Str(job.settings.mediaTypes[i]))))
  {
  }

  /** No two fields share a name. */
  lemma FieldNamesDistinct(settings: Settings)
    ensures Distinct(BaseKeys + ExtraKeys(settings))
  {
    var keys := BaseKeys + ExtraKeys(settings);
    var sizes := [2, 8, 6, 7, 10, 8, 13] + (if settings.MediaSync? then [7, 11, 5] else []);
    var firsts := "ijsrsee" + (if settings.MediaSync? then "dmf" else "");
    assert forall i :: 0 <= i < |keys| ==> |keys[i]| == sizes[i] && keys[i][0] == firsts[i];
  }

  /** Each field appears once in the dict's order, and the order lists exactly the dict's keys. */
  lemma ToDictShape(job: Job)
    ensures var d := job.ToDict(); DictShape(d.keys, d.values)
  {
    FieldNamesDistinct(job.settings);
  }

  /** The base job's fields in declaration order. */
  const BaseKeys: seq<string> := ["id", "job_type", "status", "results", "start_time", "end_time", "error_message"]

  /** The fields a job type adds after the base ones. */
  function ExtraKeys(s: Settings): seq<string> {
    if s.MediaSync? then ["dry_run", "media_types", "force"] else []
  }

  /**
   * `get_job_by_id` on given tables: the current job of the type when its
   * id matches, otherwise the archived job under (type, id), otherwise null.
   */
  function Lookup(current: map<string, Job?>, completed: map<(string, string), Job>, jobType: string, jobId: string): Job? {
    if jobType in current && current[jobType] != null && current[jobType].id == jobId then current[jobType]
    else if (jobType, jobId) in completed then completed[(jobType, jobId)]
    else null
  }

  /** A job made current is found by its id. */
  lemma CurrentJobFound(current: map<string, Job?>, completed: map<(string, string), Job>, job: Job)
    ensures Lookup(current[job.jobType := job], completed, job.jobType, job.id) == job
  {
  }

  /**
   * A finished job replaced by a job with another id stays findable by its
   * id; an unfinished one that was never archived is no longer found.
   */
  lemma ReplacedJobFound(current: map<string, Job?>, completed: map<(string, string), Job>, prev: Job, job: Job)
    requires prev.jobType == job.jobType && prev.id != job.id
    ensures Lookup(current[job.jobType := job], completed[(job.jobType, prev.id) := prev], job.jobType, prev.id) == prev
    ensures (job.jobType, prev.id) !in completed ==> Lookup(current[job.jobType := job], completed, job.jobType, prev.id) == null
  {
  }

  /** The archive after `prev` is replaced as its type's current job: kept only when it has finished. */
  function Archived(completed: map<(string, string), Job>, jobType: string, prev: Job?): map<(string, string), Job>
    reads prev
  {
    if prev != null && Finished(prev.status) then
      var p: Job := prev;
      completed[(jobType, p.id) := p]
    else completed
  }

  /** The module-level job tables. */
  class JobRegistry {
    /** `_current_jobs`: the current job per type; a cleared type maps to null. */
    var current: map<string, Job?>
    /** `_completed_jobs`: finished jobs by (type, id). */
    var completed: map<(string, string), Job>

    constructor ()
      ensures current == map[] && completed == map[]
    {
      current := map[];
      completed := map[];
    }

    /**
     * `set_current_job`: the job becomes its type's current job; the job it
     * replaces is archived when it has finished, and otherwise dropped.
     */
    method SetCurrentJob(job: Job)
      modifies this
      ensures current == old(current)[job.jobType := job]
      ensures completed == Archived(old(completed), job.jobType, if job.jobType in old(current) then old(current)[job.jobType] else null)
    {
      var prev := if job.jobType in current then current[job.jobType] else null;
      if prev != null && Finished(prev.status) {
        var p: Job := prev;
        completed := completed[(job.jobType, p.id) := p];
      }
      current := current[job.jobType := job];
    }

    /**
     * `clear_current_job`: a known type is cleared when it has no job, when
     * no id is given, or when the given id is its current job's; otherwise
     * nothing changes.
     */
    method ClearCurrentJob(jobType: string, jobId: Option<string>)
      modifies this
      ensures completed == old(completed)
      ensures jobType in old(current) && (old(current)[jobType] == null || jobId.None? || old(current)[jobType].id == jobId.value)
              ==> current == old(current)[jobType := null]
      ensures !(jobType in old(current) && (old(current)[jobType] == null || jobId.None? || old(current)[jobType].id == jobId.value))
              ==> current == old(current)
    {
      if jobType in current {
        var cur := current[jobType];
        if cur == null || jobId.None? || cur.id == jobId.value {
          current := current[jobType := null];
        }
      }
    }

    /** `get_current_job`: the type's current job, null when there is none. */
    method GetCurrentJob(jobType: string) returns (job: Job?)
      ensures job != null <==> jobType in current && current[jobType] != null
      ensures job != null ==> job == current[jobType]
    {
      job := if jobType in current then current[jobType] else null;
    }

    /** `get_job_by_id`: the current job first, then the archive. */
    method GetJobById(jobType: string, jobId: string) returns (job: Job?)
      ensures job == Lookup(current, completed, jobType, jobId)
      ensures job != null ==> job.id == jobId || (jobType, jobId) in completed
    {
      var cur := if jobType in current then current[jobType] else null;
      if cur != null && cur.id == jobId {
        return cur;
      }
      job := if (jobType, jobId) in completed then completed[(jobType, jobId)] else null;
    }

    /** `job_is_running`: the type has a current job that is queued or running. */
    method JobIsRunning(jobType: string) returns (running: bool)
      ensures running <==> jobType in current && current[jobType] != null && Active(current[jobType].status)
    {
      var job := GetCurrentJob(jobType);
      running := job != null && (StatusName(job.status) == "queued" || StatusName(job.status) == "running");
    }
  }
}
