/**
 * The media sync job: starting one unless a media sync job is already
 * queued or running, and the runner that performs the sync and records its
 * outcome on the job. Clock readings are parameters; the status broadcasts
 * are recorded as the job dicts that would be sent.
 */
module MediaSyncJob {
  import opened Wrappers
  import opened Json
  import opened Jobs
  import Media

  /** The job type of media sync jobs. */
  const MediaSyncType: string := "media_sync"

  /** The requested media types: no list, or an empty one, means every type. */
  function RequestedTypes(mediaTypes: Option<seq<string>>): (r: seq<string>)
    ensures r != []
    ensures mediaTypes.Some? && mediaTypes.value != [] ==> r == mediaTypes.value
    ensures mediaTypes.None? || mediaTypes.value == [] ==> r == ["all"]
  {
    if mediaTypes.Some? && mediaTypes.value != [] then mediaTypes.value else ["all"]
  }

  /** Requested types select every media type exactly when they name it or `all`. */
  lemma RequestedTypesSelect(mediaTypes: Option<seq<string>>, name: string)
    ensures Media.Selected(RequestedTypes(mediaTypes), name)
            <==> mediaTypes.None? || mediaTypes.value == [] || "all" in mediaTypes.value || name in mediaTypes.value
  {
  }

  /**
   * `start_media_sync_job`: refused (None) while a media sync job is queued
   * or running, leaving the registry as it was; otherwise a new queued job
   * with the requested settings becomes the current one and its id is
   * returned. Starting the runner thread is `Run`.
   */
  method StartMediaSyncJob(registry: JobRegistry, dryRun: bool, mediaTypes: Option<seq<string>>, force: bool, newId: string)
    returns (r: Option<string>, job: Job?)
    modifies registry
    ensures var prev := if MediaSyncType in old(registry.current) then old(registry.current)[MediaSyncType] else null;
            if prev != null && Active(prev.status) then
              r == None && job == null && registry.current == old(registry.current) && registry.completed == old(registry.completed)
            else
              && r == Some(newId) && job != null && fresh(job)
              && job.id == newId && job.jobType == MediaSyncType
              && job.settings == MediaSync(dryRun, RequestedTypes(mediaTypes), force) && job.status == Queued
              && registry.current == old(registry.current)[MediaSyncType := job]
              && registry.completed == Archived(old(registry.completed), MediaSyncType, prev)
  {
    var running := registry.JobIsRunning(MediaSyncType);
    if running {
      return None, null;
    }
    job := new Job(newId, MediaSyncType, MediaSync(dryRun, RequestedTypes(mediaTypes), force));
    registry.SetCurrentJob(job);
    r := Some(job.id);
  }

  /**
   * `MediaSyncRunner.run`: the job is marked running with its start time and
   * broadcast; then either the sync completes, its results dict is stored
   * and the job succeeds, or the sync raises and the job fails with the
   * exception's text. Either way the end time is set and the final state is
   * broadcast. `raised` is the exception the sync raised, if any; the other
   * inputs are what `sync_all_media` reads.
   */
  method Run(job: Job, startedAt: int, endedAt: int, raised: Option<string>,
             dirs: Media.MediaDirs, scans: Media.MediaScans,
             fileExists: string -> bool, db: Media.RecordingDb, unlinks: string -> bool)
    returns (ghost broadcasts: seq<JSON>)
    requires job.settings.MediaSync?
    modifies job
    ensures job.startTime == Some(startedAt) && job.endTime == Some(endedAt)
    ensures raised.None? ==>
              && job.status == Success && job.errorMessage == old(job.errorMessage) && job.results.Some?
              && Media.IsResultsDict(job.results.value,
                                     Media.AllSynced(job.settings.dryRun, job.settings.mediaTypes, job.settings.force,
                                                     dirs, scans, fileExists, db, unlinks))
    ensures raised.Some? ==>
              job.status == Failed && job.errorMessage == raised && job.results == old(job.results)
    ensures |broadcasts| == 2
    ensures Get(broadcasts[0], "status") == Some(Str("running"))
    ensures broadcasts[1] == job.ToDict()
  {
    job.status := Running;
    job.startTime := Some(startedAt);
    broadcasts := [job.ToDict()];
    if raised.None? {
      var m := Media.SyncAllMedia(job.settings.dryRun, job.settings.mediaTypes, job.settings.force,
                                  dirs, scans, fileExists, db, unlinks);
      var d := Media.ToDict(m);
      job.results := Some(d);
      job.status := Success;
      job.endTime := Some(endedAt);
    } else {
      job.status := Failed;
      job.errorMessage := raised;
      job.endTime := Some(endedAt);
    }
    broadcasts := broadcasts + [job.ToDict()];
  }

  /** `get_current_media_sync_job`. */
  method GetCurrentMediaSyncJob(registry: JobRegistry) returns (job: Job?)
    ensures job != null <==> MediaSyncType in registry.current && registry.current[MediaSyncType] != null
    ensures job != null ==> job == registry.current[MediaSyncType]
  {
    job := registry.GetCurrentJob(MediaSyncType);
  }

  /** `get_media_sync_job_by_id`. */
  method GetMediaSyncJobById(registry: JobRegistry, jobId: string) returns (job: Job?)
    ensures job == Lookup(registry.current, registry.completed, MediaSyncType, jobId)
  {
    job := registry.GetJobById(MediaSyncType, jobId);
  }
}
