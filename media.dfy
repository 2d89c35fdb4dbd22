/**
 * Orphan media sync: each media type compares the files found on disk with
 * the paths the database references, reports the unreferenced ones, and
 * deletes them unless the run is a dry run or more than half of the checked
 * files would go. The database rows and directory listings are inputs, and
 * so is whether each `os.unlink` succeeds.
 */
module Media {
  import opened Wrappers
  import opened Json
  import opened Text
  import Seqs

  /** `SyncResult`: the counters and flags of one media type's sync. */
  datatype SyncResult = SyncResult(mediaType: string, filesChecked: nat, orphansFound: nat, orphansDeleted: nat,
                                   orphanPaths: seq<string>, aborted: bool, error: Option<string>)

  /** A fresh `SyncResult(media_type=...)`. */
  function Started(mediaType: string): SyncResult {
    SyncResult(mediaType, 0, 0, 0, [], false, None)
  }

  /** The result of a sync whose database query or directory scan raised: the message and nothing counted. */
  function Failed(mediaType: string, e: string): SyncResult {
    Started(mediaType).(error := Some(e))
  }

  function OptionalStr(o: Option<string>): JSON {
    if o.Some? then Str(o.value) else Null
  }

  /** `SyncResult.to_dict`: the type, the three counters, `aborted` and `error`, in that order. */
  function SyncResultDict(r: SyncResult): (d: JSON)
    ensures d.Obj? && d.keys == ["media_type", "files_checked", "orphans_found", "orphans_deleted", "aborted", "error"]
    ensures forall k :: Has(d, k) <==> k in d.keys
  {
    Obj(["media_type", "files_checked", "orphans_found", "orphans_deleted", "aborted", "error"],
        map["media_type" := Str(r.mediaType), "files_checked" := Int(r.filesChecked),
            "orphans_found" := Int(r.orphansFound), "orphans_deleted" := Int(r.orphansDeleted),
            "aborted" := Bool(r.aborted), "error" := OptionalStr(r.error)])
  }

  /** The dict keeps everything but the orphan paths: two results give the same dict iff they differ at most there. */
  lemma SyncResultDictForgetsOnlyPaths(a: SyncResult, b: SyncResult)
    ensures SyncResultDict(a) == SyncResultDict(b) <==> a.(orphanPaths := []) == b.(orphanPaths := [])
  {
    if SyncResultDict(a) == SyncResultDict(b) {
      var da, db := SyncResultDict(a).values, SyncResultDict(b).values;
      assert da["media_type"] == db["media_type"] && da["files_checked"] == db["files_checked"];
      assert da["orphans_found"] == db["orphans_found"] && da["orphans_deleted"] == db["orphans_deleted"];
      assert da["aborted"] == db["aborted"] && da["error"] == db["error"];
      assert a.error == b.error by {
        if a.error.Some? || b.error.Some? {
          assert OptionalStr(a.error) == OptionalStr(b.error);
        }
      }
    }
  }

  /**
   * The safety threshold: `orphans / checked > 0.5`, written on integers.
   * A sync with nothing checked never trips it.
   */
  predicate OverThreshold(orphans: nat, checked: nat) {
    checked > 0 && 2 * orphans > checked
  }

  /** `os.path.join(dir, name)` for a plain name and a directory without a trailing separator. */
  function PathJoin(dir: string, name: string): string {
    dir + "/" + name
  }

  /** The number of `paths` whose `os.unlink` succeeds. */
  function Unlinked(paths: seq<string>, unlinks: string -> bool): (n: nat)
    ensures n <= |paths|
  {
    |Seqs.Filter(unlinks, paths)|
  }

  /**
   * The common end of the per-type syncs, from the orphan count on: no
   * orphans returns at once; more than half the checked files aborts unless
   * forced; a dry run deletes nothing; otherwise every orphan is unlinked
   * and only the successful unlinks are counted.
   */
  function Concluded(r0: SyncResult, dryRun: bool, force: bool, unlinks: string -> bool): (r: SyncResult)
    requires r0.orphansFound == |r0.orphanPaths| && r0.orphansDeleted == 0 && !r0.aborted
    ensures r.mediaType == r0.mediaType && r.filesChecked == r0.filesChecked && r.error == r0.error
    ensures r.orphansFound == r0.orphansFound && r.orphanPaths == r0.orphanPaths
    ensures r.orphansDeleted <= r.orphansFound
    ensures r.aborted <==> OverThreshold(r.orphansFound, r.filesChecked) && !force
    ensures r.orphansFound == 0 ==> !r.aborted && r.orphansDeleted == 0
    ensures (dryRun || r.aborted) ==> r.orphansDeleted == 0
    ensures !dryRun && !r.aborted ==> r.orphansDeleted == Unlinked(r.orphanPaths, unlinks)
  {
    var aborted := OverThreshold(r0.orphansFound, r0.filesChecked) && !force;
    r0.(aborted := aborted, orphansDeleted := if aborted || dryRun then 0 else Unlinked(r0.orphanPaths, unlinks))
  }

  /** The unlink loop: tries every path in order and counts the successes. */
  method Unlink(r0: SyncResult, paths: seq<string>, unlinks: string -> bool) returns (r: SyncResult)
    ensures r == r0.(orphansDeleted := r0.orphansDeleted + Unlinked(paths, unlinks))
  {
    var deleted := r0.orphansDeleted;
    var i := 0;
    while i < |paths|
      invariant 0 <= i <= |paths|
      invariant deleted == r0.orphansDeleted + |Seqs.Filter(unlinks, paths[..i])|
    {
      Seqs.FilterSnoc(unlinks, paths[..i], paths[i]);
      assert paths[..i + 1] == paths[..i] + [paths[i]];
      if unlinks(paths[i]) {
        deleted := deleted + 1;
      }
      i := i + 1;
    }
    assert paths[..i] == paths;
    r := r0.(orphansDeleted := deleted);
  }

  /** The code every non-recording sync ends with once its orphans are known. */
  method Conclude(r0: SyncResult, dryRun: bool, force: bool, unlinks: string -> bool) returns (r: SyncResult)
    requires r0.orphansFound == |r0.orphanPaths| && r0.orphansDeleted == 0 && !r0.aborted
    ensures r == Concluded(r0, dryRun, force, unlinks)
  {
    r := r0;
    if r.orphansFound == 0 {
      return;
    }
    if r.filesChecked > 0 && 2 * r.orphansFound > r.filesChecked {
      if !force {
        r := r.(aborted := true);
        return;
      }
    }
    if dryRun {
      return;
    }
    r := Unlink(r, r.orphanPaths, unlinks);
  }

  /** A file found on disk, with the key its orphan test looks up. */
  datatype Found = Found(path: string, key: string)

  /** The paths of the files whose key is not among `known`, in listing order. */
  function Unreferenced(files: seq<Found>, known: set<string>): (r: seq<string>)
    ensures |r| <= |files|
    ensures forall p :: p in r <==> exists f :: f in files && f.key !in known && f.path == p
    decreases |files|
  {
    if files == [] then []
    else
      var last := files[|files| - 1];
      var front := files[..|files| - 1];
      assert forall f :: f in files <==> f in front || f == last;
      Unreferenced(front, known) + if last.key !in known then [last.path] else []
  }

  /** The orphan loop: appends the path of every file whose key is unknown. */
  method CollectUnreferenced(files: seq<Found>, known: set<string>) returns (orphans: seq<string>)
    ensures orphans == Unreferenced(files, known)
  {
    orphans := [];
    var i := 0;
    while i < |files|
      invariant 0 <= i <= |files|
      invariant orphans == Unreferenced(files[..i], known)
    {
      assert files[..i + 1][..i] == files[..i];
      if files[i].key !in known {
        orphans := orphans + [files[i].path];
      }
      i := i + 1;
    }
    assert files[..i] == files;
  }

  /** The files of `names` that `keep` selects, each keyed by its own path. */
  function Listed(dir: string, names: seq<string>, keep: string -> bool): (r: seq<Found>)
    ensures forall f :: f in r <==> exists n :: n in names && keep(n) && f == Found(PathJoin(dir, n), PathJoin(dir, n))
    decreases |names|
  {
    if names == [] then []
    else
      var n := names[|names| - 1];
      var front := names[..|names| - 1];
      assert forall m :: m in names <==> m in front || m == n;
      Listed(dir, front, keep) + if keep(n) then [Found(PathJoin(dir, n), PathJoin(dir, n))] else []
  }

  /** The same over per-camera sub-directories: each entry is a directory name and its file names. */
  function ListedByCamera(dir: string, cameraDirs: seq<(string, seq<string>)>, keep: string -> bool): (r: seq<Found>)
    decreases |cameraDirs|
  {
    if cameraDirs == [] then []
    else
      var (camera, names) := cameraDirs[|cameraDirs| - 1];
      ListedByCamera(dir, cameraDirs[..|cameraDirs| - 1], keep) + Listed(PathJoin(dir, camera), names, keep)
  }

  // ---- event snapshots ----

  predicate IsSnapshotName(name: string) {
    EndsWith(name, ".jpg") || EndsWith(name, "-clean.webp") || EndsWith(name, "-clean.png")
  }

  /** The `camera-id` base of a snapshot file name: the name minus the first of "-clean.webp", "-clean.png" and ".jpg" it ends with. */
  function SnapshotBase(name: string): (b: string)
    ensures EndsWith(name, "-clean.webp") ==> b + "-clean.webp" == name
    ensures !EndsWith(name, "-clean.webp") && EndsWith(name, "-clean.png") ==> b + "-clean.png" == name
    ensures !EndsWith(name, "-clean.webp") && !EndsWith(name, "-clean.png") && EndsWith(name, ".jpg") ==> b + ".jpg" == name
    ensures !IsSnapshotName(name) ==> b == name
  {
    if EndsWith(name, "-clean.webp") then
      assert name[..|name| - 11] + name[|name| - 11..] == name;
      name[..|name| - 11]
    else if EndsWith(name, "-clean.png") then
      assert name[..|name| - 10] + name[|name| - 10..] == name;
      name[..|name| - 10]
    else if EndsWith(name, ".jpg") then
      assert name[..|name| - 4] + name[|name| - 4..] == name;
      name[..|name| - 4]
    else name
  }

  /** What the snapshot sync reads: the `(camera, id)` of every event with a snapshot, and the regular files directly in the clips directory. */
  datatype SnapshotScan = SnapshotScan(events: seq<(string, string)>, names: seq<string>)

  /** `f"{camera}-{id}"` for every event with a snapshot. */
  function SnapshotKeys(events: seq<(string, string)>): set<string> {
    set e | e in events :: e.0 + "-" + e.1
  }

  /** The snapshot files with their base names, in listing order. */
  function SnapshotFiles(dir: string, names: seq<string>): (r: seq<Found>)
    ensures |r| <= |names|
    ensures forall f :: f in r <==> exists n :: n in names && IsSnapshotName(n) && f == Found(PathJoin(dir, n), SnapshotBase(n))
    decreases |names|
  {
    if names == [] then []
    else
      var n := names[|names| - 1];
      var front := names[..|names| - 1];
      assert forall m :: m in names <==> m in front || m == n;
      SnapshotFiles(dir, front) + if IsSnapshotName(n) then [Found(PathJoin(dir, n), SnapshotBase(n))] else []
  }

  /** `sync_event_snapshots`. */
  function SnapshotsSync(clipsDir: string, scan: Result<SnapshotScan>, dryRun: bool, force: bool, unlinks: string -> bool): (r: SyncResult)
    ensures r.orphansDeleted <= r.orphansFound && (dryRun ==> r.orphansDeleted == 0)
  {
    if scan.Err? then Failed("event_snapshots", scan.error)
    else
      var files := SnapshotFiles(clipsDir, scan.value.names);
      var orphans := Unreferenced(files, SnapshotKeys(scan.value.events));
      Concluded(SyncResult("event_snapshots", |files|, |orphans|, 0, orphans, false, None), dryRun, force, unlinks)
  }

  /** A snapshot file is reported iff no event with a snapshot has its base name. */
  lemma SnapshotOrphans(clipsDir: string, scan: SnapshotScan, dryRun: bool, force: bool, unlinks: string -> bool, p: string)
    ensures p in SnapshotsSync(clipsDir, Ok(scan), dryRun, force, unlinks).orphanPaths
            <==> exists n :: n in scan.names && IsSnapshotName(n) && SnapshotBase(n) !in SnapshotKeys(scan.events) && p == PathJoin(clipsDir, n)
  {
    var files := SnapshotFiles(clipsDir, scan.names);
    if p in Unreferenced(files, SnapshotKeys(scan.events)) {
      var f :| f in files && f.key !in SnapshotKeys(scan.events) && f.path == p;
      var n :| n in scan.names && IsSnapshotName(n) && f == Found(PathJoin(clipsDir, n), SnapshotBase(n));
    }
    if exists n :: n in scan.names && IsSnapshotName(n) && SnapshotBase(n) !in SnapshotKeys(scan.events) && p == PathJoin(clipsDir, n) {
      var n :| n in scan.names && IsSnapshotName(n) && SnapshotBase(n) !in SnapshotKeys(scan.events) && p == PathJoin(clipsDir, n);
      assert Found(PathJoin(clipsDir, n), SnapshotBase(n)) in files;
    }
  }

  method SyncEventSnapshots(clipsDir: string, scan: Result<SnapshotScan>, dryRun: bool, force: bool, unlinks: string -> bool)
    returns (r: SyncResult)
    ensures r == SnapshotsSync(clipsDir, scan, dryRun, force, unlinks)
  {
    if scan.Err? {
      return Failed("event_snapshots", scan.error);
    }
    var keys := SnapshotKeys(scan.value.events);
    var files := SnapshotFiles(clipsDir, scan.value.names);
    r := Started("event_snapshots").(filesChecked := |files|);
    var orphans := CollectUnreferenced(files, keys);
    r := r.(orphansFound := |orphans|, orphanPaths := orphans);
    r := Conclude(r, dryRun, force, unlinks);
  }

  // ---- event thumbnails ----

  /** An `Event` row, keyed by its id: its camera, its inline thumbnail, and whether it has a snapshot. */
  datatype EventRow = EventRow(camera: string, thumbnail: Option<string>, hasSnapshot: bool)

  predicate InlineThumbnail(e: EventRow) {
    e.thumbnail.Some? && e.thumbnail.value != ""
  }

  /** What the thumbnail sync reads: the events by id, and each camera directory under the thumbnail directory with its file names. */
  datatype ThumbnailScan = ThumbnailScan(events: map<string, EventRow>, cameraDirs: seq<(string, seq<string>)>,
                                         queryError: Option<string>)

  /** A `.webp` file under a camera directory: its path, the camera and the event id it names. */
  datatype ThumbnailFile = ThumbnailFile(path: string, camera: string, eventId: string)

  function CameraThumbnails(dir: string, camera: string, names: seq<string>): (r: seq<ThumbnailFile>)
    decreases |names|
  {
    if names == [] then []
    else
      var n := names[|names| - 1];
      CameraThumbnails(dir, camera, names[..|names| - 1])
      + if EndsWith(n, ".webp") then [ThumbnailFile(PathJoin(PathJoin(dir, camera), n), camera, n[..|n| - 5])] else []
  }

  function ThumbnailFiles(dir: string, cameraDirs: seq<(string, seq<string>)>): seq<ThumbnailFile>
    decreases |cameraDirs|
  {
    if cameraDirs == [] then []
    else
      var (camera, names) := cameraDirs[|cameraDirs| - 1];
      ThumbnailFiles(dir, cameraDirs[..|cameraDirs| - 1]) + CameraThumbnails(dir, camera, names)
  }

  /** The `(camera, id)` of every event that keeps its thumbnail in a file. */
  function FileThumbnailEvents(events: map<string, EventRow>): set<(string, string)> {
    set id | id in events && !InlineThumbnail(events[id]) :: (events[id].camera, id)
  }

  /** Whether the orphan loop queries the table for this file: only for a file that is not a file-thumbnail event's. */
  predicate QueriesEvent(events: map<string, EventRow>, f: ThumbnailFile) {
    (f.camera, f.eventId) !in FileThumbnailEvents(events)
  }

  /** The orphan test as written: not a file-thumbnail event, and either no such event or one with an inline thumbnail. */
  predicate ThumbnailOrphan(events: map<string, EventRow>, f: ThumbnailFile) {
    (f.camera, f.eventId) !in FileThumbnailEvents(events)
    && (f.eventId !in events || InlineThumbnail(events[f.eventId]))
  }

  /**
   * The test comes down to the event id alone: a file is an orphan iff its
   * event is gone or has an inline thumbnail. A file filed under another
   * camera than its event's is kept.
   */
  lemma ThumbnailOrphanByEvent(events: map<string, EventRow>, f: ThumbnailFile)
    ensures ThumbnailOrphan(events, f) <==> f.eventId !in events || InlineThumbnail(events[f.eventId])
  {
    if f.eventId in events && InlineThumbnail(events[f.eventId]) {
      forall id | id in events && !InlineThumbnail(events[id])
        ensures (events[id].camera, id) != (f.camera, f.eventId)
      {
      }
    }
  }

  function ThumbnailOrphans(files: seq<ThumbnailFile>, events: map<string, EventRow>): (r: seq<string>)
    ensures |r| <= |files|
    ensures forall p :: p in r <==> exists f :: f in files && ThumbnailOrphan(events, f) && f.path == p
    decreases |files|
  {
    if files == [] then []
    else
      var last := files[|files| - 1];
      var front := files[..|files| - 1];
      assert forall f :: f in files <==> f in front || f == last;
      ThumbnailOrphans(front, events) + if ThumbnailOrphan(events, last) then [last.path] else []
  }

  /**
   * `sync_event_thumbnails`. A failing event query or directory scan before
   * the listing is counted (`scan` is `Err`) gives nothing counted. The
   * per-file event queries (`queryError`) fail at the first file the loop
   * queries for, after the listed files were counted, and then the outer
   * handler keeps only that count. Otherwise the orphans are concluded.
   */
  function ThumbnailsSync(thumbDir: string, scan: Result<ThumbnailScan>, dryRun: bool, force: bool, unlinks: string -> bool): (r: SyncResult)
    ensures r.orphansDeleted <= r.orphansFound && (dryRun ==> r.orphansDeleted == 0)
    ensures scan.Err? ==> r == Failed("event_thumbnails", scan.error)
    ensures scan.Ok? ==> r.filesChecked == |ThumbnailFiles(thumbDir, scan.value.cameraDirs)|
    ensures scan.Ok? ==>
              var files := ThumbnailFiles(thumbDir, scan.value.cameraDirs);
              var queried := exists i :: 0 <= i < |files| && QueriesEvent(scan.value.events, files[i]);
              && (r.error.Some? <==> scan.value.queryError.Some? && queried)
              && (r.error.Some? ==> r == Started("event_thumbnails").(filesChecked := |files|, error := scan.value.queryError))
              && (r.error.None? ==> r.orphanPaths == ThumbnailOrphans(files, scan.value.events)
                                    && r.orphansFound == |r.orphanPaths|)
  {
    if scan.Err? then Failed("event_thumbnails", scan.error)
    else
      var files := ThumbnailFiles(thumbDir, scan.value.cameraDirs);
      if scan.value.queryError.Some? && exists i :: 0 <= i < |files| && QueriesEvent(scan.value.events, files[i]) then
        Started("event_thumbnails").(filesChecked := |files|, error := scan.value.queryError)
      else
        var orphans := ThumbnailOrphans(files, scan.value.events);
        Concluded(SyncResult("event_thumbnails", |files|, |orphans|, 0, orphans, false, None), dryRun, force, unlinks)
  }

  method SyncEventThumbnails(thumbDir: string, scan: Result<ThumbnailScan>, dryRun: bool, force: bool, unlinks: string -> bool)
    returns (r: SyncResult)
    ensures r == ThumbnailsSync(thumbDir, scan, dryRun, force, unlinks)
  {
    if scan.Err? {
      return Failed("event_thumbnails", scan.error);
    }
    var events := scan.value.events;
    var files := ThumbnailFiles(thumbDir, scan.value.cameraDirs);
    r := Started("event_thumbnails").(filesChecked := |files|);
    var orphans: seq<string> := [];
    var i := 0;
    while i < |files|
      invariant 0 <= i <= |files|
      invariant orphans == ThumbnailOrphans(files[..i], events)
      invariant scan.value.queryError.Some? ==> forall k :: 0 <= k < i ==> !QueriesEvent(events, files[k])
    {
      assert files[..i + 1][..i] == files[..i];
      var f := files[i];
      if (f.camera, f.eventId) !in FileThumbnailEvents(events) {
        if scan.value.queryError.Some? {
          return r.(error := scan.value.queryError);
        }
        var eventExists := f.eventId in events;
        if !eventExists {
          orphans := orphans + [f.path];
        } else if InlineThumbnail(events[f.eventId]) {
          orphans := orphans + [f.path];
        }
      }
      i := i + 1;
    }
    assert files[..i] == files;
    r := r.(orphansFound := |orphans|, orphanPaths := orphans);
    r := Conclude(r, dryRun, force, unlinks);
  }

  // ---- review thumbnails, previews, exports ----

  predicate IsReviewThumbnail(name: string) {
    StartsWith(name, "thumb-") && EndsWith(name, ".webp")
  }

  predicate IsMp4(name: string) {
    EndsWith(name, ".mp4")
  }

  predicate IsJpg(name: string) {
    EndsWith(name, ".jpg")
  }

  /** The non-empty paths of a path column. */
  function Referenced(paths: set<string>): set<string> {
    paths - {""}
  }

  /** What the review thumbnail sync reads: every `thumb_path`, and the names in the review directory. */
  datatype ReviewScan = ReviewScan(thumbPaths: set<string>, names: seq<string>)

  /** `sync_review_thumbnails`. */
  function ReviewSync(clipsDir: string, scan: Result<ReviewScan>, dryRun: bool, force: bool, unlinks: string -> bool): (r: SyncResult)
    ensures r.orphansDeleted <= r.orphansFound && (dryRun ==> r.orphansDeleted == 0)
  {
    if scan.Err? then Failed("review_thumbnails", scan.error)
    else
      var files := Listed(PathJoin(clipsDir, "review"), scan.value.names, IsReviewThumbnail);
      var orphans := Unreferenced(files, Referenced(scan.value.thumbPaths));
      Concluded(SyncResult("review_thumbnails", |files|, |orphans|, 0, orphans, false, None), dryRun, force, unlinks)
  }

  method SyncReviewThumbnails(clipsDir: string, scan: Result<ReviewScan>, dryRun: bool, force: bool, unlinks: string -> bool)
    returns (r: SyncResult)
    ensures r == ReviewSync(clipsDir, scan, dryRun, force, unlinks)
  {
    if scan.Err? {
      return Failed("review_thumbnails", scan.error);
    }
    var files := Listed(PathJoin(clipsDir, "review"), scan.value.names, IsReviewThumbnail);
    r := Started("review_thumbnails").(filesChecked := |files|);
    var orphans := CollectUnreferenced(files, Referenced(scan.value.thumbPaths));
    r := r.(orphansFound := |orphans|, orphanPaths := orphans);
    r := Conclude(r, dryRun, force, unlinks);
  }

  /** What the preview sync reads: every preview `path`, and each camera directory under the previews directory with its file names. */
  datatype PreviewScan = PreviewScan(paths: set<string>, cameraDirs: seq<(string, seq<string>)>)

  /** `sync_previews`. */
  function PreviewsSync(clipsDir: string, scan: Result<PreviewScan>, dryRun: bool, force: bool, unlinks: string -> bool): (r: SyncResult)
    ensures r.orphansDeleted <= r.orphansFound && (dryRun ==> r.orphansDeleted == 0)
  {
    if scan.Err? then Failed("previews", scan.error)
    else
      var files := ListedByCamera(PathJoin(clipsDir, "previews"), scan.value.cameraDirs, IsMp4);
      var orphans := Unreferenced(files, Referenced(scan.value.paths));
      Concluded(SyncResult("previews", |files|, |orphans|, 0, orphans, false, None), dryRun, force, unlinks)
  }

  method SyncPreviews(clipsDir: string, scan: Result<PreviewScan>, dryRun: bool, force: bool, unlinks: string -> bool)
    returns (r: SyncResult)
    ensures r == PreviewsSync(clipsDir, scan, dryRun, force, unlinks)
  {
    if scan.Err? {
      return Failed("previews", scan.error);
    }
    var files := ListedByCamera(PathJoin(clipsDir, "previews"), scan.value.cameraDirs, IsMp4);
    r := Started("previews").(filesChecked := |files|);
    var orphans := CollectUnreferenced(files, Referenced(scan.value.paths));
    r := r.(orphansFound := |orphans|, orphanPaths := orphans);
    r := Conclude(r, dryRun, force, unlinks);
  }

  /** What the export sync reads: the video and thumbnail path columns, the export directory and the clips export directory. */
  datatype ExportScan = ExportScan(videoPaths: set<string>, thumbPaths: set<string>, videoNames: seq<string>, thumbNames: seq<string>)

  /** `sync_exports`: videos and thumbnails are both checked, each against its own column. */
  function ExportsSync(exportDir: string, clipsDir: string, scan: Result<ExportScan>, dryRun: bool, force: bool,
                       unlinks: string -> bool): (r: SyncResult)
    ensures r.orphansDeleted <= r.orphansFound && (dryRun ==> r.orphansDeleted == 0)
  {
    if scan.Err? then Failed("exports", scan.error)
    else
      var videos := Listed(exportDir, scan.value.videoNames, IsMp4);
      var thumbs := Listed(PathJoin(clipsDir, "export"), scan.value.thumbNames, IsJpg);
      var orphans := Unreferenced(videos, Referenced(scan.value.videoPaths)) + Unreferenced(thumbs, Referenced(scan.value.thumbPaths));
      Concluded(SyncResult("exports", |videos| + |thumbs|, |orphans|, 0, orphans, false, None), dryRun, force, unlinks)
  }

  /** An export video is reported iff the video column lacks it; a thumbnail in the video column is still reported. */
  lemma ExportOrphans(exportDir: string, clipsDir: string, scan: ExportScan, dryRun: bool, force: bool, unlinks: string -> bool, n: string)
    requires IsMp4(n) && n in scan.videoNames
    requires forall m :: m in scan.thumbNames ==> PathJoin(PathJoin(clipsDir, "export"), m) != PathJoin(exportDir, n)
    ensures PathJoin(exportDir, n) in ExportsSync(exportDir, clipsDir, Ok(scan), dryRun, force, unlinks).orphanPaths
            <==> PathJoin(exportDir, n) !in Referenced(scan.videoPaths)
  {
    var p := PathJoin(exportDir, n);
    var videos := Listed(exportDir, scan.videoNames, IsMp4);
    var thumbs := Listed(PathJoin(clipsDir, "export"), scan.thumbNames, IsJpg);
    assert Found(p, p) in videos;
    assert forall f :: f in thumbs ==> f.path != p;
    assert p !in Unreferenced(thumbs, Referenced(scan.thumbPaths));
    if p in Unreferenced(videos, Referenced(scan.videoPaths)) {
      var f :| f in videos && f.key !in Referenced(scan.videoPaths) && f.path == p;
      var m :| m in scan.videoNames && IsMp4(m) && f == Found(PathJoin(exportDir, m), PathJoin(exportDir, m));
    }
  }

  method SyncExports(exportDir: string, clipsDir: string, scan: Result<ExportScan>, dryRun: bool, force: bool, unlinks: string -> bool)
    returns (r: SyncResult)
    ensures r == ExportsSync(exportDir, clipsDir, scan, dryRun, force, unlinks)
  {
    if scan.Err? {
      return Failed("exports", scan.error);
    }
    var videos := Listed(exportDir, scan.value.videoNames, IsMp4);
    var thumbs := Listed(PathJoin(clipsDir, "export"), scan.value.thumbNames, IsJpg);
    r := Started("exports").(filesChecked := |videos| + |thumbs|);
    var videoOrphans := CollectUnreferenced(videos, Referenced(scan.value.videoPaths));
    var thumbOrphans := CollectUnreferenced(thumbs, Referenced(scan.value.thumbPaths));
    var orphans := videoOrphans + thumbOrphans;
    r := r.(orphansFound := |orphans|, orphanPaths := orphans);
    r := Conclude(r, dryRun, force, unlinks);
  }

  // ---- recordings ----

  /** A `Recordings` row: its id and its file path. */
  datatype RecordingRow = RecordingRow(id: string, path: string)

  /** What the recordings sync reads: every recording row, and every file under the recordings directory. */
  datatype RecordingScan = RecordingScan(rows: seq<RecordingRow>, onDisk: seq<string>)

  /** The rows whose file does not exist, in query order. */
  function MissingRows(rows: seq<RecordingRow>, fileExists: string -> bool): (r: seq<RecordingRow>)
    ensures |r| <= |rows|
    ensures forall x :: x in r <==> x in rows && !fileExists(x.path)
    decreases |rows|
  {
    if rows == [] then []
    else
      var last := rows[|rows| - 1];
      var front := rows[..|rows| - 1];
      assert forall x :: x in rows <==> x in front || x == last;
      MissingRows(front, fileExists) + if !fileExists(last.path) then [last] else []
  }

  /** `page_size` of the recordings scan. */
  const PageSize := 1000

  /** `num_pages`: the pages needed to hold `count` rows. */
  function NumPages(count: nat): nat {
    (count + PageSize - 1) / PageSize
  }

  /**
   * Peewee's `paginate(page, PageSize)`: pages count from 1, and a page
   * number below 1 reads the first page.
   */
  function Paginate(rows: seq<RecordingRow>, page: int): (r: seq<RecordingRow>)
    ensures |r| <= PageSize
  {
    var offset := (if page > 0 then page - 1 else 0) * PageSize;
    if offset >= |rows| then [] else rows[offset..if offset + PageSize < |rows| then offset + PageSize else |rows|]
  }

  /** The rows of pages `from` up to `to` (exclusive), in page order. */
  function PagesRead(rows: seq<RecordingRow>, from: int, to: int): seq<RecordingRow>
    decreases to - from
  {
    if from >= to then [] else PagesRead(rows, from, to - 1) + Paginate(rows, to - 1)
  }

  /** The scan as written: `for page in range(num_pages)`, pages 0 to num_pages - 1. */
  function ScannedAsWritten(rows: seq<RecordingRow>): seq<RecordingRow> {
    PagesRead(rows, 0, NumPages(|rows|))
  }

  /** The scan as intended: pages 1 to num_pages. */
  function Scanned(rows: seq<RecordingRow>): seq<RecordingRow> {
    PagesRead(rows, 1, NumPages(|rows|) + 1)
  }

  /**
   * As written, one row more than a page is scanned as the first page twice:
   * pages 0 and 1 both read the first thousand rows, and the last row is
   * never read.
   */
  lemma PagingRereadsFirstPage(rows: seq<RecordingRow>)
    requires |rows| == PageSize + 1
    ensures ScannedAsWritten(rows) == rows[..PageSize] + rows[..PageSize]
    ensures |ScannedAsWritten(rows)| == 2 * PageSize
  {
    assert NumPages(|rows|) == 2;
    assert PagesRead(rows, 0, 0) == [];
  }

  /** Pages 1 to `p` read the first `p` pages of rows, in order. */
  lemma {:induction false} PagesReadPrefix(rows: seq<RecordingRow>, p: nat)
    requires (p - 1) * PageSize < |rows| || p == 0
    ensures PagesRead(rows, 1, p + 1) == rows[..if p * PageSize < |rows| then p * PageSize else |rows|]
  {
    if p > 0 {
      PagesReadPrefix(rows, p - 1);
      assert rows[..(p - 1) * PageSize] + rows[(p - 1) * PageSize..if p * PageSize < |rows| then p * PageSize else |rows|]
          == rows[..if p * PageSize < |rows| then p * PageSize else |rows|];
    }
  }

  /** Read from page 1 on, the scan reads every row exactly once, in query order. */
  lemma ScanCoversRows(rows: seq<RecordingRow>)
    ensures Scanned(rows) == rows
  {
    var p := NumPages(|rows|);
    assert p * PageSize >= |rows|;
    PagesReadPrefix(rows, p);
  }

  /** The non-empty paths of `rows`, in order. */
  function NonEmptyPaths(rows: seq<RecordingRow>): (r: seq<string>)
    ensures |r| <= |rows|
    decreases |rows|
  {
    if rows == [] then []
    else
      var last := rows[|rows| - 1];
      NonEmptyPaths(rows[..|rows| - 1]) + if last.path != "" then [last.path] else []
  }

  /** The paths the recordings table holds, when the rows kept are those `keep` selects. */
  function PathsWhere(rows: seq<RecordingRow>, keep: string -> bool): set<string> {
    set x | x in rows && keep(x.path) :: x.path
  }

  function Always(path: string): bool {
    true
  }

  /** The files on disk that no kept row references, in listing order. */
  function FilesNotIn(files: seq<string>, known: set<string>): (r: seq<string>)
    ensures |r| <= |files|
    ensures forall p :: p in r <==> p in files && p !in known
    decreases |files|
  {
    if files == [] then []
    else
      var last := files[|files| - 1];
      var front := files[..|files| - 1];
      assert forall p :: p in files <==> p in front || p == last;
      FilesNotIn(front, known) + if last !in known then [last] else []
  }

  /** How the `Recordings` delete ends: it runs, or raises; `databaseError` says whether the exception is a peewee `DatabaseError`. */
  datatype DeleteOutcome = Deleted | DeleteFailed(message: string, databaseError: bool)

  /**
   * The database statements of `sync_recordings` that can raise once the
   * rows are read: the temporary table and its batched inserts (`stageError`),
   * the delete, and the per-file `.exists()` query (`existsError`, the same
   * for every file, since the loop keeps nothing once it raises).
   */
  datatype RecordingDb = RecordingDb(stageError: Option<string>, delete: DeleteOutcome, existsError: Option<string>)

  /** The database half deletes rows: some row lost its file, the threshold did not abort, and the run is not dry. */
  predicate Purging(rows: seq<RecordingRow>, dryRun: bool, force: bool, fileExists: string -> bool) {
    var missing := MissingRows(rows, fileExists);
    missing != [] && !dryRun && !(OverThreshold(|missing|, |rows|) && !force)
  }

  /**
   * The database half of `sync_recordings`: rows whose file is missing are
   * counted and, past the threshold, abort the sync unless forced; outside
   * a dry run they are copied to a temporary table and deleted. Only a
   * `DatabaseError` from the delete aborts; any other exception reaches the
   * outer handler, which records the error and keeps the counters. The flag
   * says whether the sync returns here. `rows` are the rows the paged scan
   * reads from page 1 on, which `ScanCoversRows` shows are all rows once each.
   */
  function RowsPhase(rows: seq<RecordingRow>, dryRun: bool, force: bool, fileExists: string -> bool,
                     db: RecordingDb): (out: (SyncResult, bool))
    ensures var (r, stop) := out;
            var missing := MissingRows(rows, fileExists);
            && r.mediaType == "recordings" && r.filesChecked == |rows|
            && r.orphansFound == |missing| && r.orphanPaths == NonEmptyPaths(missing)
            && r.orphansDeleted <= r.orphansFound
            && (dryRun ==> r.orphansDeleted == 0)
            && (stop ==> r.orphansDeleted == 0)
            && (r.aborted <==> (OverThreshold(|missing|, |rows|) && !force)
                               || (Purging(rows, dryRun, force, fileExists) && db.stageError.None?
                                   && db.delete.DeleteFailed? && db.delete.databaseError))
            && (r.error.Some? <==> Purging(rows, dryRun, force, fileExists) && (db.stageError.Some? || db.delete.DeleteFailed?))
            && (Purging(rows, dryRun, force, fileExists) && db.stageError.Some? ==> r.error == db.stageError)
            && (!stop <==> r.error.None? && !r.aborted)
  {
    var missing := MissingRows(rows, fileExists);
    var r1 := SyncResult("recordings", |rows|, |missing|, 0, NonEmptyPaths(missing), false, None);
    var purging := missing != [] && !dryRun;
    if OverThreshold(|missing|, |rows|) && !force then (r1.(aborted := true), true)
    else if purging && db.stageError.Some? then (r1.(error := db.stageError), true)
    else if purging && db.delete.DeleteFailed? then (r1.(error := Some(db.delete.message), aborted := db.delete.databaseError), true)
    else (r1.(orphansDeleted := if purging then |missing| else 0), false)
  }

  /**
   * The file half: the files no remaining row references are counted,
   * checked against the threshold, and unlinked outside a dry run. `purged`
   * says whether the missing rows were deleted from the database. A failing
   * `.exists()` query ends the sync in the outer handler, after the files
   * were counted as checked and before any orphan is counted.
   */
  function FilesPhase(r1: SyncResult, rows: seq<RecordingRow>, onDisk: seq<string>, purged: bool, dryRun: bool, force: bool,
                      fileExists: string -> bool, existsError: Option<string>, unlinks: string -> bool): (r: SyncResult)
    requires r1.orphansDeleted <= r1.orphansFound && r1.error.None? && !r1.aborted
    ensures r.orphansDeleted <= r.orphansFound && r.filesChecked == r1.filesChecked + |onDisk|
    ensures dryRun ==> r.orphansDeleted == r1.orphansDeleted
    ensures r.error.Some? <==> onDisk != [] && existsError.Some?
    ensures r.error.Some? ==> r == r1.(filesChecked := r1.filesChecked + |onDisk|, error := existsError)
    ensures r.error.None? ==> r.orphanPaths == r1.orphanPaths + FilesNotIn(onDisk, if purged then PathsWhere(rows, fileExists) else PathsWhere(rows, Always))
  {
    var known := if purged then PathsWhere(rows, fileExists) else PathsWhere(rows, Always);
    if onDisk != [] && existsError.Some? then r1.(filesChecked := r1.filesChecked + |onDisk|, error := existsError)
    else SweepFiles(r1, onDisk, known, dryRun, force, unlinks)
  }

  /** The files on disk checked against the known paths, then the threshold check and the unlinks. */
  function SweepFiles(r1: SyncResult, onDisk: seq<string>, known: set<string>, dryRun: bool, force: bool,
                      unlinks: string -> bool): (r: SyncResult)
    requires r1.orphansDeleted <= r1.orphansFound
    ensures r.orphansDeleted <= r.orphansFound && r.filesChecked == r1.filesChecked + |onDisk|
    ensures r.error == r1.error && r.orphanPaths == r1.orphanPaths + FilesNotIn(onDisk, known)
    ensures dryRun ==> r.orphansDeleted == r1.orphansDeleted
  {
    var orphans := FilesNotIn(onDisk, known);
    var r2 := r1.(filesChecked := r1.filesChecked + |onDisk|, orphansFound := r1.orphansFound + |orphans|,
                  orphanPaths := r1.orphanPaths + orphans);
    if OverThreshold(|orphans|, |onDisk|) && !force then r2.(aborted := true)
    else if dryRun then r2
    else r2.(orphansDeleted := r2.orphansDeleted + Unlinked(orphans, unlinks))
  }

  /** `sync_recordings` over the whole table. */
  function RecordingsSync(scan: Result<RecordingScan>, dryRun: bool, force: bool, fileExists: string -> bool,
                          db: RecordingDb, unlinks: string -> bool): (r: SyncResult)
    ensures r.orphansDeleted <= r.orphansFound
    ensures dryRun ==> r.orphansDeleted == 0
    ensures r.aborted && r.error.Some? ==> scan.Ok? && db.delete.DeleteFailed? && db.delete.databaseError
  {
    if scan.Err? then Failed("recordings", scan.error)
    else
      var (r1, stop) := RowsPhase(scan.value.rows, dryRun, force, fileExists, db);
      if stop then r1
      else
        var purged := MissingRows(scan.value.rows, fileExists) != [] && !dryRun;
        FilesPhase(r1, scan.value.rows, scan.value.onDisk, purged, dryRun, force, fileExists, db.existsError, unlinks)
  }

  /**
   * Only a `DatabaseError` from the delete aborts with an error. A failing
   * temporary table or insert, a delete that raises anything else, and a
   * failing `.exists()` query leave `aborted` false, with the counters
   * gathered up to that point kept.
   */
  lemma RecordingsSyncErrors(scan: RecordingScan, dryRun: bool, force: bool, fileExists: string -> bool,
                             db: RecordingDb, unlinks: string -> bool)
    ensures var r := RecordingsSync(Ok(scan), dryRun, force, fileExists, db, unlinks);
            var missing := MissingRows(scan.rows, fileExists);
            var purging := Purging(scan.rows, dryRun, force, fileExists);
            && (r.aborted && r.error.Some? <==> purging && db.stageError.None? && db.delete.DeleteFailed? && db.delete.databaseError)
            && (purging && db.stageError.Some? ==>
                  r == SyncResult("recordings", |scan.rows|, |missing|, 0, NonEmptyPaths(missing), false, db.stageError))
            && (purging && db.stageError.None? && db.delete.DeleteFailed? && !db.delete.databaseError ==>
                  r == SyncResult("recordings", |scan.rows|, |missing|, 0, NonEmptyPaths(missing), false, Some(db.delete.message)))
            && (!(OverThreshold(|missing|, |scan.rows|) && !force) && !(purging && (db.stageError.Some? || db.delete.DeleteFailed?))
                && scan.onDisk != [] && db.existsError.Some? ==>
                  r == SyncResult("recordings", |scan.rows| + |scan.onDisk|, |missing|, if purging then |missing| else 0,
                                  NonEmptyPaths(missing), false, db.existsError))
  {
  }

  /** With no recording row missing its file, a file on disk is reported iff no row has its path. */
  lemma RecordingFileOrphans(scan: RecordingScan, dryRun: bool, force: bool, fileExists: string -> bool,
                             db: RecordingDb, unlinks: string -> bool, p: string)
    requires p in scan.onDisk && db.existsError.None?
    requires MissingRows(scan.rows, fileExists) == []
    ensures p in RecordingsSync(Ok(scan), dryRun, force, fileExists, db, unlinks).orphanPaths
            <==> forall x :: x in scan.rows ==> x.path != p
  {
    var known := PathsWhere(scan.rows, Always);
    var orphans := FilesNotIn(scan.onDisk, known);
    assert NonEmptyPaths([]) == [];
    var (r1, stop) := RowsPhase(scan.rows, dryRun, force, fileExists, db);
    assert !stop && r1.orphanPaths == [];
    assert RecordingsSync(Ok(scan), dryRun, force, fileExists, db, unlinks).orphanPaths == [] + orphans;
    if p !in orphans {
      var x :| x in scan.rows && Always(x.path) && x.path == p;
    }
  }

  /** The missing-file loop over the recording rows. */
  method CollectMissing(rows: seq<RecordingRow>, fileExists: string -> bool) returns (missing: seq<RecordingRow>)
    ensures missing == MissingRows(rows, fileExists)
  {
    missing := [];
    var i := 0;
    while i < |rows|
      invariant 0 <= i <= |rows|
      invariant missing == MissingRows(rows[..i], fileExists)
    {
      assert rows[..i + 1][..i] == rows[..i];
      if !fileExists(rows[i].path) {
        missing := missing + [rows[i]];
      }
      i := i + 1;
    }
    assert rows[..i] == rows;
  }

  /** The loop over the files on disk, keeping those no row references. */
  method CollectFilesNotIn(files: seq<string>, known: set<string>) returns (orphans: seq<string>)
    ensures orphans == FilesNotIn(files, known)
  {
    orphans := [];
    var j := 0;
    while j < |files|
      invariant 0 <= j <= |files|
      invariant orphans == FilesNotIn(files[..j], known)
    {
      assert files[..j + 1][..j] == files[..j];
      if files[j] !in known {
        orphans := orphans + [files[j]];
      }
      j := j + 1;
    }
    assert files[..j] == files;
  }

  /**
   * The database half, as a loop over the rows followed by the threshold
   * check, the temporary table and the delete, with the outer handler for
   * any exception other than the delete's `DatabaseError`.
   */
  method SyncRecordingRows(rows: seq<RecordingRow>, dryRun: bool, force: bool, fileExists: string -> bool,
                           db: RecordingDb) returns (r: SyncResult, stop: bool)
    ensures (r, stop) == RowsPhase(rows, dryRun, force, fileExists, db)
  {
    r := Started("recordings");
    var missing := CollectMissing(rows, fileExists);
    r := r.(filesChecked := |rows|, orphansFound := |missing|, orphanPaths := NonEmptyPaths(missing));
    if |rows| > 0 && 2 * |missing| > |rows| {
      if !force {
        return r.(aborted := true), true;
      }
    }
    if missing != [] && !dryRun {
      if db.stageError.Some? {
        return r.(error := db.stageError), true;
      }
      match db.delete {
        case DeleteFailed(message, databaseError) =>
          return r.(error := Some(message), aborted := databaseError), true;
        case Deleted =>
      }
      r := r.(orphansDeleted := r.orphansDeleted + |missing|);
    }
    stop := false;
  }

  /**
   * The file half, as a loop over the files followed by the threshold check
   * and the unlink loop; a failing `.exists()` query ends it in the outer
   * handler.
   */
  method SyncRecordingFiles(r1: SyncResult, rows: seq<RecordingRow>, onDisk: seq<string>, purged: bool, dryRun: bool,
                            force: bool, fileExists: string -> bool, existsError: Option<string>, unlinks: string -> bool)
    returns (r: SyncResult)
    requires r1.orphansDeleted <= r1.orphansFound && r1.error.None? && !r1.aborted
    ensures r == FilesPhase(r1, rows, onDisk, purged, dryRun, force, fileExists, existsError, unlinks)
  {
    var known := if purged then PathsWhere(rows, fileExists) else PathsWhere(rows, Always);
    if onDisk != [] && existsError.Some? {
      return r1.(filesChecked := r1.filesChecked + |onDisk|, error := existsError);
    }
    r := CheckFiles(r1, onDisk, known, dryRun, force, unlinks);
  }

  /** The loop over the files on disk, the threshold check and the unlink loop. */
  method CheckFiles(r1: SyncResult, onDisk: seq<string>, known: set<string>, dryRun: bool, force: bool,
                    unlinks: string -> bool) returns (r: SyncResult)
    requires r1.orphansDeleted <= r1.orphansFound
    ensures r == SweepFiles(r1, onDisk, known, dryRun, force, unlinks)
  {
    r := r1.(filesChecked := r1.filesChecked + |onDisk|);
    var orphans := CollectFilesNotIn(onDisk, known);
    r := r.(orphansFound := r.orphansFound + |orphans|, orphanPaths := r.orphanPaths + orphans);
    if |onDisk| > 0 && 2 * |orphans| > |onDisk| {
      if !force {
        r := r.(aborted := true);
        return;
      }
    }
    if dryRun {
      return;
    }
    r := Unlink(r, orphans, unlinks);
  }

  method SyncRecordings(scan: Result<RecordingScan>, dryRun: bool, force: bool, fileExists: string -> bool,
                        db: RecordingDb, unlinks: string -> bool) returns (r: SyncResult)
    ensures r == RecordingsSync(scan, dryRun, force, fileExists, db, unlinks)
  {
    if scan.Err? {
      return Failed("recordings", scan.error);
    }
    var stop;
    r, stop := SyncRecordingRows(scan.value.rows, dryRun, force, fileExists, db);
    if stop {
      return;
    }
    var purged := r.orphansFound > 0 && !dryRun;
    r := SyncRecordingFiles(r, scan.value.rows, scan.value.onDisk, purged, dryRun, force, fileExists, db.existsError, unlinks);
  }

  // ---- combined results ----

  /** `MediaSyncResults`: the result of each media type that ran. */
  datatype MediaSyncResults = MediaSyncResults(eventSnapshots: Option<SyncResult>, eventThumbnails: Option<SyncResult>,
                                               reviewThumbnails: Option<SyncResult>, previews: Option<SyncResult>,
                                               exports: Option<SyncResult>, recordings: Option<SyncResult>)

  /** The media type names, in the order results are listed. */
  const MediaTypes: seq<string> := ["event_snapshots", "event_thumbnails", "review_thumbnails", "previews", "exports", "recordings"]

  /** No two media types share a name, and none is "totals". */
  lemma MediaTypesDistinct()
    ensures forall i, j :: 0 <= i < j < |MediaTypes| ==> MediaTypes[i] != MediaTypes[j]
    ensures "totals" !in MediaTypes
  {
    assert forall i :: 0 <= i < |MediaTypes| ==> |MediaTypes[i]| == [15, 16, 17, 8, 7, 10][i];
  }

  /** The six results in `MediaTypes` order. */
  function Slots(m: MediaSyncResults): (s: seq<Option<SyncResult>>)
    ensures |s| == |MediaTypes|
  {
    [m.eventSnapshots, m.eventThumbnails, m.reviewThumbnails, m.previews, m.exports, m.recordings]
  }

  datatype Counter = FilesChecked | OrphansFound | OrphansDeleted

  function CounterOf(r: SyncResult, c: Counter): nat {
    match c
    case FilesChecked => r.filesChecked
    case OrphansFound => r.orphansFound
    case OrphansDeleted => r.orphansDeleted
  }

  /** The sum of counter `c` over the results present. */
  function Total(slots: seq<Option<SyncResult>>, c: Counter): nat
    decreases |slots|
  {
    if slots == [] then 0
    else
      var last := slots[|slots| - 1];
      Total(slots[..|slots| - 1], c) + if last.Some? then CounterOf(last.value, c) else 0
  }

  /** `total_files_checked`, `total_orphans_found` and `total_orphans_deleted`: the loop over the six results. */
  method TotalOf(m: MediaSyncResults, c: Counter) returns (total: nat)
    ensures total == Total(Slots(m), c)
  {
    var slots := Slots(m);
    total := 0;
    var i := 0;
    while i < |slots|
      invariant 0 <= i <= |slots|
      invariant total == Total(slots[..i], c)
    {
      assert slots[..i + 1][..i] == slots[..i];
      if slots[i].Some? {
        total := total + CounterOf(slots[i].value, c);
      }
      i := i + 1;
    }
    assert slots[..i] == slots;
  }

  /** When no result deleted more than it found, neither do the totals. */
  lemma {:induction false} TotalDeletedAtMostFound(slots: seq<Option<SyncResult>>)
    requires forall o :: o in slots && o.Some? ==> o.value.orphansDeleted <= o.value.orphansFound
    ensures Total(slots, OrphansDeleted) <= Total(slots, OrphansFound)
    decreases |slots|
  {
    if slots != [] {
      var front := slots[..|slots| - 1];
      assert forall o :: o in front ==> o in slots;
      TotalDeletedAtMostFound(front);
    }
  }

  /** The per-type entry of the combined dict: the counters and flags, without the type name. */
  function SummaryDict(r: SyncResult): JSON {
    Obj(["files_checked", "orphans_found", "orphans_deleted", "aborted", "error"],
        map["files_checked" := Int(r.filesChecked), "orphans_found" := Int(r.orphansFound),
            "orphans_deleted" := Int(r.orphansDeleted), "aborted" := Bool(r.aborted), "error" := OptionalStr(r.error)])
  }

  /** The `totals` entry. */
  function TotalsDict(m: MediaSyncResults): JSON {
    Obj(["files_checked", "orphans_found", "orphans_deleted"],
        map["files_checked" := Int(Total(Slots(m), FilesChecked)), "orphans_found" := Int(Total(Slots(m), OrphansFound)),
            "orphans_deleted" := Int(Total(Slots(m), OrphansDeleted))])
  }

  /** The names whose result is present, in order. */
  function PresentNames(slots: seq<Option<SyncResult>>, names: seq<string>): (r: seq<string>)
    requires |slots| == |names|
    decreases |slots|
  {
    if slots == [] then []
    else PresentNames(slots[..|slots| - 1], names[..|names| - 1]) + if slots[|slots| - 1].Some? then [names[|names| - 1]] else []
  }

  /** `d` is the dict of `m`: one entry per present result, in type order, then `totals`. */
  predicate IsResultsDict(d: JSON, m: MediaSyncResults) {
    && d.Obj? && d.keys == PresentNames(Slots(m), MediaTypes) + ["totals"]
    && (forall k :: 0 <= k < |MediaTypes| ==>
          Get(d, MediaTypes[k]) == if Slots(m)[k].Some? then Some(SummaryDict(Slots(m)[k].value)) else None)
    && Get(d, "totals") == Some(TotalsDict(m))
  }

  /** The dict after the first `i` types: their present results, in order, and no totals yet. */
  ghost predicate PrefixDict(d: JSON, slots: seq<Option<SyncResult>>, i: nat)
    requires i <= |slots| == |MediaTypes|
  {
    && d.Obj? && d.keys == PresentNames(slots[..i], MediaTypes[..i]) && "totals" !in d.values
    && forall k :: 0 <= k < |MediaTypes| ==>
         Get(d, MediaTypes[k]) == if k < i && slots[k].Some? then Some(SummaryDict(slots[k].value)) else None
  }

  /** Adding the entry of type `i`, when its result is present. */
  lemma PrefixDictStep(d: JSON, slots: seq<Option<SyncResult>>, i: nat)
    requires i < |slots| == |MediaTypes| && PrefixDict(d, slots, i)
    ensures PrefixDict(if slots[i].Some? then Set(d, MediaTypes[i], SummaryDict(slots[i].value)) else d, slots, i + 1)
  {
    var d' := if slots[i].Some? then Set(d, MediaTypes[i], SummaryDict(slots[i].value)) else d;
    PresentNamesNext(slots, i);
    MediaTypesDistinct();
    forall k | 0 <= k < |MediaTypes|
      ensures Get(d', MediaTypes[k]) == if k < i + 1 && slots[k].Some? then Some(SummaryDict(slots[k].value)) else None
    {
      if k != i {
        assert MediaTypes[k] != MediaTypes[i];
      }
    }
  }

  /** One more slot and name: the name joins the list when its result is present. */
  lemma PresentNamesNext(slots: seq<Option<SyncResult>>, i: nat)
    requires i < |slots| == |MediaTypes|
    ensures PresentNames(slots[..i + 1], MediaTypes[..i + 1])
            == PresentNames(slots[..i], MediaTypes[..i]) + if slots[i].Some? then [MediaTypes[i]] else []
  {
    assert slots[..i + 1][..i] == slots[..i] && MediaTypes[..i + 1][..i] == MediaTypes[..i];
  }

  /** Adding the totals after every type. */
  lemma TotalsLast(d: JSON, m: MediaSyncResults)
    requires PrefixDict(d, Slots(m), |MediaTypes|)
    ensures IsResultsDict(Set(d, "totals", TotalsDict(m)), m)
  {
    MediaTypesDistinct();
    assert Slots(m)[..|MediaTypes|] == Slots(m) && MediaTypes[..|MediaTypes|] == MediaTypes;
  }

  /** `MediaSyncResults.to_dict`. */
  method ToDict(m: MediaSyncResults) returns (d: JSON)
    ensures IsResultsDict(d, m)
  {
    var slots := Slots(m);
    d := Empty;
    for i := 0 to |slots|
      invariant PrefixDict(d, slots, i)
    {
      PrefixDictStep(d, slots, i);
      if slots[i].Some? {
        d := Set(d, MediaTypes[i], SummaryDict(slots[i].value));
      }
    }
    var checked := TotalOf(m, FilesChecked);
    var found := TotalOf(m, OrphansFound);
    var deleted := TotalOf(m, OrphansDeleted);
    TotalsLast(d, m);
    d := Set(d, "totals", Obj(["files_checked", "orphans_found", "orphans_deleted"],
                              map["files_checked" := Int(checked), "orphans_found" := Int(found), "orphans_deleted" := Int(deleted)]));
  }

  // ---- selection ----

  /** The directories the syncs look in. */
  datatype MediaDirs = MediaDirs(clips: string, thumbs: string, exports: string)

  /** What each sync reads; an `Err` is the exception its query or scan raised. */
  datatype MediaScans = MediaScans(snapshots: Result<SnapshotScan>, thumbnails: Result<ThumbnailScan>,
                                   review: Result<ReviewScan>, previews: Result<PreviewScan>,
                                   exports: Result<ExportScan>, recordings: Result<RecordingScan>)

  /** `media_type` runs: "all" is listed, or the type itself is. */
  predicate Selected(mediaTypes: seq<string>, name: string) {
    "all" in mediaTypes || name in mediaTypes
  }

  /** `sync_all_media`: the selected types' results in `MediaTypes` order, the others absent. */
  function AllSynced(dryRun: bool, mediaTypes: seq<string>, force: bool, dirs: MediaDirs, scans: MediaScans,
                     fileExists: string -> bool, db: RecordingDb, unlinks: string -> bool): MediaSyncResults
  {
    MediaSyncResults(
      if Selected(mediaTypes, "event_snapshots") then Some(SnapshotsSync(dirs.clips, scans.snapshots, dryRun, force, unlinks)) else None,
      if Selected(mediaTypes, "event_thumbnails") then Some(ThumbnailsSync(dirs.thumbs, scans.thumbnails, dryRun, force, unlinks)) else None,
      if Selected(mediaTypes, "review_thumbnails") then Some(ReviewSync(dirs.clips, scans.review, dryRun, force, unlinks)) else None,
      if Selected(mediaTypes, "previews") then Some(PreviewsSync(dirs.clips, scans.previews, dryRun, force, unlinks)) else None,
      if Selected(mediaTypes, "exports") then Some(ExportsSync(dirs.exports, dirs.clips, scans.exports, dryRun, force, unlinks)) else None,
      if Selected(mediaTypes, "recordings") then Some(RecordingsSync(scans.recordings, dryRun, force, fileExists, db, unlinks)) else None)
  }

  /** "all" runs every type; otherwise exactly the listed types run. */
  lemma AllSyncedSelects(dryRun: bool, mediaTypes: seq<string>, force: bool, dirs: MediaDirs, scans: MediaScans,
                         fileExists: string -> bool, db: RecordingDb, unlinks: string -> bool)
    ensures var m := AllSynced(dryRun, mediaTypes, force, dirs, scans, fileExists, db, unlinks);
            forall k :: 0 <= k < |MediaTypes| ==> (Slots(m)[k].Some? <==> "all" in mediaTypes || MediaTypes[k] in mediaTypes)
  {
  }

  /** Across all types, no more is deleted than was found, and a dry run deletes nothing. */
  lemma AllSyncedTotals(dryRun: bool, mediaTypes: seq<string>, force: bool, dirs: MediaDirs, scans: MediaScans,
                        fileExists: string -> bool, db: RecordingDb, unlinks: string -> bool)
    ensures var m := AllSynced(dryRun, mediaTypes, force, dirs, scans, fileExists, db, unlinks);
            Total(Slots(m), OrphansDeleted) <= Total(Slots(m), OrphansFound) && (dryRun ==> Total(Slots(m), OrphansDeleted) == 0)
  {
    var m := AllSynced(dryRun, mediaTypes, force, dirs, scans, fileExists, db, unlinks);
    var slots := Slots(m);
    assert forall o :: o in slots ==> o == m.eventSnapshots || o == m.eventThumbnails || o == m.reviewThumbnails
                                      || o == m.previews || o == m.exports || o == m.recordings;
    TotalDeletedAtMostFound(Slots(m));
    if dryRun {
      DryRunDeletesNothing(Slots(m));
    }
  }

  method SyncAllMedia(dryRun: bool, mediaTypes: seq<string>, force: bool, dirs: MediaDirs, scans: MediaScans,
                      fileExists: string -> bool, db: RecordingDb, unlinks: string -> bool)
    returns (m: MediaSyncResults)
    ensures m == AllSynced(dryRun, mediaTypes, force, dirs, scans, fileExists, db, unlinks)
  {
    var snapshots, thumbnails, review, previews, exports, recordings := None, None, None, None, None, None;
    if Selected(mediaTypes, "event_snapshots") {
      var r := SyncEventSnapshots(dirs.clips, scans.snapshots, dryRun, force, unlinks);
      snapshots := Some(r);
    }
    if Selected(mediaTypes, "event_thumbnails") {
      var r := SyncEventThumbnails(dirs.thumbs, scans.thumbnails, dryRun, force, unlinks);
      thumbnails := Some(r);
    }
    if Selected(mediaTypes, "review_thumbnails") {
      var r := SyncReviewThumbnails(dirs.clips, scans.review, dryRun, force, unlinks);
      review := Some(r);
    }
    if Selected(mediaTypes, "previews") {
      var r := SyncPreviews(dirs.clips, scans.previews, dryRun, force, unlinks);
      previews := Some(r);
    }
    if Selected(mediaTypes, "exports") {
      var r := SyncExports(dirs.exports, dirs.clips, scans.exports, dryRun, force, unlinks);
      exports := Some(r);
    }
    if Selected(mediaTypes, "recordings") {
      var r := SyncRecordings(scans.recordings, dryRun, force, fileExists, db, unlinks);
      recordings := Some(r);
    }
    m := MediaSyncResults(snapshots, thumbnails, review, previews, exports, recordings);
  }

  /** With nothing deleted anywhere, the deleted total is zero. */
  lemma {:induction false} DryRunDeletesNothing(slots: seq<Option<SyncResult>>)
    requires forall o :: o in slots && o.Some? ==> o.value.orphansDeleted == 0
    ensures Total(slots, OrphansDeleted) == 0
    decreases |slots|
  {
    if slots != [] {
      var front := slots[..|slots| - 1];
      assert forall o :: o in front ==> o in slots;
      DryRunDeletesNothing(front);
    }
  }
}
