/**
 * The recording endpoints' own logic: the sweep that reports the time
 * ranges without recordings, the validation and counting of a recording
 * deletion, the intersection of requested with allowed cameras, and the
 * per-day merge of hourly summaries. Database rows are inputs; times are
 * whole seconds.
 */
module RecordApi {
  import opened Wrappers
  import opened Json
  import Text
  import Seqs

  // ------------------------------------------------------------- cameras

  /**
   * The cameras a request may see: every allowed camera for "all";
   * otherwise the requested comma-separated names that are allowed, or
   * None when there are none.
   */
  function CameraFilter(cameras: string, allowed: set<string>): (r: Option<set<string>>)
    ensures cameras == "all" ==> r == Some(allowed)
    ensures cameras != "all" && r.Some? ==> r.value != {} && r.value <= allowed
    ensures cameras != "all" ==> forall c :: (r.Some? && c in r.value) <==> c in Text.Split(cameras, ',') && c in allowed
  {
    if cameras == "all" then Some(allowed)
    else
      var filtered := set c | c in Text.Split(cameras, ',') && c in allowed;
      if filtered == {} then
        assert forall c :: c in Text.Split(cameras, ',') && c in allowed ==> c in filtered;
        None
      else Some(filtered)
  }

  /** A request never widens what the caller may see. */
  lemma CameraFilterWithinAllowed(cameras: string, allowed: set<string>)
    ensures CameraFilter(cameras, allowed).Some? ==> CameraFilter(cameras, allowed).value <= allowed
  {
  }

  // ------------------------------------------------------------- gap sweep

  /** A recording overlaps [start, end): it starts before the end and ends after the start, both strictly. */
  predicate HasRecording(recordings: seq<(int, int)>, start: int, end: int) {
    exists i :: 0 <= i < |recordings| && recordings[i].0 < end && recordings[i].1 > start
  }

  function Min(a: int, b: int): int {
    if a < b then a else b
  }

  /**
   * The gaps the sweep reports from `current` on, segment by segment of
   * length `scale` (the last one cut at `before`); `open` is where the gap
   * being built started. An uncovered segment opens or extends the gap, a
   * covered one closes it at its own start, and a gap still open at the
   * end closes at `before`.
   */
  function Sweep(recordings: seq<(int, int)>, current: int, before: int, scale: int, open: Option<int>): seq<(int, int)>
    requires scale > 0
    decreases before - current
  {
    if current >= before then (if open.Some? then [(open.value, before)] else [])
    else
      var segmentEnd := Min(current + scale, before);
      if !HasRecording(recordings, current, segmentEnd) then
        Sweep(recordings, segmentEnd, before, scale, if open.None? then Some(current) else open)
      else
        (if open.Some? then [(open.value, current)] else []) + Sweep(recordings, segmentEnd, before, scale, None)
  }

  /**
   * `no_recordings` from `after` to `before` in steps of `scale` seconds,
   * given the recordings' (start, end) times. The gaps are returned as
   * (start_time, end_time) pairs.
   */
  method NoRecordings(recordings: seq<(int, int)>, after: int, before: int, scale: int) returns (gaps: seq<(int, int)>)
    requires scale > 0
    ensures gaps == Sweep(recordings, after, before, scale, None)
  {
    gaps := [];
    var current := after;
    var gapStart: Option<int> := None;
    while current < before
      invariant gaps + Sweep(recordings, current, before, scale, gapStart) == Sweep(recordings, after, before, scale, None)
      decreases before - current
    {
      var segmentEnd := Min(current + scale, before);
      var hasRecording := HasRecording(recordings, current, segmentEnd);
      if !hasRecording {
        if gapStart.None? {
          gapStart := Some(current);
        }
      } else {
        if gapStart.Some? {
          gaps := gaps + [(gapStart.value, current)];
          gapStart := None;
        }
      }
      current := segmentEnd;
    }
    if gapStart.Some? {
      gaps := gaps + [(gapStart.value, before)];
    }
  }

  /** The gaps lie in time order, each non-empty and within [start of the sweep, before], and no two touch. */
  predicate Ordered(gaps: seq<(int, int)>, lo: int, before: int) {
    && (forall i :: 0 <= i < |gaps| ==> lo <= gaps[i].0 < gaps[i].1 <= before)
    && (forall i, j :: 0 <= i < j < |gaps| ==> gaps[i].1 < gaps[j].0)
  }

  lemma {:induction false} SweepOrdered(recordings: seq<(int, int)>, current: int, before: int, scale: int, open: Option<int>)
    requires scale > 0
    requires open.Some? ==> open.value < current <= before
    ensures Ordered(Sweep(recordings, current, before, scale, open), if open.Some? then open.value else current, before)
    decreases before - current
  {
    if current < before {
      var segmentEnd := Min(current + scale, before);
      if !HasRecording(recordings, current, segmentEnd) {
        SweepOrdered(recordings, segmentEnd, before, scale, if open.None? then Some(current) else open);
      } else {
        SweepOrdered(recordings, segmentEnd, before, scale, None);
        var rest := Sweep(recordings, segmentEnd, before, scale, None);
        if open.Some? {
          var g := [(open.value, current)] + rest;
          assert g[1..] == rest;
          assert forall i :: 1 <= i < |g| ==> g[i] == rest[i - 1];
        }
      }
    }
  }

  /** An open gap is the first one reported, and it reaches at least the current time. */
  lemma {:induction false} OpenGapFirst(recordings: seq<(int, int)>, current: int, before: int, scale: int, open: Option<int>)
    requires scale > 0 && open.Some? && open.value < current <= before
    ensures var gaps := Sweep(recordings, current, before, scale, open);
            gaps != [] && gaps[0].0 == open.value && gaps[0].1 >= current
    decreases before - current
  {
    if current < before {
      var segmentEnd := Min(current + scale, before);
      if !HasRecording(recordings, current, segmentEnd) {
        OpenGapFirst(recordings, segmentEnd, before, scale, open);
      }
    }
  }

  /** The start of the segment holding time t, for segments of `scale` seconds laid from `origin`. */
  function SegmentStart(origin: int, scale: int, t: int): (r: int)
    requires scale > 0 && origin <= t
    ensures origin <= r <= t < r + scale
    decreases t - origin
  {
    if t < origin + scale then origin else SegmentStart(origin + scale, scale, t)
  }

  /** Time t is in a reported gap. */
  predicate InGaps(gaps: seq<(int, int)>, t: int) {
    exists i :: 0 <= i < |gaps| && gaps[i].0 <= t < gaps[i].1
  }

  lemma InGapsConcat(a: seq<(int, int)>, b: seq<(int, int)>, t: int)
    ensures InGaps(a + b, t) <==> InGaps(a, t) || InGaps(b, t)
  {
    if InGaps(a + b, t) {
      var i :| 0 <= i < |a + b| && (a + b)[i].0 <= t < (a + b)[i].1;
      if i >= |a| {
        assert (a + b)[i] == b[i - |a|];
      }
    }
    if InGaps(a, t) {
      var i :| 0 <= i < |a| && a[i].0 <= t < a[i].1;
      assert (a + b)[i] == a[i];
    }
    if InGaps(b, t) {
      var i :| 0 <= i < |b| && b[i].0 <= t < b[i].1;
      assert (a + b)[i + |a|] == b[i];
    }
  }

  lemma NotInGapsBelow(gaps: seq<(int, int)>, lo: int, before: int, t: int)
    requires Ordered(gaps, lo, before) && t < lo
    ensures !InGaps(gaps, t)
  {
  }

  lemma {:induction false} SweepExact(recordings: seq<(int, int)>, current: int, before: int, scale: int, open: Option<int>, t: int)
    requires scale > 0 && current <= t < before
    requires open.Some? ==> open.value < current
    ensures var start := SegmentStart(current, scale, t);
            InGaps(Sweep(recordings, current, before, scale, open), t)
            <==> !HasRecording(recordings, start, Min(start + scale, before))
    decreases before - current
  {
    var segmentEnd := Min(current + scale, before);
    var covered := HasRecording(recordings, current, segmentEnd);
    var next := if covered then None else if open.None? then Some(current) else open;
    var rest := Sweep(recordings, segmentEnd, before, scale, next);
    var closing: seq<(int, int)> := if covered && open.Some? then [(open.value, current)] else [];
    assert Sweep(recordings, current, before, scale, open) == closing + rest;
    InGapsConcat(closing, rest, t);
    assert !InGaps(closing, t);
    if t < segmentEnd {
      assert SegmentStart(current, scale, t) == current;
      if covered {
        SweepOrdered(recordings, segmentEnd, before, scale, None);
        NotInGapsBelow(rest, segmentEnd, before, t);
      } else {
        OpenGapFirst(recordings, segmentEnd, before, scale, next);
        assert rest[0].0 <= t < rest[0].1;
        assert InGaps(rest, t);
      }
    } else {
      assert SegmentStart(current, scale, t) == SegmentStart(segmentEnd, scale, t);
      SweepExact(recordings, segmentEnd, before, scale, next, t);
    }
  }

  /**
   * The reported gaps are in time order, within [after, before], and
   * separated; a time in [after, before) is in one exactly when the
   * `scale`-long segment from `after` that holds it has no recording.
   */
  lemma NoRecordingsGaps(recordings: seq<(int, int)>, after: int, before: int, scale: int)
    requires scale > 0
    ensures Ordered(Sweep(recordings, after, before, scale, None), after, before)
    ensures forall t :: after <= t < before ==>
              var start := SegmentStart(after, scale, t);
              InGaps(Sweep(recordings, after, before, scale, None), t) <==> !HasRecording(recordings, start, Min(start + scale, before))
  {
    SweepOrdered(recordings, after, before, scale, None);
    forall t | after <= t < before
      ensures var start := SegmentStart(after, scale, t);
              InGaps(Sweep(recordings, after, before, scale, None), t) <==> !HasRecording(recordings, start, Min(start + scale, before))
    {
      SweepExact(recordings, after, before, scale, None, t);
    }
  }

  /** Without recordings, the whole range is one gap. */
  lemma {:induction false} NoRecordingsOneGap(current: int, before: int, scale: int, open: Option<int>)
    requires scale > 0 && current < before
    ensures Sweep([], current, before, scale, open) == [(open.GetOr(current), before)]
    decreases before - current
  {
    var segmentEnd := Min(current + scale, before);
    assert !HasRecording([], current, segmentEnd);
    if segmentEnd < before {
      NoRecordingsOneGap(segmentEnd, before, scale, Some(open.GetOr(current)));
    }
  }

  // ------------------------------------------------------------- the sweep endpoint

  /** Where the sweep stands after `n` more segments, or at `before` once it gets there. */
  function Advance(current: int, before: int, scale: int, n: nat): int
    decreases n
  {
    if n == 0 || current >= before then current else Advance(Min(current + scale, before), before, scale, n - 1)
  }

  /**
   * The query parameter `scale` has no lower bound. With `scale` 0 or below
   * no segment moves the sweep forward: however many segments it takes, it
   * never reaches `before`, so the loop never ends.
   */
  lemma {:induction false} SweepStallsWithoutScale(current: int, before: int, scale: int, n: nat)
    requires scale <= 0 && current < before
    ensures Advance(current, before, scale, n) <= current
    decreases n
  {
    if n > 0 {
      SweepStallsWithoutScale(Min(current + scale, before), before, scale, n - 1);
    }
  }

  /** One hour, in seconds: how far back the default lower bound reaches. */
  const HourSeconds := 3600

  /** A time bound as the query gives it: a missing or zero value is falsy, and `or` falls back to `fallback`. */
  function Bound(v: Option<int>, fallback: int): int {
    if v.Some? && v.value != 0 then v.value else fallback
  }

  /** Whether a query bound is truthy, so that `or` does not reach its default. */
  predicate Given(v: Option<int>) {
    v.Some? && v.value != 0
  }

  /**
   * `no_recordings` as written, for a positive `scale`. A request naming no
   * allowed camera gets no gaps. Otherwise a missing (or zero) `before` or
   * `after` reaches the clock default, which calls `datetime.datetime.now()`
   * on the imported class and raises. For "all" the camera variable is
   * rebound to the allowed camera list; the next test compares that list
   * with "all", which never holds, and splits it, which a list cannot do.
   * What is left is the sweep over the selected cameras' recordings
   * (`recordingsOf` is the query). `now` is the clock the defaults would read.
   */
  function NoRecordingsAsWritten(cameras: string, allowed: set<string>, recordingsOf: set<string> -> seq<(int, int)>,
                                 after: Option<int>, before: Option<int>, scale: int, now: int): (r: Result<seq<(int, int)>>)
    requires scale > 0
    ensures r.Err? <==> cameras == "all" || (CameraFilter(cameras, allowed).Some? && (!Given(after) || !Given(before)))
    ensures cameras != "all" && Given(after) && Given(before) ==>
              r == NoRecordingsResponse(cameras, allowed, recordingsOf, after, before, scale, now)
  {
    if cameras != "all" && CameraFilter(cameras, allowed).None? then Ok([])
    else if !Given(before) || !Given(after) then Err("AttributeError: type object 'datetime.datetime' has no attribute 'datetime'")
    else if cameras == "all" then Err("AttributeError: 'list' object has no attribute 'split'")
    else Ok(Sweep(recordingsOf(CameraFilter(cameras, allowed).value), after.value, before.value, scale, None))
  }

  /**
   * The endpoint as intended: a `scale` below 1 is refused as a validation
   * error; a missing or zero bound defaults to now (`before`) and an hour
   * ago (`after`); "all" sweeps the recordings of every allowed camera; a
   * request naming no allowed camera gets no gaps. The gaps are always in
   * order and within the bounds.
   */
  function NoRecordingsResponse(cameras: string, allowed: set<string>, recordingsOf: set<string> -> seq<(int, int)>,
                                after: Option<int>, before: Option<int>, scale: int, now: int): (r: Result<seq<(int, int)>>)
    ensures r.Err? <==> scale <= 0
    ensures r.Ok? ==> Ordered(r.value, Bound(after, now - HourSeconds), Bound(before, now))
    ensures scale > 0 && CameraFilter(cameras, allowed).None? ==> r == Ok([])
    ensures scale > 0 && cameras == "all" ==>
              r == Ok(Sweep(recordingsOf(allowed), Bound(after, now - HourSeconds), Bound(before, now), scale, None))
  {
    if scale <= 0 then Err("scale: Input should be greater than 0")
    else
      var lo := Bound(after, now - HourSeconds);
      var hi := Bound(before, now);
      match CameraFilter(cameras, allowed)
      case None => Ok([])
      case Some(selected) =>
        NoRecordingsGaps(recordingsOf(selected), lo, hi, scale);
        Ok(Sweep(recordingsOf(selected), lo, hi, scale, None))
  }

  /** The default request fails as written, where the intended endpoint sweeps every allowed camera. */
  lemma AllCamerasFailsAsWritten(allowed: set<string>, recordingsOf: set<string> -> seq<(int, int)>, after: int, before: int, now: int)
    requires after != 0 && before != 0
    ensures NoRecordingsAsWritten("all", allowed, recordingsOf, Some(after), Some(before), 30, now).Err?
    ensures NoRecordingsResponse("all", allowed, recordingsOf, Some(after), Some(before), 30, now)
              == Ok(Sweep(recordingsOf(allowed), after, before, 30, None))
  {
  }

  /**
   * A request for an allowed camera that gives neither bound fails as
   * written, where the intended endpoint sweeps the last hour up to now.
   */
  lemma MissingBoundsFailAsWritten(camera: string, allowed: set<string>, recordingsOf: set<string> -> seq<(int, int)>, now: int)
    requires camera != "all" && CameraFilter(camera, allowed).Some?
    ensures NoRecordingsAsWritten(camera, allowed, recordingsOf, None, None, 30, now).Err?
    ensures NoRecordingsResponse(camera, allowed, recordingsOf, None, None, 30, now)
              == Ok(Sweep(recordingsOf(CameraFilter(camera, allowed).value), now - HourSeconds, now, 30, None))
  {
  }

  // ------------------------------------------------------------- deletion

  /** A recording row as the deletion query reads it; a NULL column is None. */
  datatype Recording = Recording(id: string, path: string, camera: string, startTime: int, endTime: int,
                                 motion: Option<int>, objects: Option<int>, dBFS: Option<int>)

  /**
   * The overlap clause: the row starts or ends within [start, end] (SQL
   * BETWEEN includes both bounds), or it starts before and ends after the range.
   */
  predicate Overlaps(r: Recording, start: int, end: int) {
    (start <= r.startTime <= end) || (start <= r.endTime <= end) || (start > r.startTime && end < r.endTime)
  }

  /** For a well-formed row and range, the three-way clause is closed-interval intersection. */
  lemma OverlapsIntersects(r: Recording, start: int, end: int)
    requires start <= end && r.startTime <= r.endTime
    ensures Overlaps(r, start, end) <==> r.startTime <= end && start <= r.endTime
  {
  }

  /** The comma-separated ids of `keep` when it is given and non-empty, otherwise the empty set. */
  function KeepSet(keep: Option<string>): (r: set<string>)
    ensures keep.None? || keep.value == "" ==> r == {}
    ensures keep.Some? && keep.value != "" ==> forall k :: k in r <==> k in Text.Split(keep.value, ',')
  {
    if keep.Some? && keep.value != "" then set k | k in Text.Split(keep.value, ',') else {}
  }

  /** The keep clauses: a row with motion, with objects, or with an audio level is spared when asked. */
  predicate Kept(r: Recording, keepSet: set<string>) {
    || ("motion" in keepSet && r.motion.Some? && r.motion.value > 0)
    || ("object" in keepSet && r.objects.Some? && r.objects.value > 0)
    || ("audio" in keepSet && r.dBFS.Some?)
  }

  /** The rows the deletion query selects. */
  predicate Doomed(r: Recording, start: int, end: int, cameras: set<string>, keepSet: set<string>) {
    Overlaps(r, start, end) && r.camera in cameras && !Kept(r, keepSet)
  }

  /** The selected rows, in table order. */
  function Matched(rows: seq<Recording>, start: int, end: int, cameras: set<string>, keepSet: set<string>): seq<Recording> {
    Seqs.Filter((r: Recording) => Doomed(r, start, end, cameras, keepSet), rows)
  }

  /** The ids of some rows, in order. */
  function Ids(rows: seq<Recording>): seq<string> {
    Seqs.Map((r: Recording) => r.id, rows)
  }

  /** The rows whose id is not among `ids`, in order: the table after `DELETE ... WHERE id IN ids`. */
  function Remaining(rows: seq<Recording>, ids: seq<string>): (r: seq<Recording>)
    ensures forall x :: x in r <==> x in rows && x.id !in ids
  {
    if rows == [] then []
    else Remaining(rows[..|rows| - 1], ids) + (if rows[|rows| - 1].id in ids then [] else [rows[|rows| - 1]])
  }

  /** Deleting no ids leaves the table as it was. */
  lemma {:induction false} RemainingNothing(rows: seq<Recording>)
    ensures Remaining(rows, []) == rows
    decreases |rows|
  {
    if rows != [] {
      RemainingNothing(rows[..|rows| - 1]);
    }
  }

  /** Deleting one batch of ids after another is deleting both. */
  lemma {:induction false} RemainingBatches(rows: seq<Recording>, a: seq<string>, b: seq<string>)
    ensures Remaining(Remaining(rows, a), b) == Remaining(rows, a + b)
    decreases |rows|
  {
    if rows != [] {
      var init, last := rows[..|rows| - 1], rows[|rows| - 1];
      RemainingBatches(init, a, b);
      var once := Remaining(init, a);
      var inBoth := last.id in a + b;
      assert inBoth <==> last.id in a || last.id in b;
      assert Remaining(rows, a + b) == Remaining(init, a + b) + (if inBoth then [] else [last]);
      if last.id in a {
        assert Remaining(rows, a) == once;
      } else {
        assert Remaining(rows, a) == once + [last];
        assert (once + [last])[..|once + [last]| - 1] == once;
        assert Remaining(once + [last], b) == Remaining(once, b) + (if last.id in b then [] else [last]);
      }
    }
  }

  /** Files deleted per DELETE statement. */
  const MaxDeletes: nat := 100000

  const DeletedPrefix: string := "Successfully deleted "

  /** The success message for the given counts of deleted files and of failed deletions. */
  function DeletionMessage(deleted: nat, errors: nat): string {
    DeletedPrefix + Text.NatToString(deleted) + " recording(s)."
    + (if errors > 0 then " " + Text.NatToString(errors) + " file deletion error(s) occurred." else "")
  }

  /** The count a success message announces: the digits after the prefix, up to the next space. */
  function ReportedCount(message: string): Option<nat> {
    if |message| < |DeletedPrefix| || message[..|DeletedPrefix|] != DeletedPrefix then None
    else
      var rest := message[|DeletedPrefix|..];
      Text.ParseNat(rest[..Text.Find(rest, (c: char) => c == ' ')])
  }

  /** A count followed by a space-led tail is read back after the prefix. */
  lemma ReportedCountOf(n: nat, tail: string)
    requires tail != [] && tail[0] == ' '
    ensures ReportedCount(DeletedPrefix + (Text.NatToString(n) + tail)) == Some(n)
  {
    var digits := Text.NatToString(n);
    var message := DeletedPrefix + (digits + tail);
    assert message[..|DeletedPrefix|] == DeletedPrefix;
    assert message[|DeletedPrefix|..] == digits + tail;
    var stop := (c: char) => c == ' ';
    forall j | 0 <= j < |digits|
      ensures !stop(digits[j])
    {
      assert Text.IsDigit(digits[j]);
    }
    Text.FindAfter(digits, tail, stop);
    assert (digits + tail)[..|digits|] == digits;
    Text.ParseNatToString(n);
  }

  /** The success message announces exactly the number of files deleted, whatever the error count. */
  lemma DeletionMessageReportsCount(deleted: nat, errors: nat)
    ensures ReportedCount(DeletionMessage(deleted, errors)) == Some(deleted)
  {
    var tail := " recording(s)." + (if errors > 0 then " " + Text.NatToString(errors) + " file deletion error(s) occurred." else "");
    assert DeletionMessage(deleted, errors) == DeletedPrefix + (Text.NatToString(deleted) + tail);
    ReportedCountOf(deleted, tail);
  }

  /** The response of a deletion request. */
  datatype Response = Response(status: int, success: bool, message: string)

  /**
   * `delete_recordings`: a range that is empty or reversed, or a camera list
   * that leaves no allowed camera, is refused with 400 and deletes nothing.
   * Otherwise every selected row's file is unlinked (`unlinks` tells which
   * unlinks succeed), the successes and failures are counted, all selected
   * rows are deleted from the table in batches of `MaxDeletes` ids, and the
   * message reports the counts. `rows` is the table; `table` is it afterwards.
   */
  method DeleteRecordings(start: int, end: int, cameras: string, allowed: set<string>, keep: Option<string>,
                          rows: seq<Recording>, unlinks: string -> bool)
    returns (response: Response, table: seq<Recording>, deleted: nat, errors: nat)
    ensures start >= end ==>
              response == Response(400, false, "Start time must be less than end time.") && table == rows
    ensures start < end && CameraFilter(cameras, allowed).None? ==>
              response == Response(400, false, "No valid cameras found in the request.") && table == rows
    ensures start < end && CameraFilter(cameras, allowed).Some? ==>
              var matched := Matched(rows, start, end, CameraFilter(cameras, allowed).value, KeepSet(keep));
              && deleted + errors == |matched|
              && deleted == |Seqs.Filter((r: Recording) => unlinks(r.path), matched)|
              && response == Response(200, true, DeletionMessage(deleted, errors))
              && table == Remaining(rows, Ids(matched))
  {
    deleted, errors := 0, 0;
    table := rows;
    if start >= end {
      return Response(400, false, "Start time must be less than end time."), table, deleted, errors;
    }
    var filter := CameraFilter(cameras, allowed);
    if filter.None? {
      return Response(400, false, "No valid cameras found in the request."), table, deleted, errors;
    }
    var keepSet := KeepSet(keep);
    var matched := Matched(rows, start, end, filter.value, keepSet);
    var ids;
    ids, deleted, errors := UnlinkFiles(matched, unlinks);
    table := DeleteRows(rows, ids);
    response := Response(200, true, DeletionMessage(deleted, errors));
  }

  /**
   * The loop over the selected rows: each id is collected and each file
   * unlinked, counting successes (`unlinks` holds) and failures.
   */
  method UnlinkFiles(matched: seq<Recording>, unlinks: string -> bool) returns (ids: seq<string>, deleted: nat, errors: nat)
    ensures ids == Ids(matched)
    ensures deleted == |Seqs.Filter((r: Recording) => unlinks(r.path), matched)|
    ensures deleted + errors == |matched|
  {
    ids, deleted, errors := [], 0, 0;
    var unlinked := (r: Recording) => unlinks(r.path);
    for i := 0 to |matched|
      invariant ids == Ids(matched[..i])
      invariant deleted == |Seqs.Filter(unlinked, matched[..i])|
      invariant deleted + errors == i
    {
      Seqs.FilterPrefix(unlinked, matched, i);
      Seqs.MapPrefix((r: Recording) => r.id, matched, i);
      ids := ids + [matched[i].id];
      if unlinks(matched[i].path) {
        deleted := deleted + 1;
      } else {
        errors := errors + 1;
      }
    }
    assert matched[..|matched|] == matched;
  }

  /** The batched `DELETE ... WHERE id IN batch`, `MaxDeletes` ids at a time. */
  method DeleteRows(rows: seq<Recording>, ids: seq<string>) returns (table: seq<Recording>)
    ensures table == Remaining(rows, ids)
  {
    table := rows;
    RemainingNothing(rows);
    var i := 0;
    while i < |ids|
      invariant i <= |ids|
      invariant table == Remaining(rows, ids[..i])
      decreases |ids| - i
    {
      var next := if i + MaxDeletes < |ids| then i + MaxDeletes else |ids|;
      RemainingBatches(rows, ids[..i], ids[i..next]);
      assert ids[..i] + ids[i..next] == ids[..next];
      table := Remaining(table, ids[i..next]);
      i := next;
    }
    assert ids[..i] == ids;
  }

  /** Row ids are the table's primary key. */
  predicate UniqueIds(rows: seq<Recording>) {
    forall i, j :: 0 <= i < |rows| && 0 <= j < |rows| && rows[i].id == rows[j].id ==> i == j
  }

  /** With unique ids, the table after a deletion holds exactly the rows the query did not select. */
  lemma DeletionKeepsUnselected(rows: seq<Recording>, start: int, end: int, cameras: set<string>, keepSet: set<string>)
    requires UniqueIds(rows)
    ensures forall x :: (x in Remaining(rows, Ids(Matched(rows, start, end, cameras, keepSet))))
                        <==> x in rows && !Doomed(x, start, end, cameras, keepSet)
  {
    var doomed := (r: Recording) => Doomed(r, start, end, cameras, keepSet);
    var id := (r: Recording) => r.id;
    forall x | x in rows
      ensures x.id in Ids(Matched(rows, start, end, cameras, keepSet)) <==> doomed(x)
    {
      Seqs.MapFilterMember(id, doomed, rows, x.id);
      if x.id in Ids(Matched(rows, start, end, cameras, keepSet)) {
        var m :| m in rows && doomed(m) && x.id == m.id;
        var i :| 0 <= i < |rows| && rows[i] == x;
        var j :| 0 <= j < |rows| && rows[j] == m;
        assert i == j;
      }
    }
  }

  // ------------------------------------------------------------- summaries

  /**
   * One row of the hourly query: its local hour "%Y-%m-%d %H" as the day
   * part and the hour part, and the summed duration (rounded), motion and
   * objects of the recordings in it.
   */
  datatype HourGroup = HourGroup(day: string, hour: string, duration: int, motion: int, objects: int)

  /** One DST period of `recordings_summary`: its hourly rows and its event counts by hour. */
  datatype PeriodHours = PeriodHours(groups: seq<HourGroup>, eventMap: map<string, int>)

  datatype HourData = HourData(hour: string, events: int, motion: int, objects: int, duration: int)

  datatype DaySummary = DaySummary(events: int, hours: seq<HourData>, day: string)

  /** The `days` dict: its keys in insertion order and the summary of each. */
  datatype Days = Days(order: seq<string>, byDay: map<string, DaySummary>)

  /** `hour_data` for a row: the events of its hour, 0 when the event map has none. */
  function HourOf(g: HourGroup, eventMap: map<string, int>): (h: HourData)
    ensures h.hour == g.hour && h.motion == g.motion && h.objects == g.objects && h.duration == g.duration
    ensures g.day + " " + g.hour in eventMap ==> h.events == eventMap[g.day + " " + g.hour]
    ensures g.day + " " + g.hour !in eventMap ==> h.events == 0
  {
    var key := g.day + " " + g.hour;
    HourData(g.hour, if key in eventMap then eventMap[key] else 0, g.motion, g.objects, g.duration)
  }

  /** The (day, hour data) pairs of one period's rows, in row order. */
  function PeriodEntries(groups: seq<HourGroup>, eventMap: map<string, int>): (r: seq<(string, HourData)>)
    ensures |r| == |groups|
  {
    if groups == [] then []
    else
      var g := groups[|groups| - 1];
      PeriodEntries(groups[..|groups| - 1], eventMap) + [(g.day, HourOf(g, eventMap))]
  }

  /** The (day, hour data) pairs of all periods, period after period. */
  function Entries(periods: seq<PeriodHours>): seq<(string, HourData)> {
    if periods == [] then []
    else
      var p := periods[|periods| - 1];
      Entries(periods[..|periods| - 1]) + PeriodEntries(p.groups, p.eventMap)
  }

  /**
   * One hour merged into `days`: a day already present adds the hour's events
   * and appends the hour; a new day goes last with this hour alone.
   */
  function AddHour(days: Days, day: string, h: HourData): Days {
    if day in days.byDay then
      var s := days.byDay[day];
      Days(days.order, days.byDay[day := DaySummary(s.events + h.events, s.hours + [h], day)])
    else Days(days.order + [day], days.byDay[day := DaySummary(h.events, [h], day)])
  }

  /** The `days` dict after merging the entries in order. */
  function MergeDays(entries: seq<(string, HourData)>): Days {
    if entries == [] then Days([], map[])
    else
      var e := entries[|entries| - 1];
      AddHour(MergeDays(entries[..|entries| - 1]), e.0, e.1)
  }

  /** The hours of one day among the entries, in order. */
  function HoursOn(entries: seq<(string, HourData)>, day: string): seq<HourData> {
    if entries == [] then []
    else
      var e := entries[|entries| - 1];
      HoursOn(entries[..|entries| - 1], day) + (if e.0 == day then [e.1] else [])
  }

  /** The events of one day among the entries. */
  function EventsOn(entries: seq<(string, HourData)>, day: string): int {
    if entries == [] then 0
    else
      var e := entries[|entries| - 1];
      EventsOn(entries[..|entries| - 1], day) + (if e.0 == day then e.1.events else 0)
  }

  /** What the merged dict holds: distinct keys, and for each day its own events and hours. */
  ghost predicate GroupsByDay(days: Days, entries: seq<(string, HourData)>) {
    && (forall day :: day in days.order <==> day in days.byDay)
    && (forall i, j :: 0 <= i < j < |days.order| ==> days.order[i] != days.order[j])
    && (forall day :: day in days.byDay <==> HoursOn(entries, day) != [])
    && (forall day :: day in days.byDay ==> days.byDay[day] == DaySummary(EventsOn(entries, day), HoursOn(entries, day), day))
  }

  lemma OnSnoc(entries: seq<(string, HourData)>, e: (string, HourData), day: string)
    ensures HoursOn(entries + [e], day) == HoursOn(entries, day) + (if e.0 == day then [e.1] else [])
    ensures EventsOn(entries + [e], day) == EventsOn(entries, day) + (if e.0 == day then e.1.events else 0)
  {
    assert (entries + [e])[..|entries|] == entries;
  }

  /** A day without hours has no events. */
  lemma {:induction false} NoHoursNoEvents(entries: seq<(string, HourData)>, day: string)
    requires HoursOn(entries, day) == []
    ensures EventsOn(entries, day) == 0
    decreases |entries|
  {
    if entries != [] {
      NoHoursNoEvents(entries[..|entries| - 1], day);
    }
  }

  /** Appending a key not yet present keeps the keys distinct. */
  lemma AppendDistinct(order: seq<string>, day: string)
    requires forall i, j :: 0 <= i < j < |order| ==> order[i] != order[j]
    requires day !in order
    ensures forall i, j :: 0 <= i < j < |order + [day]| ==> (order + [day])[i] != (order + [day])[j]
  {
    var after := order + [day];
    forall i, j | 0 <= i < j < |after|
      ensures after[i] != after[j]
    {
      if j == |order| {
        assert after[i] == order[i];
      }
    }
  }

  /** Adding an hour keeps the dict grouped by day. */
  lemma AddHourGroups(before: Days, init: seq<(string, HourData)>, e: (string, HourData))
    requires GroupsByDay(before, init)
    ensures GroupsByDay(AddHour(before, e.0, e.1), init + [e])
  {
    var after, entries := AddHour(before, e.0, e.1), init + [e];
    if e.0 !in before.byDay {
      AppendDistinct(before.order, e.0);
    }
    forall day
      ensures day in after.order <==> day in after.byDay
      ensures day in after.byDay <==> HoursOn(entries, day) != []
      ensures day in after.byDay ==> after.byDay[day] == DaySummary(EventsOn(entries, day), HoursOn(entries, day), day)
    {
      OnSnoc(init, e, day);
      if day == e.0 && e.0 !in before.byDay {
        NoHoursNoEvents(init, e.0);
      }
    }
  }

  /**
   * Merging hour by hour groups the entries by day: each day that has an
   * hour appears once, with the sum of its hours' events and its hours in
   * order, whatever period they came from.
   */
  lemma {:induction false} MergeDaysGroups(entries: seq<(string, HourData)>)
    ensures GroupsByDay(MergeDays(entries), entries)
    decreases |entries|
  {
    if entries == [] {
      forall day
        ensures HoursOn(entries, day) == []
      {
      }
    } else {
      var init, e := entries[..|entries| - 1], entries[|entries| - 1];
      MergeDaysGroups(init);
      assert entries == init + [e];
      AddHourGroups(MergeDays(init), init, e);
    }
  }

  /** Merging one more entry. */
  lemma MergeDaysSnoc(entries: seq<(string, HourData)>, e: (string, HourData))
    ensures MergeDays(entries + [e]) == AddHour(MergeDays(entries), e.0, e.1)
  {
    assert (entries + [e])[..|entries|] == entries;
  }

  /** Merging the rows of a period up to one more row. */
  lemma MergeNextRow(done: seq<(string, HourData)>, groups: seq<HourGroup>, j: nat, eventMap: map<string, int>)
    requires j < |groups|
    ensures MergeDays(done + PeriodEntries(groups[..j + 1], eventMap))
            == AddHour(MergeDays(done + PeriodEntries(groups[..j], eventMap)), groups[j].day, HourOf(groups[j], eventMap))
  {
    var e := (groups[j].day, HourOf(groups[j], eventMap));
    assert groups[..j + 1][..j] == groups[..j];
    assert PeriodEntries(groups[..j + 1], eventMap) == PeriodEntries(groups[..j], eventMap) + [e];
    var merged := done + PeriodEntries(groups[..j], eventMap);
    assert done + PeriodEntries(groups[..j + 1], eventMap) == merged + [e];
    MergeDaysSnoc(merged, e);
  }

  /**
   * One row merged into the dict: a day already present adds the hour's
   * events and appends the hour (the DST-boundary case); a new day is
   * inserted with this hour alone.
   */
  method MergeHour(order0: seq<string>, byDay0: map<string, DaySummary>, day: string, h: HourData)
    returns (order: seq<string>, byDay: map<string, DaySummary>)
    ensures Days(order, byDay) == AddHour(Days(order0, byDay0), day, h)
  {
    order, byDay := order0, byDay0;
    if day in byDay {
      byDay := byDay[day := DaySummary(byDay[day].events + h.events, byDay[day].hours + [h], day)];
    } else {
      order := order + [day];
      byDay := byDay[day := DaySummary(h.events, [h], day)];
    }
  }

  /**
   * The loop over one period's hourly rows: each row's hour data is merged
   * into the day it falls on. `done` are the entries merged so far.
   */
  method MergePeriod(order0: seq<string>, byDay0: map<string, DaySummary>, ghost done: seq<(string, HourData)>, period: PeriodHours)
    returns (order: seq<string>, byDay: map<string, DaySummary>)
    requires Days(order0, byDay0) == MergeDays(done)
    ensures Days(order, byDay) == MergeDays(done + PeriodEntries(period.groups, period.eventMap))
  {
    order, byDay := order0, byDay0;
    assert done + PeriodEntries(period.groups[..0], period.eventMap) == done;
    for j := 0 to |period.groups|
      invariant Days(order, byDay) == MergeDays(done + PeriodEntries(period.groups[..j], period.eventMap))
    {
      var g := period.groups[j];
      var h := HourOf(g, period.eventMap);
      MergeNextRow(done, period.groups, j, period.eventMap);
      order, byDay := MergeHour(order, byDay, g.day, h);
    }
    assert period.groups[..|period.groups|] == period.groups;
  }

  /**
   * `recordings_summary`'s merge: the hourly rows of every period are
   * merged into `days`, and the list of its values is returned in
   * insertion order.
   */
  method RecordingsSummary(periods: seq<PeriodHours>) returns (summary: seq<DaySummary>)
    ensures var days := MergeDays(Entries(periods));
            |summary| == |days.order| && forall i :: 0 <= i < |summary| ==> days.order[i] in days.byDay && summary[i] == days.byDay[days.order[i]]
  {
    var order: seq<string> := [];
    var byDay: map<string, DaySummary> := map[];
    for p := 0 to |periods|
      invariant Days(order, byDay) == MergeDays(Entries(periods[..p]))
    {
      assert periods[..p + 1][..p] == periods[..p];
      order, byDay := MergePeriod(order, byDay, Entries(periods[..p]), periods[p]);
    }
    assert periods[..|periods|] == periods;
    MergeDaysGroups(Entries(periods));
    summary := [];
    for i := 0 to |order|
      invariant |summary| == i
      invariant forall k :: 0 <= k < i ==> summary[k] == byDay[order[k]]
    {
      summary := summary + [byDay[order[i]]];
    }
  }

  /** Python's string order: the first differing character decides, and a proper prefix comes first. */
  predicate LexLess(a: string, b: string) {
    |b| > 0 && (|a| == 0 || a[0] < b[0] || (a[0] == b[0] && LexLess(a[1..], b[1..])))
  }

  /** Of two different strings, one comes first. */
  lemma {:induction false} LexLessTotal(a: string, b: string)
    requires a != b
    ensures LexLess(a, b) || LexLess(b, a)
  {
    if |a| > 0 && |b| > 0 && a[0] == b[0] {
      assert a == [a[0]] + a[1..] && b == [b[0]] + b[1..];
      LexLessTotal(a[1..], b[1..]);
    }
  }

  /** The string order is transitive. */
  lemma {:induction false} LexLessTrans(a: string, b: string, c: string)
    requires LexLess(a, b) && LexLess(b, c)
    ensures LexLess(a, c)
  {
    if |a| > 0 && a[0] == b[0] && b[0] == c[0] {
      LexLessTrans(a[1..], b[1..], c[1..]);
    }
  }

  /** Strictly ascending in Python's string order, so also free of repeats. */
  predicate StrictlyAscending(s: seq<string>) {
    forall i, j :: 0 <= i < j < |s| ==> LexLess(s[i], s[j])
  }

  /** `x` put into an ascending list before the first element that comes after it. */
  function InsertDay(x: string, s: seq<string>): (r: seq<string>)
    ensures multiset(r) == multiset(s) + multiset{x}
  {
    if s == [] then [x]
    else if LexLess(x, s[0]) then [x] + s
    else
      assert s == [s[0]] + s[1..];
      [s[0]] + InsertDay(x, s[1..])
  }

  lemma {:induction false} InsertDayAscending(x: string, s: seq<string>)
    requires StrictlyAscending(s) && x !in s
    ensures StrictlyAscending(InsertDay(x, s))
  {
    if s != [] && LexLess(x, s[0]) {
      forall j | 0 <= j < |s| ensures LexLess(x, s[j]) {
        if j > 0 {
          LexLessTrans(x, s[0], s[j]);
        }
      }
    } else if s != [] {
      assert x != s[0];
      LexLessTotal(x, s[0]);
      var rest := InsertDay(x, s[1..]);
      InsertDayAscending(x, s[1..]);
      forall k | 0 <= k < |rest| ensures LexLess(s[0], rest[k]) {
        assert rest[k] in multiset(rest);
        if rest[k] != x {
          assert rest[k] in s[1..];
        }
      }
    }
  }

  /** The distinct days of a list in ascending order: `sorted` over the keys of the dict they fill. */
  function DaysInOrder(days: seq<string>): (r: seq<string>)
    ensures StrictlyAscending(r)
    ensures forall d :: d in r <==> d in days
  {
    if days == [] then []
    else
      var front := DaysInOrder(days[..|days| - 1]);
      var d := days[|days| - 1];
      assert days == days[..|days| - 1] + [d];
      if d in front then front
      else
        InsertDayAscending(d, front);
        assert forall e :: e in InsertDay(d, front) <==> e in multiset(front) + multiset{d};
        InsertDay(d, front)
  }

  /** The local days holding a recording of one of the selected cameras, in query order. */
  function SelectedDays(selected: set<string>, recordingDays: seq<(string, string)>): (r: seq<string>)
    ensures forall day :: day in r <==> exists i :: 0 <= i < |recordingDays| && recordingDays[i].1 == day
                                                    && recordingDays[i].0 in selected
  {
    if recordingDays == [] then []
    else
      var last := recordingDays[|recordingDays| - 1];
      var front := SelectedDays(selected, recordingDays[..|recordingDays| - 1]);
      if last.0 in selected then front + [last.1] else front
  }

  /**
   * `all_recordings_summary`: an empty dict when the camera list leaves no
   * allowed camera; otherwise every local day holding a recording of a
   * selected camera, each mapped to true, with the days in ascending order
   * (`dict(sorted(days.items()))`). `recordingDays` pairs each recording's
   * camera with its local day.
   */
  function AllRecordingsSummary(cameras: string, allowed: set<string>, recordingDays: seq<(string, string)>): (r: JSON)
    ensures r.Obj? && StrictlyAscending(r.keys)
    ensures forall day :: day in r.keys <==> day in r.values
    ensures forall day :: day in r.values ==> r.values[day] == Bool(true)
    ensures CameraFilter(cameras, allowed).None? ==> r == Empty
    ensures CameraFilter(cameras, allowed).Some? ==>
              forall day :: day in r.keys <==> exists i :: 0 <= i < |recordingDays| && recordingDays[i].1 == day
                                                          && recordingDays[i].0 in CameraFilter(cameras, allowed).value
  {
    match CameraFilter(cameras, allowed)
    case None => Empty
    case Some(selected) =>
      var days := DaysInOrder(SelectedDays(selected, recordingDays));
      Obj(days, map day | day in days :: Bool(true))
  }
}
