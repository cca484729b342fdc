/**
 * The decision logic of the export endpoints (frigate/api/export.py): the
 * interval-overlap test, the guards of `export_recording`, the enum
 * fallbacks, the export id, rename, the in-use check of delete, and the
 * audit records every successful request adds.
 *
 * The database tables, the configured cameras, the files on disk and the
 * process list are plain values here; the current time, `is_current_hour`
 * and the random id suffix are parameters.
 */
module ExportApi {
  import opened Wrappers

  // ------------------------------------------------------------ overlap

  /** A row of the recordings or previews table. */
  datatype Segment = Segment(camera: string, startTime: real, endTime: real)

  /** peewee's `between`, inclusive at both ends. */
  predicate Between(x: real, lo: real, hi: real) {
    lo <= x <= hi
  }

  /** The three-clause test the handler uses to find segments for `[startTime, endTime]`. */
  predicate OverlapsRange(seg: Segment, startTime: real, endTime: real) {
    || Between(seg.startTime, startTime, endTime)
    || Between(seg.endTime, startTime, endTime)
    || (startTime > seg.startTime && endTime < seg.endTime)
  }

  /** For well-formed intervals the test is ordinary closed-interval overlap. */
  lemma OverlapIsClosedIntervalOverlap(seg: Segment, startTime: real, endTime: real)
    requires seg.startTime <= seg.endTime && startTime <= endTime
    ensures OverlapsRange(seg, startTime, endTime) <==> seg.startTime <= endTime && seg.endTime >= startTime
  {
  }

  /**
   * The handler does not check that the requested range is ordered: a reversed
   * range still selects a segment lying strictly inside it, though the two
   * closed intervals share no point.
   */
  lemma ReversedRangeStillMatches()
    ensures var seg := Segment("front", 4.5, 4.5);
      OverlapsRange(seg, 5.0, 4.0) && !(seg.startTime <= 4.0 && seg.endTime >= 5.0)
  {
  }

  /** `.where(overlap).where(camera == camera_name).count()`. */
  function CountOverlapping(segs: seq<Segment>, camera: string, startTime: real, endTime: real): (n: nat)
    ensures n <= |segs|
  {
    if segs == [] then 0
    else
      var last := segs[|segs| - 1];
      CountOverlapping(segs[..|segs| - 1], camera, startTime, endTime)
        + (if last.camera == camera && OverlapsRange(last, startTime, endTime) then 1 else 0)
  }

  /** Some segment of `camera` meets the requested range. */
  predicate HasOverlapping(segs: seq<Segment>, camera: string, startTime: real, endTime: real) {
    exists i :: 0 <= i < |segs| && segs[i].camera == camera && OverlapsRange(segs[i], startTime, endTime)
  }

  /** The count is positive exactly when some segment of that camera overlaps the range. */
  lemma {:induction false} CountPositiveIff(segs: seq<Segment>, camera: string, startTime: real, endTime: real)
    ensures CountOverlapping(segs, camera, startTime, endTime) > 0 <==> HasOverlapping(segs, camera, startTime, endTime)
  {
    if segs != [] {
      var init := segs[..|segs| - 1];
      CountPositiveIff(init, camera, startTime, endTime);
      if HasOverlapping(init, camera, startTime, endTime) {
        var i :| 0 <= i < |init| && init[i].camera == camera && OverlapsRange(init[i], startTime, endTime);
        assert segs[i] == init[i];
      }
      if HasOverlapping(segs, camera, startTime, endTime) {
        var i :| 0 <= i < |segs| && segs[i].camera == camera && OverlapsRange(segs[i], startTime, endTime);
        if i < |init| {
          assert init[i] == segs[i];
        }
      }
    }
  }

  // ------------------------------------------------------------ enums

  /** `PlaybackFactorEnum`; each member is named by its value. */
  datatype PlaybackFactor = Realtime | Timelapse25x

  function PlaybackFactorValue(f: PlaybackFactor): string {
    match f
    case Realtime => "realtime"
    case Timelapse25x => "timelapse_25x"
  }

  /** The member whose value `raw` is, or `realtime` when there is none. */
  function PlaybackFactorOf(raw: string): (f: PlaybackFactor)
    ensures PlaybackFactorValue(f) == raw || (f == Realtime && raw != "realtime" && raw != "timelapse_25x")
  {
    if raw == "timelapse_25x" then Timelapse25x else Realtime
  }

  /** `PlaybackSourceEnum`; each member is named by its value. */
  datatype PlaybackSource = Recordings | Preview

  function PlaybackSourceValue(s: PlaybackSource): string {
    match s
    case Recordings => "recordings"
    case Preview => "preview"
  }

  /** The member whose value `raw` is, or `recordings` when there is none. */
  function PlaybackSourceOf(raw: string): (s: PlaybackSource)
    ensures PlaybackSourceValue(s) == raw || (s == Recordings && raw != "recordings" && raw != "preview")
  {
    if raw == "preview" then Preview else Recordings
  }

  /** Each member survives the fallback unchanged. */
  lemma EnumFallbacksRoundTrip(f: PlaybackFactor, s: PlaybackSource)
    ensures PlaybackFactorOf(PlaybackFactorValue(f)) == f
    ensures PlaybackSourceOf(PlaybackSourceValue(s)) == s
  {
  }

  /** The guard checks recordings only for the exact string "recordings". */
  predicate ChecksRecordings(rawSource: string) {
    rawSource == "recordings"
  }

  /**
   * A source string that is no member is validated against the previews table,
   * yet the export it starts reads from recordings.
   */
  lemma UnknownSourceCheckedAgainstPreviews(rawSource: string)
    requires rawSource != "recordings" && rawSource != "preview"
    ensures !ChecksRecordings(rawSource) && PlaybackSourceOf(rawSource) == Recordings
  {
  }

  // ------------------------------------------------------------ export id

  /** The alphabet `string.ascii_lowercase + string.digits`. */
  predicate IdChar(c: char) {
    ('a' <= c <= 'z') || ('0' <= c <= '9')
  }

  /** What `random.choices(..., k=6)` can produce. */
  predicate IsIdSuffix(s: string) {
    |s| == 6 && forall i :: 0 <= i < |s| ==> IdChar(s[i])
  }

  /** `f"{camera_name}_{suffix}"`. */
  function ExportId(camera: string, suffix: string): (id: string)
    requires IsIdSuffix(suffix)
    ensures |id| == |camera| + 7 && id[..|camera|] == camera && id[|camera|] == '_'
    ensures IsIdSuffix(id[|camera| + 1..])
  {
    camera + "_" + suffix
  }

  /** The camera part of an id: everything before the last seven characters. */
  function CameraOfExportId(id: string): string
    requires |id| >= 7
  {
    id[..|id| - 7]
  }

  /** The suffix part of an id: its last six characters. */
  function SuffixOfExportId(id: string): string
    requires |id| >= 7
  {
    id[|id| - 6..]
  }

  /** An id determines the camera and the suffix it was built from. */
  lemma ExportIdRoundTrip(camera: string, suffix: string)
    requires IsIdSuffix(suffix)
    ensures CameraOfExportId(ExportId(camera, suffix)) == camera
    ensures SuffixOfExportId(ExportId(camera, suffix)) == suffix
  {
  }

  // ------------------------------------------------------------ conversions

  /** Python's `int()` on a float: rounds toward zero. */
  function Trunc(x: real): (n: int)
    ensures x >= 0.0 ==> 0 <= n && n as real <= x < n as real + 1.0
    ensures x < 0.0 ==> n <= 0 && n as real - 1.0 < x <= n as real
  {
    if x >= 0.0 then x.Floor else -((-x).Floor)
  }

  /** `path.split("/")[-1]`: what follows the last `/`, or the whole path. */
  function Basename(path: string): (b: string)
    ensures '/' !in b
    ensures |b| <= |path| && path[|path| - |b|..] == b
    ensures |b| < |path| ==> path[|path| - |b| - 1] == '/'
  {
    if path == [] || path[|path| - 1] == '/' then []
    else
      var b := Basename(path[..|path| - 1]) + [path[|path| - 1]];
      assert path == path[..|path| - 1] + [path[|path| - 1]];
      b
  }

  // ------------------------------------------------------------ processes

  /** A running process as `psutil` reports it; `None` where the call raises `psutil.Error`. */
  datatype Process = Process(name: Option<string>, openFiles: Option<seq<string>>)

  /** The base names of the paths under `dir`, in order. */
  function NamesUnder(paths: seq<string>, dir: string): seq<string> {
    if paths == [] then []
    else
      var last := paths[|paths| - 1];
      NamesUnder(paths[..|paths| - 1], dir) + (if dir <= last then [Basename(last)] else [])
  }

  /** What one process adds: the export files an `ffmpeg` process has open. */
  function ProcessNames(p: Process, dir: string): seq<string> {
    if p.name == Some("ffmpeg") && p.openFiles.Some? then NamesUnder(p.openFiles.value, dir) else []
  }

  /** The `files_in_use` list, process by process. */
  function InUseNames(procs: seq<Process>, dir: string): seq<string> {
    if procs == [] then []
    else InUseNames(procs[..|procs| - 1], dir) + ProcessNames(procs[|procs| - 1], dir)
  }

  /** Some path of `paths` under `dir` has base name `name`. */
  predicate HasFileNamed(paths: seq<string>, dir: string, name: string) {
    exists f :: f in paths && dir <= f && Basename(f) == name
  }

  /** `p` is an `ffmpeg` process holding open a file under `dir` whose base name is `name`. */
  predicate HoldsOpen(p: Process, dir: string, name: string) {
    p.name == Some("ffmpeg") && p.openFiles.Some? && HasFileNamed(p.openFiles.value, dir, name)
  }

  /** Some process of `procs` holds such a file open. */
  predicate SomeProcessHoldsOpen(procs: seq<Process>, dir: string, name: string) {
    exists p :: p in procs && HoldsOpen(p, dir, name)
  }

  lemma {:induction false} NamesUnderIff(paths: seq<string>, dir: string, name: string)
    ensures name in NamesUnder(paths, dir) <==> HasFileNamed(paths, dir, name)
  {
    if paths != [] {
      var init := paths[..|paths| - 1];
      var last := paths[|paths| - 1];
      NamesUnderIff(init, dir, name);
      assert paths == init + [last];
      if HasFileNamed(init, dir, name) {
        var f :| f in init && dir <= f && Basename(f) == name;
        assert f in paths;
      }
      if dir <= last && Basename(last) == name {
        assert last in paths;
      }
      if HasFileNamed(paths, dir, name) {
        var f :| f in paths && dir <= f && Basename(f) == name;
        if f != last {
          assert f in init;
        }
      }
    }
  }

  /** Whether some process holds the file splits over the last process of the list. */
  lemma SomeProcessSplit(procs: seq<Process>, dir: string, name: string)
    requires procs != []
    ensures SomeProcessHoldsOpen(procs, dir, name) <==>
      SomeProcessHoldsOpen(procs[..|procs| - 1], dir, name) || HoldsOpen(procs[|procs| - 1], dir, name)
  {
  }

  /** A name is in use exactly when some `ffmpeg` process holds open an export file of that name. */
  lemma {:induction false} InUseIff(procs: seq<Process>, dir: string, name: string)
    ensures name in InUseNames(procs, dir) <==> SomeProcessHoldsOpen(procs, dir, name)
  {
    if procs != [] {
      var init, last := procs[..|procs| - 1], procs[|procs| - 1];
      InUseIff(init, dir, name);
      SomeProcessSplit(procs, dir, name);
      if last.name == Some("ffmpeg") && last.openFiles.Some? {
        NamesUnderIff(last.openFiles.value, dir, name);
      }
      assert name in InUseNames(procs, dir) <==> name in InUseNames(init, dir) || name in ProcessNames(last, dir);
    }
  }

  /**
   * The nested loops of `export_delete` that collect `files_in_use`; a process
   * whose name or open files cannot be read is skipped.
   */
  method FilesInUse(procs: seq<Process>, dir: string) returns (files: seq<string>)
    ensures files == InUseNames(procs, dir)
  {
    files := [];
    var i := 0;
    while i < |procs|
      invariant 0 <= i <= |procs|
      invariant files == InUseNames(procs[..i], dir)
    {
      var p := procs[i];
      assert procs[..i + 1][..i] == procs[..i];
      if p.name == Some("ffmpeg") && p.openFiles.Some? {
        var fileList := p.openFiles.value;
        var j := 0;
        var added: seq<string> := [];
        while j < |fileList|
          invariant 0 <= j <= |fileList|
          invariant added == NamesUnder(fileList[..j], dir)
        {
          assert fileList[..j + 1][..j] == fileList[..j];
          if dir <= fileList[j] {
            added := added + [Basename(fileList[j])];
          }
          j := j + 1;
        }
        assert fileList[..j] == fileList;
        files := files + added;
      }
      i := i + 1;
    }
    assert procs[..i] == procs;
  }

  /**
   * The in-use test of `export_delete`: the video's base name is among the
   * names collected from the `ffmpeg` processes (by `InUseIff`, exactly when
   * one of them holds such a file open).
   */
  predicate VideoInUse(videoPath: string, procs: seq<Process>, dir: string) {
    Basename(videoPath) in InUseNames(procs, dir)
  }

  // ------------------------------------------------------------ endpoints

  datatype AuditRecord = AuditRecord(eventType: string, description: string, userId: string, timestamp: int)

  /** A row of the exports table. */
  datatype ExportRow = ExportRow(camera: string, name: string, videoPath: string, thumbPath: string)

  /** The request body of `export_recording`; `playback` and `source` are raw strings. */
  datatype ExportBody = ExportBody(playback: string, source: string, name: Option<string>, imagePath: Option<string>)

  /** The arguments a `RecordingExporter` is started with. */
  datatype ExportJob = ExportJob(
    id: string, camera: string, name: Option<string>, imagePath: Option<string>,
    startTime: int, endTime: int, factor: PlaybackFactor, source: PlaybackSource)

  datatype Response = Response(status: int, success: bool, message: string, exportId: Option<string>)

  const ExportNotFound: Response := Response(404, false, "Export not found.", None)

  /** The handler's answer for a camera it does not know. */
  function InvalidCamera(camera: string): Response {
    Response(404, false, camera + " is not a valid camera.", None)
  }

  /** The export service's state: the tables and files the handlers read and change. */
  class ExportEndpoints {
    /** The names under `config.cameras`. */
    const cameras: set<string>
    const recordings: seq<Segment>
    const previews: seq<Segment>
    /** `EXPORT_DIR`. */
    const exportDir: string
    var exports: map<string, ExportRow>
    var files: set<string>
    var jobs: seq<ExportJob>
    var audits: seq<AuditRecord>

    constructor (cameras: set<string>, recordings: seq<Segment>, previews: seq<Segment>, exportDir: string,
                 exports: map<string, ExportRow>, files: set<string>)
      ensures this.cameras == cameras && this.recordings == recordings && this.previews == previews
      ensures this.exportDir == exportDir && this.exports == exports && this.files == files
      ensures jobs == [] && audits == []
    {
      this.cameras := cameras;
      this.recordings := recordings;
      this.previews := previews;
      this.exportDir := exportDir;
      this.exports := exports;
      this.files := files;
      jobs := [];
      audits := [];
    }

    /** A non-empty name of a configured camera. */
    predicate ValidCamera(camera: string) {
      camera != "" && camera in cameras
    }

    /**
     * `export_recording`. An unknown camera is 404; a "recordings" source with
     * no overlapping recording, or any other source whose start is outside the
     * current hour and with no overlapping preview, is 400. Otherwise one
     * export job is started and one "Export" audit record is added; on every
     * error nothing changes.
     */
    method ExportRecording(camera: string, startTime: real, endTime: real, body: ExportBody, user: string,
                           startIsCurrentHour: bool, suffix: string, now: real) returns (resp: Response)
      requires IsIdSuffix(suffix)
      modifies this
      ensures !ValidCamera(camera) ==> resp == InvalidCamera(camera)
      ensures ValidCamera(camera) && ChecksRecordings(body.source) && !HasOverlapping(recordings, camera, startTime, endTime)
        ==> resp == Response(400, false, "No recordings found for time range", None)
      ensures ValidCamera(camera) && !ChecksRecordings(body.source) && !startIsCurrentHour
              && !HasOverlapping(previews, camera, startTime, endTime)
        ==> resp == Response(400, false, "No previews found for time range", None)
      ensures resp.success <==>
        ValidCamera(camera) &&
        if ChecksRecordings(body.source) then HasOverlapping(recordings, camera, startTime, endTime)
        else startIsCurrentHour || HasOverlapping(previews, camera, startTime, endTime)
      ensures resp.success ==>
        && resp == Response(200, true, "Starting export of recording.", Some(ExportId(camera, suffix)))
        && jobs == old(jobs) + [ExportJob(ExportId(camera, suffix), camera, body.name, body.imagePath,
                                          Trunc(startTime), Trunc(endTime),
                                          PlaybackFactorOf(body.playback), PlaybackSourceOf(body.source))]
        && audits == old(audits) + [AuditRecord("Export", user + " created an export for " + camera, user, Trunc(now))]
      ensures !resp.success ==> jobs == old(jobs) && audits == old(audits)
      ensures exports == old(exports) && files == old(files)
    {
      if !ValidCamera(camera) {
        return InvalidCamera(camera);
      }
      if ChecksRecordings(body.source) {
        var recordingsCount := CountOverlapping(recordings, camera, startTime, endTime);
        CountPositiveIff(recordings, camera, startTime, endTime);
        if recordingsCount <= 0 {
          return Response(400, false, "No recordings found for time range", None);
        }
      } else {
        var previewsCount := CountOverlapping(previews, camera, startTime, endTime);
        CountPositiveIff(previews, camera, startTime, endTime);
        if !startIsCurrentHour && previewsCount <= 0 {
          return Response(400, false, "No previews found for time range", None);
        }
      }
      var exportId := ExportId(camera, suffix);
      jobs := jobs + [ExportJob(exportId, camera, body.name, body.imagePath, Trunc(startTime), Trunc(endTime),
                                PlaybackFactorOf(body.playback), PlaybackSourceOf(body.source))];
      audits := audits + [AuditRecord("Export", user + " created an export for " + camera, user, Trunc(now))];
      resp := Response(200, true, "Starting export of recording.", Some(exportId));
    }

    /**
     * `export_rename`: 404 for an unknown id with nothing changed; otherwise the
     * export takes the new name and one "Rename Export" audit record is added.
     */
    method ExportRename(eventId: string, newName: string, user: string, now: real) returns (resp: Response)
      modifies this
      ensures eventId !in old(exports) ==> resp == ExportNotFound && exports == old(exports) && audits == old(audits)
      ensures eventId in old(exports) ==>
        && resp == Response(200, true, "Successfully renamed export.", None)
        && exports == old(exports)[eventId := old(exports)[eventId].(name := newName)]
        && audits == old(audits) + [AuditRecord("Rename Export", "Renamed export to " + newName, user, Trunc(now))]
      ensures files == old(files) && jobs == old(jobs)
    {
      if eventId !in exports {
        return ExportNotFound;
      }
      var row := exports[eventId];
      exports := exports[eventId := row.(name := newName)];
      audits := audits + [AuditRecord("Rename Export", "Renamed export to " + newName, user, Trunc(now))];
      resp := Response(200, true, "Successfully renamed export.", None);
    }

    /**
     * The successful tail of `export_delete`: unlink the video file and any
     * thumbnail file, delete the row, add one "Delete Export" audit record.
     */
    method DeleteExport(eventId: string, user: string, now: real)
      requires eventId in exports
      modifies this
      ensures exports == old(exports) - {eventId}
      ensures var row := old(exports)[eventId];
        files == old(files) - {row.videoPath} - (if row.thumbPath != "" then {row.thumbPath} else {})
      ensures audits == old(audits) + [AuditRecord("Delete Export", "Deleted export", user, Trunc(now))]
      ensures jobs == old(jobs)
    {
      var row := exports[eventId];
      files := files - {row.videoPath};
      if row.thumbPath != "" {
        files := files - {row.thumbPath};
      }
      exports := exports - {eventId};
      audits := audits + [AuditRecord("Delete Export", "Deleted export", user, Trunc(now))];
    }

    /**
     * `export_delete`: 404 for an unknown id; 400 while an `ffmpeg` process
     * holds open an export file with the video's base name; both change
     * nothing. Otherwise the video file and any thumbnail file are removed,
     * the row is deleted and one "Delete Export" audit record is added.
     */
    method ExportDelete(eventId: string, user: string, procs: seq<Process>, now: real) returns (resp: Response)
      modifies this
      ensures eventId !in old(exports) ==> resp == ExportNotFound
      ensures eventId in old(exports) && VideoInUse(old(exports)[eventId].videoPath, procs, exportDir)
        ==> resp == Response(400, false, "Can not delete in progress export.", None)
      ensures !resp.success ==> exports == old(exports) && files == old(files) && audits == old(audits)
      ensures resp.success <==>
        eventId in old(exports) && !VideoInUse(old(exports)[eventId].videoPath, procs, exportDir)
      ensures resp.success ==>
        var row := old(exports)[eventId];
        && resp == Response(200, true, "Successfully deleted export.", None)
        && exports == old(exports) - {eventId}
        && files == old(files) - {row.videoPath} - (if row.thumbPath != "" then {row.thumbPath} else {})
        && audits == old(audits) + [AuditRecord("Delete Export", "Deleted export", user, Trunc(now))]
      ensures jobs == old(jobs)
    {
      if eventId !in exports {
        return ExportNotFound;
      }
      var row := exports[eventId];
      var filesInUse := FilesInUse(procs, exportDir);
      if Basename(row.videoPath) in filesInUse {
        return Response(400, false, "Can not delete in progress export.", None);
      }
      DeleteExport(eventId, user, now);
      resp := Response(200, true, "Successfully deleted export.", None);
    }
  }
}
