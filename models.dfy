/**
 * The project and result records of `smart_edit/core/models.py`: video files
 * with their camera ids, processing progress, processing results, export
 * options, and the project container whose list of video files is edited in
 * place. Filesystem lookups (file sizes, existence checks) and clocks are not
 * part of the model.
 */
module Models {
  import opened Wrappers
  import opened Text

  datatype ProjectType = SingleCam | Multicam | Podcast | Interview | Presentation

  datatype ProcessingStage =
    | Created | Transcribing | Transcribed | GeneratingScript | ScriptGenerated
    | AssigningAngles | ReadyForReview | Reviewed | Exporting | Completed | Failed

  datatype ExportFormat = PremiereXml | FinalCutXml | DavinciXml | Json

  // ---------------------------------------------------------------------------
  // Video files
  // ---------------------------------------------------------------------------

  datatype VideoFile = VideoFile(
    path: string,
    cameraId: string,
    duration: Option<real>,
    fps: Option<int>,
    width: Option<int>,
    height: Option<int>,
    fileSize: Option<int>)

  /** `p` without trailing path separators. */
  function TrimSlashes(p: string): (r: string)
    ensures |r| <= |p| && r == p[..|r|]
    ensures |r| > 0 ==> r[|r| - 1] != '/'
  {
    if |p| > 0 && p[|p| - 1] == '/' then TrimSlashes(p[..|p| - 1]) else p
  }

  /** The text after the last separator of `p`. */
  function AfterLastSlash(p: string): (r: string)
    ensures |r| <= |p| && r == p[|p| - |r|..]
    ensures '/' !in r
    ensures |r| < |p| ==> p[|p| - |r| - 1] == '/'
  {
    if |p| == 0 || p[|p| - 1] == '/' then [] else AfterLastSlash(p[..|p| - 1]) + [p[|p| - 1]]
  }

  /**
   * `Path(p).name`: the last component of the path, after trailing separators
   * are dropped; empty only when the path is nothing but separators.
   */
  function FileName(p: string): (r: string)
    ensures '/' !in r
    ensures var t := TrimSlashes(p);
      && |r| <= |t| && r == t[|t| - |r|..]
      && (|r| < |t| ==> t[|t| - |r| - 1] == '/')
      && (|t| > 0 ==> |r| > 0)
  {
    AfterLastSlash(TrimSlashes(p))
  }

  /** The text after the last separator of `x/name` is `name` when `name` has no separator. */
  lemma {:induction false} AfterLastSlashJoin(x: string, name: string)
    requires '/' !in name
    ensures AfterLastSlash(x + "/" + name) == name
  {
    var p := x + "/" + name;
    if |name| > 0 {
      var n := |name| - 1;
      assert p[..|p| - 1] == x + "/" + name[..n];
      assert p[|p| - 1] == name[n];
      assert name[n] in name;
      AfterLastSlashJoin(x, name[..n]);
      assert name[..n] + [name[n]] == name;
    }
  }

  /** The name of `dir/name`, with or without a trailing separator, is `name`. */
  lemma FileNameOfJoin(dir: string, name: string)
    requires |name| > 0 && '/' !in name
    ensures FileName(dir + "/" + name) == name
    ensures FileName(dir + "/" + name + "/") == name
  {
    var p := dir + "/" + name;
    assert p[|p| - 1] == name[|name| - 1] && name[|name| - 1] in name;
    assert TrimSlashes(p) == p;
    assert (p + "/")[..|p|] == p;
    AfterLastSlashJoin(dir, name);
  }

  /** The position of the last '.' in `name`, or -1. */
  function LastDot(name: string): (i: int)
    ensures -1 <= i < |name|
    ensures i >= 0 ==> name[i] == '.'
    ensures forall k :: i < k < |name| ==> name[k] != '.'
  {
    if |name| == 0 then -1 else if name[|name| - 1] == '.' then |name| - 1 else LastDot(name[..|name| - 1])
  }

  /**
   * The stem of a file name: the name without its last suffix. A leading dot
   * or a trailing dot does not start a suffix.
   */
  function StemOfName(name: string): (r: string)
    ensures |r| <= |name| && r == name[..|r|]
    ensures '.' !in name ==> r == name
    ensures r != name ==> |r| > 0 && name[|r|] == '.' && |r| < |name| - 1
                          && forall k :: |r| < k < |name| ==> name[k] != '.'
    ensures r != name <==> 0 < LastDot(name) < |name| - 1
  {
    var i := LastDot(name);
    if 0 < i < |name| - 1 then name[..i] else name
  }

  /** `Path(p).stem`: the stem of the last component of `p`. */
  function Stem(p: string): (r: string)
    ensures var name := FileName(p);
      && |r| <= |name| && r == name[..|r|]
      && ('.' !in name ==> r == name)
      && (r != name <==> 0 < LastDot(name) < |name| - 1)
  {
    StemOfName(FileName(p))
  }

  /** A name `base.ext` with a non-empty base and an extension without dots has stem `base`. */
  lemma StemOfNameDropsSuffix(base: string, ext: string)
    requires |base| > 0 && |ext| > 0 && '.' !in ext
    ensures StemOfName(base + "." + ext) == base
  {
    var name := base + "." + ext;
    assert name == base + ("." + ext);
    assert name[|base|] == '.';
    assert forall k :: |base| < k < |name| ==> name[k] == ext[k - |base| - 1];
    assert LastDot(name) == |base|;
    assert name[..|base|] == base;
  }

  /** The stem of the path `dir/base.ext` is `base`. */
  lemma StemOfJoin(dir: string, base: string, ext: string)
    requires |base| > 0 && |ext| > 0 && '.' !in ext
    requires '/' !in base && '/' !in ext
    ensures Stem(dir + "/" + base + "." + ext) == base
  {
    var name := base + "." + ext;
    assert forall k :: 0 <= k < |name| ==> name[k] == '.' || name[k] in base || name[k] in ext by {
      forall k | 0 <= k < |name|
        ensures name[k] == '.' || name[k] in base || name[k] in ext
      {
        if k < |base| {
          assert name[k] == base[k];
        } else if k > |base| {
          assert name[k] == ext[k - |base| - 1];
        }
      }
    }
    FileNameOfJoin(dir, name);
    ConcatAssoc(dir + "/", base, ".");
    ConcatAssoc(dir + "/", base + ".", ext);
    StemOfNameDropsSuffix(base, ext);
  }

  /** A video file as constructed: a missing or empty camera id becomes the file's stem. */
  function NewVideoFile(path: string, cameraId: Option<string>): (v: VideoFile)
    ensures v.path == path
    ensures cameraId.Some? && cameraId.value != "" ==> v.cameraId == cameraId.value
    ensures (cameraId.None? || cameraId.value == "") ==> v.cameraId == Stem(path)
    ensures v.duration.None? && v.fps.None? && v.width.None? && v.height.None?
  {
    VideoFile(path, if cameraId.Some? && cameraId.value != "" then cameraId.value else Stem(path),
              None, None, None, None, None)
  }

  // ---------------------------------------------------------------------------
  // Processing progress
  // ---------------------------------------------------------------------------

  datatype ProcessingProgress = ProcessingProgress(
    stage: ProcessingStage,
    progressPercent: real,
    currentStep: string,
    stepsCompleted: int,
    totalSteps: int,
    startTime: Option<real>,
    endTime: Option<real>,
    errorMessage: Option<string>)

  const InitialProgress := ProcessingProgress(Created, 0.0, "", 0, 0, None, None, None)

  /** Python truthiness of an optional time: absent and 0.0 are false. */
  predicate IsSet(t: Option<real>) {
    t.Some? && t.value != 0.0
  }

  predicate IsComplete(p: ProcessingProgress) {
    p.stage == Completed
  }

  predicate IsFailed(p: ProcessingProgress) {
    p.stage == Failed
  }

  /** The elapsed time, present only when both times are set (non-zero). */
  function ProcessingTime(p: ProcessingProgress): (r: Option<real>)
    ensures r.Some? <==> IsSet(p.startTime) && IsSet(p.endTime)
    ensures r.Some? ==> p.startTime.value + r.value == p.endTime.value
  {
    if IsSet(p.startTime) && IsSet(p.endTime) then Some(p.endTime.value - p.startTime.value) else None
  }

  // ---------------------------------------------------------------------------
  // Processing results
  // ---------------------------------------------------------------------------

  /** The outcome of a processing step; an exception is represented by its text. */
  datatype ProcessingResult<T> = ProcessingResult(
    success: bool,
    stage: ProcessingStage,
    message: string,
    data: Option<T>,
    error: Option<string>,
    processingTime: Option<real>)

  function SuccessResult<T>(stage: ProcessingStage, message: string, data: Option<T>, processingTime: Option<real>): (r: ProcessingResult<T>)
    ensures r.success && r.error.None?
    ensures r.stage == stage && r.message == message && r.data == data && r.processingTime == processingTime
  {
    ProcessingResult(true, stage, message, data, None, processingTime)
  }

  /** A failed result; the message falls back to the error's text when empty. */
  function ErrorResult<T>(stage: ProcessingStage, error: string, message: string): (r: ProcessingResult<T>)
    ensures !r.success && r.stage == stage && r.error == Some(error)
    ensures r.data.None? && r.processingTime.None?
    ensures message != "" ==> r.message == message
    ensures message == "" ==> r.message == error
    ensures r.message == "" <==> message == "" && error == ""
  {
    ProcessingResult(false, stage, if message != "" then message else error, None, Some(error), None)
  }

  // ---------------------------------------------------------------------------
  // Export options
  // ---------------------------------------------------------------------------

  datatype ExportOptions = ExportOptions(
    format: ExportFormat,
    outputPath: Option<string>,
    sequenceName: Option<string>,
    fps: int,
    width: int,
    height: int,
    includeAudio: bool,
    includeTransitions: bool)

  const DefaultExportOptions := ExportOptions(PremiereXml, None, None, 30, 1920, 1080, true, true)

  const FpsError := "FPS must be positive"
  const SizeError := "Width and height must be positive"

  /** The numeric checks of the export options, frame rate first. */
  function ValidateExportOptions(o: ExportOptions): (errors: seq<string>)
    ensures FpsError in errors <==> o.fps <= 0
    ensures SizeError in errors <==> o.width <= 0 || o.height <= 0
    ensures forall e :: e in errors ==> e == FpsError || e == SizeError
    ensures |errors| <= 2 && (o.fps <= 0 ==> errors[0] == FpsError)
  {
    assert FpsError[0] != SizeError[0];
    (if o.fps <= 0 then [FpsError] else []) + (if o.width <= 0 || o.height <= 0 then [SizeError] else [])
  }

  // ---------------------------------------------------------------------------
  // Project
  // ---------------------------------------------------------------------------

  /** An entry of the camera mapping: a non-empty camera id and a non-empty path. */
  predicate Mapped(f: VideoFile) {
    f.cameraId != "" && f.path != ""
  }

  /** Camera id to path, file by file; a later file with the same id overwrites an earlier one. */
  function CameraMapping(fs: seq<VideoFile>): map<string, string> {
    if |fs| == 0 then map[]
    else
      var m := CameraMapping(fs[..|fs| - 1]);
      var f := fs[|fs| - 1];
      if Mapped(f) then m[f.cameraId := f.path] else m
  }

  /** The mapping has exactly the camera ids of the mapped files. */
  lemma {:induction false} CameraMappingDomain(fs: seq<VideoFile>, k: string)
    ensures k in CameraMapping(fs) <==> exists i :: 0 <= i < |fs| && Mapped(fs[i]) && fs[i].cameraId == k
  {
    if |fs| > 0 {
      var init := fs[..|fs| - 1];
      CameraMappingDomain(init, k);
      if exists i :: 0 <= i < |init| && Mapped(init[i]) && init[i].cameraId == k {
        var i :| 0 <= i < |init| && Mapped(init[i]) && init[i].cameraId == k;
        assert fs[i] == init[i];
      }
      if exists i :: 0 <= i < |fs| && Mapped(fs[i]) && fs[i].cameraId == k {
        var i :| 0 <= i < |fs| && Mapped(fs[i]) && fs[i].cameraId == k;
        if i < |init| {
          assert init[i] == fs[i];
        }
      }
    }
  }

  /** A mapped file that no later mapped file overrides determines the path of its camera id. */
  lemma {:induction false} CameraMappingLastWins(fs: seq<VideoFile>, i: int)
    requires 0 <= i < |fs| && Mapped(fs[i])
    requires forall j :: i < j < |fs| && Mapped(fs[j]) ==> fs[j].cameraId != fs[i].cameraId
    ensures fs[i].cameraId in CameraMapping(fs) && CameraMapping(fs)[fs[i].cameraId] == fs[i].path
  {
    if i < |fs| - 1 {
      var init := fs[..|fs| - 1];
      assert init[i] == fs[i];
      CameraMappingLastWins(init, i);
    }
  }

  /** The position of the first file whose path is `p`, or -1. */
  function FirstWithPath(fs: seq<VideoFile>, p: string): (i: int)
    ensures -1 <= i < |fs|
    ensures i >= 0 ==> fs[i].path == p && forall k :: 0 <= k < i ==> fs[k].path != p
    ensures i == -1 <==> forall k :: 0 <= k < |fs| ==> fs[k].path != p
  {
    if |fs| == 0 then -1
    else if fs[0].path == p then 0
    else
      var j := FirstWithPath(fs[1..], p);
      assert forall k :: 0 < k < |fs| ==> fs[k] == fs[1..][k - 1];
      if j == -1 then -1 else j + 1
  }

  /** The first match is the only position that matches with no match before it. */
  lemma FirstWithPathUnique(fs: seq<VideoFile>, p: string, i: int)
    requires 0 <= i < |fs| && fs[i].path == p
    requires forall k :: 0 <= k < i ==> fs[k].path != p
    ensures FirstWithPath(fs, p) == i
  {
  }

  /** File `i` is the first whose path is `p`. */
  predicate FirstMatch(fs: seq<VideoFile>, p: string, i: int) {
    0 <= i < |fs| && fs[i].path == p && forall k :: 0 <= k < i ==> fs[k].path != p
  }

  /** Every first match is the one `FirstWithPath` finds. */
  lemma FirstMatchIsFirstWithPath(fs: seq<VideoFile>, p: string)
    ensures forall i :: FirstMatch(fs, p, i) ==> i == FirstWithPath(fs, p)
  {
    forall i | FirstMatch(fs, p, i)
      ensures i == FirstWithPath(fs, p)
    {
      FirstWithPathUnique(fs, p, i);
    }
  }

  /** The list with the first file whose path is `p` taken out; unchanged when there is none. */
  function RemoveFirst(fs: seq<VideoFile>, p: string): (r: seq<VideoFile>)
    ensures (forall k :: 0 <= k < |fs| ==> fs[k].path != p) ==> r == fs
    ensures forall i :: FirstMatch(fs, p, i) ==> r == fs[..i] + fs[i + 1..]
  {
    FirstMatchIsFirstWithPath(fs, p);
    var j := FirstWithPath(fs, p);
    if j < 0 then fs else fs[..j] + fs[j + 1..]
  }

  const NoVideosError := "No video files added to project"
  const EmptyNameError := "Project name cannot be empty"

  class SmartEditProject {
    var name: string
    var videoFiles: seq<VideoFile>
    var projectType: ProjectType

    /** A new project; more than one file at creation makes it a multicam project. */
    constructor (name: string, videoFiles: seq<VideoFile>, projectType: ProjectType)
      ensures this.name == name && this.videoFiles == videoFiles
      ensures this.projectType == (if |videoFiles| > 1 then Multicam else projectType)
      ensures IsMulticam() <==> |videoFiles| > 1 || projectType == Multicam
    {
      this.name := name;
      this.videoFiles := videoFiles;
      this.projectType := if |videoFiles| > 1 then Multicam else projectType;
    }

    /** More than one file, or declared multicam. */
    predicate IsMulticam()
      reads this
    {
      |videoFiles| > 1 || projectType == Multicam
    }

    /** Appends one file; a single-camera project with more than one file becomes multicam. */
    method AddVideoFile(filePath: string, cameraId: Option<string>) returns (v: VideoFile)
      modifies this
      ensures v == NewVideoFile(filePath, cameraId)
      ensures videoFiles == old(videoFiles) + [v]
      ensures projectType == (if |videoFiles| > 1 && old(projectType) == SingleCam then Multicam else old(projectType))
      ensures name == old(name)
      ensures IsMulticam() <==> |videoFiles| > 1 || old(projectType) == Multicam
    {
      v := NewVideoFile(filePath, cameraId);
      Append(v);
    }

    /** The list update and type promotion of `AddVideoFile`, for a file already built. */
    method Append(v: VideoFile)
      modifies this
      ensures videoFiles == old(videoFiles) + [v]
      ensures projectType == (if |videoFiles| > 1 && old(projectType) == SingleCam then Multicam else old(projectType))
      ensures name == old(name)
      ensures IsMulticam() <==> |videoFiles| > 1 || old(projectType) == Multicam
    {
      videoFiles := videoFiles + [v];
      if |videoFiles| > 1 && projectType == SingleCam {
        projectType := Multicam;
      }
    }

    /** Removes the first file with the given path and reports whether there was one. */
    method RemoveVideoFile(filePath: string) returns (removed: bool)
      modifies this
      ensures removed <==> exists i :: 0 <= i < |old(videoFiles)| && old(videoFiles)[i].path == filePath
      ensures videoFiles == RemoveFirst(old(videoFiles), filePath)
      ensures projectType == old(projectType) && name == old(name)
      ensures old(projectType) == Multicam ==> IsMulticam()
    {
      for i := 0 to |videoFiles|
        invariant videoFiles == old(videoFiles)
        invariant forall k :: 0 <= k < i ==> videoFiles[k].path != filePath
      {
        if videoFiles[i].path == filePath {
          videoFiles := videoFiles[..i] + videoFiles[i + 1..];
          return true;
        }
      }
      return false;
    }

    /** Camera id to path for every file with both. */
    method GetCameraMapping() returns (mapping: map<string, string>)
      ensures mapping == CameraMapping(videoFiles)
    {
      mapping := map[];
      for i := 0 to |videoFiles|
        invariant mapping == CameraMapping(videoFiles[..i])
      {
        assert videoFiles[..i + 1][..i] == videoFiles[..i];
        var vf := videoFiles[i];
        if vf.cameraId != "" && vf.path != "" {
          mapping := mapping[vf.cameraId := vf.path];
        }
      }
      assert videoFiles[..|videoFiles|] == videoFiles;
    }

    /** The checks that need no filesystem: at least one file, and a name that is not blank. */
    function Validate(): (errors: seq<string>)
      reads this
      ensures NoVideosError in errors <==> |videoFiles| == 0
      ensures EmptyNameError in errors <==> Strip(name) == ""
      ensures forall e :: e in errors ==> e == NoVideosError || e == EmptyNameError
    {
      assert NoVideosError[0] != EmptyNameError[0];
      (if |videoFiles| == 0 then [NoVideosError] else []) + (if Strip(name) == "" then [EmptyNameError] else [])
    }
  }

  /** Adding a file whose path is new and removing it again gives back the original list. */
  lemma AddThenRemove(fs: seq<VideoFile>, v: VideoFile)
    requires forall k :: 0 <= k < |fs| ==> fs[k].path != v.path
    ensures RemoveFirst(fs + [v], v.path) == fs
  {
    var ext := fs + [v];
    assert ext[..|fs|] + ext[|fs| + 1..] == fs;
  }

  // ---------------------------------------------------------------------------
  // create_project_from_videos
  // ---------------------------------------------------------------------------

  /** The camera id of the `i`-th of `n` videos: "Camera_<i+1>" with several, "Main_Camera" with one. */
  function CameraName(i: nat, n: nat): (r: string)
    ensures r != ""
  {
    if n > 1 then "Camera_" + NatToString(i + 1) else "Main_Camera"
  }

  /** With several videos, the camera names are pairwise different. */
  lemma CameraNamesDistinct(i: nat, j: nat, n: nat)
    requires n > 1 && i != j
    ensures CameraName(i, n) != CameraName(j, n)
  {
    if CameraName(i, n) == CameraName(j, n) {
      var prefix := "Camera_";
      assert NatToString(i + 1) == CameraName(i, n)[|prefix|..];
      assert NatToString(j + 1) == CameraName(j, n)[|prefix|..];
      NatToStringInjective(i + 1, j + 1);
    }
  }

  /** The files a new project from `paths` holds, in path order. */
  function ProjectFiles(paths: seq<string>): (fs: seq<VideoFile>)
    ensures |fs| == |paths|
    ensures forall i :: 0 <= i < |paths| ==> fs[i].path == paths[i] && fs[i].cameraId == CameraName(i, |paths|)
  {
    seq(|paths|, i requires 0 <= i < |paths| => NewVideoFile(paths[i], Some(CameraName(i, |paths|))))
  }

  /** The first `i + 1` files of a new project extend the first `i` by the file made for path `i`. */
  lemma ProjectFilesStep(paths: seq<string>, i: nat)
    requires i < |paths|
    ensures ProjectFiles(paths)[..i + 1] == ProjectFiles(paths)[..i] + [NewVideoFile(paths[i], Some(CameraName(i, |paths|)))]
  {
    var fs := ProjectFiles(paths);
    assert fs[..i + 1] == fs[..i] + [fs[i]];
  }

  method CreateProjectFromVideos(projectName: string, videoPaths: seq<string>) returns (project: SmartEditProject)
    ensures fresh(project)
    ensures project.name == projectName
    ensures project.videoFiles == ProjectFiles(videoPaths)
    ensures project.projectType == (if |videoPaths| > 1 then Multicam else SingleCam)
    ensures project.IsMulticam() <==> |videoPaths| > 1
  {
    ghost var fs := ProjectFiles(videoPaths);
    project := new SmartEditProject(projectName, [], SingleCam);
    for i := 0 to |videoPaths|
      invariant project.name == projectName
      invariant project.videoFiles == fs[..i]
      invariant project.projectType == (if i > 1 then Multicam else SingleCam)
    {
      var cameraId := if |videoPaths| > 1 then "Camera_" + NatToString(i + 1) else "Main_Camera";
      assert cameraId == CameraName(i, |videoPaths|);
      var added := project.AddVideoFile(videoPaths[i], Some(cameraId));
      ProjectFilesStep(videoPaths, i);
    }
    assert fs[..|videoPaths|] == fs;
  }

  /**
   * In a project created from several paths, the camera mapping takes
   * "Camera_<i+1>" to the `i`-th path whenever that path is non-empty.
   */
  lemma CreatedProjectMapping(paths: seq<string>, i: nat)
    requires |paths| > 1 && i < |paths| && paths[i] != ""
    ensures CameraName(i, |paths|) in CameraMapping(ProjectFiles(paths))
    ensures CameraMapping(ProjectFiles(paths))[CameraName(i, |paths|)] == paths[i]
  {
    var fs := ProjectFiles(paths);
    forall j | i < j < |fs| && Mapped(fs[j])
      ensures fs[j].cameraId != fs[i].cameraId
    {
      CameraNamesDistinct(i, j, |paths|);
    }
    CameraMappingLastWins(fs, i);
  }
}
