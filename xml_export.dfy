/**
 * The numbers behind the timeline export of `smart_edit/xml_export.py`:
 * which script segments are exported, how seconds become frames, where each
 * clip lands on the sequence timeline, and the durations written for the
 * master clip and the multicam sequence. The XML text itself, identifiers
 * and file access are not part of the model.
 */
module XmlExport {
  import opened Wrappers

  /** Python's `int(x)` on a float: truncation toward zero. */
  function Trunc(x: real): int {
    if x >= 0.0 then x.Floor else -((-x).Floor)
  }

  /** Truncation moves toward zero by less than one. */
  lemma TruncBounds(x: real)
    ensures x >= 0.0 ==> Trunc(x) >= 0 && Trunc(x) as real <= x < Trunc(x) as real + 1.0
    ensures x < 0.0 ==> Trunc(x) <= 0 && Trunc(x) as real - 1.0 < x <= Trunc(x) as real
  {
  }

  /** Truncation never reverses an order. */
  lemma TruncMonotonic(x: real, y: real)
    requires x <= y
    ensures Trunc(x) <= Trunc(y)
  {
    if x >= 0.0 || y < 0.0 {
      assert x.Floor <= y.Floor;
      assert (-y).Floor <= (-x).Floor;
    }
  }

  /** Seconds to frames at a frame rate: Python's `int(seconds * fps)`. */
  function ToFrames(seconds: real, fps: int): int {
    Trunc(seconds * (fps as real))
  }

  /** Frame rates written with the NTSC flag set. */
  function NtscFlag(fps: int): (r: string)
    ensures r == "TRUE" <==> fps == 24 || fps == 30 || fps == 60
    ensures r == "TRUE" || r == "FALSE"
  {
    if fps in [24, 30, 60] then "TRUE" else "FALSE"
  }

  /** Output settings of an exporter; fixed once constructed. */
  datatype XmlExporter = XmlExporter(fps: int, width: int, height: int, ntsc: string)

  function NewXmlExporter(fps: int, width: int, height: int): (e: XmlExporter)
    ensures e.fps == fps && e.width == width && e.height == height
    ensures e.ntsc == "TRUE" <==> fps in {24, 30, 60}
  {
    XmlExporter(fps, width, height, NtscFlag(fps))
  }

  const DefaultExporter := NewXmlExporter(24, 1920, 1080)

  // ---------------------------------------------------------------------------
  // Segment selection
  // ---------------------------------------------------------------------------

  /** A segment of a generated script; each attribute may be missing. */
  datatype ScriptSegment = ScriptSegment(startTime: Option<real>, endTime: Option<real>, keep: Option<bool>)

  /** The start time, 0 when missing. */
  function StartOf(seg: ScriptSegment): real {
    seg.startTime.GetOr(0.0)
  }

  /** The end time, 0 when missing (segment selection and maximum end). */
  function EndOf(seg: ScriptSegment): real {
    seg.endTime.GetOr(0.0)
  }

  /** The end time, one second after the start when missing (clip placement). */
  function ClipEndOf(seg: ScriptSegment): real {
    seg.endTime.GetOr(StartOf(seg) + 1.0)
  }

  /** Marked to keep (the default) and longer than a tenth of a second. */
  predicate IsExportable(seg: ScriptSegment) {
    seg.keep.GetOr(true) && EndOf(seg) > StartOf(seg) && EndOf(seg) - StartOf(seg) > 0.1
  }

  /** The exportable segments, in their original order. */
  function ExportableSegments(segs: seq<ScriptSegment>): (r: seq<ScriptSegment>)
    ensures |r| <= |segs|
    ensures forall seg :: seg in r <==> seg in segs && IsExportable(seg)
  {
    if |segs| == 0 then []
    else
      var init := segs[..|segs| - 1];
      var last := segs[|segs| - 1];
      assert forall seg :: seg in segs <==> seg in init || seg == last;
      ExportableSegments(init) + (if IsExportable(last) then [last] else [])
  }

  /**
   * Choosing the exportable segments distributes over concatenation and keeps
   * or drops a single segment by its timing: the chosen segments keep their
   * original order and multiplicity.
   */
  lemma {:induction false} ExportableSegmentsAppend(a: seq<ScriptSegment>, b: seq<ScriptSegment>)
    ensures ExportableSegments(a + b) == ExportableSegments(a) + ExportableSegments(b)
    ensures |b| == 1 ==> ExportableSegments(b) == if IsExportable(b[0]) then b else []
  {
    if |b| > 0 {
      var b' := b[..|b| - 1];
      var tail := if IsExportable(b[|b| - 1]) then [b[|b| - 1]] else [];
      assert (a + b)[..|a + b| - 1] == a + b';
      assert (a + b)[|a + b| - 1] == b[|b| - 1];
      assert ExportableSegments(a + b) == ExportableSegments(a + b') + tail;
      assert ExportableSegments(b) == ExportableSegments(b') + tail;
      ExportableSegmentsAppend(a, b');
      ConcatAssoc(ExportableSegments(a), ExportableSegments(b'), tail);
      if |b| == 1 {
        assert b' == [];
      }
    } else {
      assert a + b == a;
    }
  }

  /**
   * The segments to export: the exportable ones, or every segment when none
   * is exportable; nothing when the script has no segment list.
   */
  function SelectedSegments(script: Option<seq<ScriptSegment>>): seq<ScriptSegment> {
    match script
    case None => []
    case Some(segs) =>
      var chosen := ExportableSegments(segs);
      if |chosen| == 0 && |segs| > 0 then segs else chosen
  }

  /**
   * Either every selected segment is exportable and every exportable segment
   * is selected, or none was exportable and all segments are selected; the
   * selection is empty exactly when the script has no segments.
   */
  lemma SelectionFallback(script: Option<seq<ScriptSegment>>)
    ensures var r := SelectedSegments(script);
      && (script.None? ==> r == [])
      && (script.Some? && (exists seg :: seg in script.value && IsExportable(seg)) ==>
            forall seg :: seg in r <==> seg in script.value && IsExportable(seg))
      && (script.Some? && (forall seg :: seg in script.value ==> !IsExportable(seg)) ==> r == script.value)
      && (|r| == 0 <==> script.None? || |script.value| == 0)
  {
    if script.Some? {
      var segs := script.value;
      if exists seg :: seg in segs && IsExportable(seg) {
        var seg :| seg in segs && IsExportable(seg);
        assert seg in ExportableSegments(segs);
      } else if |ExportableSegments(segs)| > 0 {
        assert ExportableSegments(segs)[0] in ExportableSegments(segs);
      }
    }
  }

  method GetValidSegments(script: Option<seq<ScriptSegment>>) returns (segments: seq<ScriptSegment>)
    ensures segments == SelectedSegments(script)
  {
    if script.None? {
      return [];
    }
    var all := script.value;
    segments := [];
    for i := 0 to |all|
      invariant segments == ExportableSegments(all[..i])
    {
      assert all[..i + 1][..i] == all[..i];
      var seg := all[i];
      var start := seg.startTime.GetOr(0.0);
      var end := seg.endTime.GetOr(0.0);
      if seg.keep.GetOr(true) && end > start && end - start > 0.1 {
        segments := segments + [seg];
      }
    }
    assert all[..|all|] == all;
    if |segments| == 0 && |all| > 0 {
      segments := all;
    }
  }

  // ---------------------------------------------------------------------------
  // Single-camera timeline
  // ---------------------------------------------------------------------------

  /** The largest end time, starting from 0. */
  function MaxEndTime(segs: seq<ScriptSegment>): (m: real)
    ensures m >= 0.0
    ensures forall k :: 0 <= k < |segs| ==> EndOf(segs[k]) <= m
  {
    if |segs| == 0 then 0.0
    else
      var m := MaxEndTime(segs[..|segs| - 1]);
      var e := EndOf(segs[|segs| - 1]);
      assert forall k :: 0 <= k < |segs| - 1 ==> segs[..|segs| - 1][k] == segs[k];
      if e > m then e else m
  }

  /** The maximum is 0 or the end time of some segment. */
  lemma {:induction false} MaxEndTimeAttained(segs: seq<ScriptSegment>)
    ensures MaxEndTime(segs) == 0.0 || exists k :: 0 <= k < |segs| && EndOf(segs[k]) == MaxEndTime(segs)
  {
    if |segs| > 0 {
      var init := segs[..|segs| - 1];
      MaxEndTimeAttained(init);
      if MaxEndTime(segs) != 0.0 && MaxEndTime(segs) == MaxEndTime(init) {
        var k :| 0 <= k < |init| && EndOf(init[k]) == MaxEndTime(init);
        assert segs[k] == init[k];
      }
    }
  }

  /** The master clip's length: the largest end time plus five minutes, in frames. */
  function SourceDurationFrames(segs: seq<ScriptSegment>, fps: int): int {
    ToFrames(MaxEndTime(segs) + 300.0, fps)
  }

  /** One clip on the sequence: source in/out frames and its place on the timeline. */
  datatype Clip = Clip(segmentIndex: nat, sourceIn: int, sourceOut: int, duration: int, start: int, end: int)

  /** A segment's source span in frames: `int(start * fps)` and `int(end * fps)`. */
  datatype FrameSpan = FrameSpan(inFrame: int, outFrame: int)

  function SpanOf(seg: ScriptSegment, fps: int): FrameSpan {
    FrameSpan(ToFrames(StartOf(seg), fps), ToFrames(ClipEndOf(seg), fps))
  }

  function Spans(segs: seq<ScriptSegment>, fps: int): (spans: seq<FrameSpan>)
    ensures |spans| == |segs|
    ensures forall k :: 0 <= k < |segs| ==> spans[k] == SpanOf(segs[k], fps)
  {
    seq(|segs|, k requires 0 <= k < |segs| => SpanOf(segs[k], fps))
  }

  /** Where the next clip goes: the end of the last clip, 0 on an empty timeline. */
  function TimelineEnd(clips: seq<Clip>): int {
    if |clips| == 0 then 0 else clips[|clips| - 1].end
  }

  function SumDurations(clips: seq<Clip>): int {
    if |clips| == 0 then 0 else SumDurations(clips[..|clips| - 1]) + clips[|clips| - 1].duration
  }

  /** `c` is the clip of a span of positive length and occupies `duration` frames of the timeline. */
  predicate ClipOf(spans: seq<FrameSpan>, c: Clip) {
    && c.segmentIndex < |spans|
    && c.sourceIn == spans[c.segmentIndex].inFrame
    && c.sourceOut == spans[c.segmentIndex].outFrame
    && c.duration == c.sourceOut - c.sourceIn > 0
    && c.end == c.start + c.duration
  }

  /** The first clip starts at frame 0 and each clip starts where the one before ends, in segment order. */
  predicate EndToEnd(clips: seq<Clip>) {
    && (|clips| > 0 ==> clips[0].start == 0)
    && forall k :: 0 < k < |clips| ==>
         clips[k].start == clips[k - 1].end && clips[k - 1].segmentIndex < clips[k].segmentIndex
  }

  /** One step of the placement loop: span `n` adds a clip at the end of the timeline when its length is positive. */
  function PlaceSpan(prev: seq<Clip>, n: nat, span: FrameSpan): (clips: seq<Clip>)
    ensures clips == prev || (|clips| == |prev| + 1 && clips[..|prev|] == prev)
  {
    var duration := span.outFrame - span.inFrame;
    if duration <= 0 then prev
    else prev + [Clip(n, span.inFrame, span.outFrame, duration, TimelineEnd(prev), TimelineEnd(prev) + duration)]
  }

  /**
   * The clips of the single-camera sequence, placing the spans one by one;
   * each clip refers to the span it was cut from.
   */
  function Clips(spans: seq<FrameSpan>): (clips: seq<Clip>)
    ensures |clips| <= |spans|
    ensures forall k :: 0 <= k < |clips| ==> clips[k].segmentIndex < |spans|
  {
    if |spans| == 0 then []
    else
      var n := |spans| - 1;
      var prev := Clips(spans[..n]);
      var clips := PlaceSpan(prev, n, spans[n]);
      assert forall k :: 0 <= k < |prev| ==> clips[k] == prev[k];
      clips
  }

  lemma ClipOfExtends(spans: seq<FrameSpan>, n: int, c: Clip)
    requires 0 <= n <= |spans| && ClipOf(spans[..n], c)
    ensures ClipOf(spans, c)
  {
    assert spans[..n][c.segmentIndex] == spans[c.segmentIndex];
  }

  /** Every clip copies the in and out frames of its span, has a positive length, and ends `duration` frames after it starts. */
  lemma {:induction false} ClipsMatchSpans(spans: seq<FrameSpan>)
    ensures forall k :: 0 <= k < |Clips(spans)| ==> ClipOf(spans, Clips(spans)[k])
  {
    if |spans| > 0 {
      var n := |spans| - 1;
      var prev := Clips(spans[..n]);
      ClipsMatchSpans(spans[..n]);
      var clips := Clips(spans);
      forall k | 0 <= k < |clips|
        ensures ClipOf(spans, clips[k])
      {
        if k < |prev| {
          assert clips[k] == prev[k];
          ClipOfExtends(spans, n, prev[k]);
        }
      }
    }
  }

  /** The clips are laid end to end from frame 0, in segment order. */
  lemma {:induction false} ClipsEndToEnd(spans: seq<FrameSpan>)
    ensures EndToEnd(Clips(spans))
  {
    if |spans| > 0 {
      var n := |spans| - 1;
      var prev := Clips(spans[..n]);
      ClipsEndToEnd(spans[..n]);
      var clips := Clips(spans);
      if clips != prev {
        assert clips[..|prev|] == prev;
        forall k | 0 < k < |clips|
          ensures clips[k].start == clips[k - 1].end && clips[k - 1].segmentIndex < clips[k].segmentIndex
        {
          if k < |prev| {
            assert clips[k] == prev[k] && clips[k - 1] == prev[k - 1];
          }
        }
      }
    }
  }

  /** The sequence's total length is the sum of the clip durations, and no clip is empty. */
  lemma {:induction false} TimelineTotal(spans: seq<FrameSpan>)
    ensures TimelineEnd(Clips(spans)) == SumDurations(Clips(spans))
    ensures SumDurations(Clips(spans)) >= |Clips(spans)|
  {
    if |spans| > 0 {
      TimelineTotal(spans[..|spans| - 1]);
      var prev := Clips(spans[..|spans| - 1]);
      var clips := Clips(spans);
      if clips != prev {
        assert clips[..|clips| - 1] == prev;
      }
    }
  }

  /** A span gets a clip exactly when its frame length is positive. */
  lemma {:induction false} ClipsCoverPositiveSpans(spans: seq<FrameSpan>, j: int)
    requires 0 <= j < |spans|
    ensures (exists k :: 0 <= k < |Clips(spans)| && Clips(spans)[k].segmentIndex == j)
            <==> spans[j].outFrame - spans[j].inFrame > 0
  {
    var n := |spans| - 1;
    var init := spans[..n];
    var prev := Clips(init);
    var clips := Clips(spans);
    assert clips == PlaceSpan(prev, n, spans[n]);
    ClipsMatchSpans(spans);
    if j < n {
      ClipsCoverPositiveSpans(init, j);
      assert init[j] == spans[j];
      if spans[j].outFrame - spans[j].inFrame > 0 {
        var k :| 0 <= k < |prev| && prev[k].segmentIndex == j;
        assert clips[k] == clips[..|prev|][k] == prev[k];
        assert 0 <= k < |Clips(spans)| && Clips(spans)[k].segmentIndex == j;
      } else {
        forall k | 0 <= k < |clips|
          ensures clips[k].segmentIndex != j
        {
          assert ClipOf(spans, clips[k]);
        }
      }
    } else {
      if spans[j].outFrame - spans[j].inFrame > 0 {
        assert clips == prev + [clips[|prev|]];
        assert Clips(spans)[|prev|].segmentIndex == j;
      } else {
        assert clips == prev;
      }
    }
  }

  /** `a <= b` is kept by scaling with a frame rate that is not negative. */
  lemma ScaleMonotonic(a: real, b: real, f: real)
    requires a <= b && f >= 0.0
    ensures a * f <= b * f
  {
    assert b * f - a * f == (b - a) * f;
  }

  /** The out frame of a segment's span. */
  lemma SpanOutFrame(segs: seq<ScriptSegment>, fps: int, i: int)
    requires 0 <= i < |segs|
    ensures Spans(segs, fps)[i].outFrame == ToFrames(ClipEndOf(segs[i]), fps)
  {
  }

  /** The out frame of one clip is the out frame of its span. */
  lemma ClipSourceOut(spans: seq<FrameSpan>, k: int)
    requires 0 <= k < |Clips(spans)|
    ensures Clips(spans)[k].sourceOut == spans[Clips(spans)[k].segmentIndex].outFrame
  {
    ClipsMatchSpans(spans);
    assert ClipOf(spans, Clips(spans)[k]);
  }

  /** An end time converted to frames is at most the master clip length. */
  lemma EndWithinMaster(segs: seq<ScriptSegment>, fps: int, i: int)
    requires fps >= 0 && 0 <= i < |segs| && segs[i].endTime.Some?
    ensures ToFrames(ClipEndOf(segs[i]), fps) <= SourceDurationFrames(segs, fps)
  {
    var e := ClipEndOf(segs[i]);
    var m := MaxEndTime(segs);
    assert e == EndOf(segs[i]) <= m;
    ScaleMonotonic(e, m + 300.0, fps as real);
    TruncMonotonic(e * (fps as real), (m + 300.0) * (fps as real));
  }

  /** A segment with an end time never runs past the master clip when the frame rate is not negative. */
  lemma MasterClipCoversClips(segs: seq<ScriptSegment>, fps: int, k: int)
    requires fps >= 0 && 0 <= k < |Clips(Spans(segs, fps))|
    requires segs[Clips(Spans(segs, fps))[k].segmentIndex].endTime.Some?
    ensures Clips(Spans(segs, fps))[k].sourceOut <= SourceDurationFrames(segs, fps)
  {
    var spans := Spans(segs, fps);
    var i := Clips(spans)[k].segmentIndex;
    ClipSourceOut(spans, k);
    SpanOutFrame(segs, fps, i);
    EndWithinMaster(segs, fps, i);
  }

  /** The single-camera layout: the clips, the sequence length and the master clip length. */
  datatype SingleCamLayout = SingleCamLayout(clips: seq<Clip>, totalDuration: int, sourceDuration: int)

  /** The loop shared by both layouts: the largest end time over the segments, starting from 0. */
  method MaxSegmentEnd(segments: seq<ScriptSegment>) returns (maxTime: real)
    ensures maxTime == MaxEndTime(segments)
  {
    maxTime := 0.0;
    for i := 0 to |segments|
      invariant maxTime == MaxEndTime(segments[..i])
    {
      assert segments[..i + 1][..i] == segments[..i];
      var endTime := segments[i].endTime.GetOr(0.0);
      if endTime > maxTime {
        maxTime := endTime;
      }
    }
    assert segments[..|segments|] == segments;
  }

  /** The clip loop: places the segments' clips end to end and returns them with the final timeline position. */
  method PlaceClips(fps: int, segments: seq<ScriptSegment>) returns (clips: seq<Clip>, timelinePosition: int)
    ensures clips == Clips(Spans(segments, fps))
    ensures timelinePosition == SumDurations(clips)
  {
    ghost var spans := Spans(segments, fps);
    clips := [];
    timelinePosition := 0;
    for i := 0 to |segments|
      invariant clips == Clips(spans[..i])
      invariant timelinePosition == TimelineEnd(clips)
    {
      assert spans[..i + 1][..i] == spans[..i];
      ghost var next := PlaceSpan(clips, i, spans[i]);
      assert next == Clips(spans[..i + 1]);
      var startTime := segments[i].startTime.GetOr(0.0);
      var endTime := segments[i].endTime.GetOr(startTime + 1.0);
      var sourceInFrames := ToFrames(startTime, fps);
      var sourceOutFrames := ToFrames(endTime, fps);
      assert spans[i] == SpanOf(segments[i], fps);
      assert startTime == StartOf(segments[i]) && endTime == ClipEndOf(segments[i]);
      assert spans[i] == FrameSpan(sourceInFrames, sourceOutFrames);
      var durationFrames := sourceOutFrames - sourceInFrames;
      if durationFrames <= 0 {
        continue;
      }
      clips := clips + [Clip(i, sourceInFrames, sourceOutFrames, durationFrames, timelinePosition, timelinePosition + durationFrames)];
      timelinePosition := timelinePosition + durationFrames;
    }
    assert spans[..|segments|] == spans;
    TimelineTotal(spans);
  }

  /** The numbers of the single-camera sequence: master clip length, clips, and total length. */
  method CreateSingleCamTimeline(exporter: XmlExporter, segments: seq<ScriptSegment>) returns (layout: SingleCamLayout)
    ensures layout.clips == Clips(Spans(segments, exporter.fps))
    ensures layout.totalDuration == SumDurations(layout.clips)
    ensures layout.sourceDuration == SourceDurationFrames(segments, exporter.fps)
  {
    var maxSourceTime := MaxSegmentEnd(segments);
    var sourceDurationFrames := ToFrames(maxSourceTime + 300.0, exporter.fps);
    assert sourceDurationFrames == SourceDurationFrames(segments, exporter.fps);
    var clips, timelinePosition := PlaceClips(exporter.fps, segments);
    layout := SingleCamLayout(clips, timelinePosition, sourceDurationFrames);
  }

  // ---------------------------------------------------------------------------
  // Multicam sequence
  // ---------------------------------------------------------------------------

  const DefaultMulticamSeconds := 600.0

  /** A whole number of seconds times a frame rate truncates to itself. */
  lemma TruncWhole(n: int)
    ensures Trunc(n as real) == n
  {
    if n < 0 {
      assert -(n as real) == (-n) as real;
    }
  }

  /** The multicam sequence length in frames; ten minutes when no segment ends after 0. */
  function MulticamDurationFrames(segs: seq<ScriptSegment>, fps: int): (r: int)
    ensures MaxEndTime(segs) <= 0.0 ==> r == 600 * fps
    ensures MaxEndTime(segs) > 0.0 ==> r == ToFrames(MaxEndTime(segs), fps)
  {
    var m := MaxEndTime(segs);
    if m <= 0.0 then
      assert DefaultMulticamSeconds * (fps as real) == (600 * fps) as real;
      TruncWhole(600 * fps);
      ToFrames(DefaultMulticamSeconds, fps)
    else ToFrames(m, fps)
  }

  /** With a positive frame rate, the multicam sequence is never empty. */
  lemma MulticamNeverEmpty(segs: seq<ScriptSegment>, fps: int)
    requires fps > 0
    ensures MulticamDurationFrames(segs, fps) >= 0
    ensures MaxEndTime(segs) <= 0.0 ==> MulticamDurationFrames(segs, fps) > 0
  {
    var m := MaxEndTime(segs);
    if m > 0.0 {
      assert m * (fps as real) >= 0.0;
    }
  }

  /** The multicam sequence length: the largest end time, ten minutes when it is not positive, in frames. */
  method CreateMulticamDuration(exporter: XmlExporter, segments: seq<ScriptSegment>) returns (totalDurationFrames: int)
    ensures totalDurationFrames == MulticamDurationFrames(segments, exporter.fps)
  {
    var maxDuration := MaxSegmentEnd(segments);
    if maxDuration <= 0.0 {
      maxDuration := DefaultMulticamSeconds;
    }
    totalDurationFrames := ToFrames(maxDuration, exporter.fps);
  }

  // ---------------------------------------------------------------------------
  // export_script
  // ---------------------------------------------------------------------------

  /** The video argument: one path, or a list of paths. */
  datatype VideoPaths = OnePath(path: string) | PathList(paths: seq<string>)

  function PathsOf(v: VideoPaths): (ps: seq<string>)
    ensures v.OnePath? ==> ps == [v.path]
  {
    match v
    case OnePath(p) => [p]
    case PathList(ps) => ps
  }

  datatype Layout = SingleCam(single: SingleCamLayout) | Multicam(durationFrames: int)

  /** Why an export returned False, or the layout it wrote. */
  datatype ExportOutcome = Exported(layout: Layout) | NoVideoPaths | NoValidSegments | SaveFailed

  predicate Succeeded(r: ExportOutcome) {
    r.Exported?
  }

  /**
   * Exports the script; `saved` stands for the outcome of writing the file.
   * The export succeeds exactly when there is a path, a segment to export
   * and the file was written; one path gives the single-camera layout.
   */
  method ExportScript(exporter: XmlExporter, script: Option<seq<ScriptSegment>>, videoPaths: VideoPaths, saved: bool)
    returns (r: ExportOutcome)
    ensures var paths := PathsOf(videoPaths);
      var segs := SelectedSegments(script);
      && (|paths| == 0 <==> r.NoVideoPaths?)
      && (r.NoValidSegments? <==> |paths| > 0 && |segs| == 0)
      && (Succeeded(r) <==> |paths| > 0 && |segs| > 0 && saved)
      && (Succeeded(r) && |paths| == 1 ==>
            r.layout == SingleCam(SingleCamLayout(Clips(Spans(segs, exporter.fps)), SumDurations(Clips(Spans(segs, exporter.fps))),
                                                  SourceDurationFrames(segs, exporter.fps))))
      && (Succeeded(r) && |paths| > 1 ==> r.layout == Multicam(MulticamDurationFrames(segs, exporter.fps)))
  {
    var paths := PathsOf(videoPaths);
    if |paths| == 0 {
      return NoVideoPaths;
    }
    var segments := GetValidSegments(script);
    if |segments| == 0 {
      return NoValidSegments;
    }
    var layout: Layout;
    if |paths| == 1 {
      var single := CreateSingleCamTimeline(exporter, segments);
      layout := SingleCam(single);
    } else {
      var frames := CreateMulticamDuration(exporter, segments);
      layout := Multicam(frames);
    }
    if !saved {
      return SaveFailed;
    }
    return Exported(layout);
  }

  /** A script with at least one segment always has something to export, exportable or not. */
  lemma ExportNeedsOnlySegments(exporter: XmlExporter, segs: seq<ScriptSegment>)
    requires |segs| > 0
    ensures |SelectedSegments(Some(segs))| > 0
  {
    SelectionFallback(Some(segs));
  }
}
