/**
 * The edit-decision engine of `smart_edit/script_generation.py`.
 *
 * Every transcript segment gets one `CutDecision` (keep, remove or speed up)
 * from a prioritised rule chain that an analysis of key and removable segment
 * ids can override. The list of decisions is then softened when too little
 * would be kept, given fades between sentence boundaries, and repaired so that
 * something is kept and every timing is well formed. Transitions, pacing
 * adjustments and the final duration are derived from the repaired list.
 *
 * Times are exact reals; the source's floating point rounding is not modelled.
 */
module ScriptGeneration {
  import opened Wrappers
  import opened Text

  datatype EditAction = Keep | Remove | SpeedUp | SlowDown | FadeIn | FadeOut

  datatype Confidence = Low | Medium | High

  /** One transcript segment, as the transcription step delivers it. */
  datatype Segment = Segment(
    start: real,
    end: real,
    text: string,
    contentType: string,
    containsFiller: bool,
    pauseAfter: real,
    speechRate: string)

  /** The transcription result: its segments and `metadata['total_duration']`. */
  datatype Transcription = Transcription(segments: seq<Segment>, totalDuration: real)

  /** The options of `ScriptGenerationConfig` that the rules read. */
  datatype Config = Config(
    model: string,
    removeFillerWords: bool,
    removeLongPauses: bool,
    minPauseThreshold: real,
    keepQuestionSegments: bool,
    maxSpeedIncrease: real,
    enableTransitions: bool)

  const DefaultConfig := Config("gpt-4", true, true, 2.0, true, 1.3, true)

  /** The content analysis: id lists, an absent key read as the empty list. */
  datatype Analysis = Analysis(keySegments: seq<int>, removableSegments: seq<int>, transitionSegments: seq<int>)

  /**
   * The decision for one segment. `cameraId`, `speaker` and `contentType` are
   * attributes that later steps attach to a decision object (camera assignment
   * writes `camera_id` and reads the other two with a default); they are absent
   * on every decision built here.
   */
  datatype CutDecision = CutDecision(
    segmentId: int,
    startTime: real,
    endTime: real,
    originalText: string,
    action: EditAction,
    reason: string,
    confidence: Confidence,
    speedFactor: Option<real>,
    fadeDuration: Option<real>,
    cameraId: Option<string>,
    speaker: Option<string>,
    contentType: Option<string>)

  function Min(a: real, b: real): real {
    if a <= b then a else b
  }

  // ---------------------------------------------------------------------------
  // The rule chain for one segment
  // ---------------------------------------------------------------------------

  /** The action, reason, confidence and speed factor the rule chain settles on. */
  datatype Verdict = Verdict(action: EditAction, reason: string, confidence: Confidence, speed: real)

  predicate FillerRule(cfg: Config, seg: Segment) {
    cfg.removeFillerWords && seg.containsFiller && seg.contentType !in ["main_point", "topic_introduction"]
  }

  predicate PauseRule(cfg: Config, seg: Segment) {
    cfg.removeLongPauses && seg.pauseAfter > cfg.minPauseThreshold
  }

  predicate IsImportantContent(seg: Segment) {
    seg.contentType in ["main_point", "topic_introduction", "conclusion"]
  }

  predicate IsQuestion(seg: Segment) {
    EndsWithChar(Strip(seg.text), '?')
  }

  /** A slow segment that is not a conclusion. */
  predicate SlowRule(seg: Segment) {
    seg.speechRate == "slow" && seg.contentType != "conclusion"
  }

  /** One of the rules tried before the slow-speech rule applies. */
  predicate EarlierRuleFires(cfg: Config, seg: Segment) {
    FillerRule(cfg, seg) || PauseRule(cfg, seg) || IsImportantContent(seg) || (cfg.keepQuestionSegments && IsQuestion(seg))
  }

  /** The verdict of the rules alone, before the analysis lists are consulted. */
  function RuleVerdict(cfg: Config, seg: Segment): (v: Verdict)
    ensures v.action == Keep || v.action == Remove || v.action == SpeedUp
    ensures v.action == Remove <==> FillerRule(cfg, seg) || PauseRule(cfg, seg)
    ensures v.action == Remove ==> v.confidence == High
    ensures v.action == SpeedUp <==> !EarlierRuleFires(cfg, seg) && SlowRule(seg)
    ensures v.action == SpeedUp ==>
              !IsImportantContent(seg) && v.speed == Min(1.2, cfg.maxSpeedIncrease) && v.confidence == Medium
    ensures IsImportantContent(seg) && v.action != Remove ==> v.action == Keep && v.confidence == High
    ensures cfg.keepQuestionSegments && IsQuestion(seg) && v.action != Remove ==> v.action == Keep && v.confidence == High
    ensures !EarlierRuleFires(cfg, seg) && !SlowRule(seg) ==>
              v.action == Keep && v.confidence == Medium && v.reason == "Default keep" && v.speed == 1.0
  {
    if FillerRule(cfg, seg) then
      Verdict(Remove, "Contains filler words", High, 1.0)
    else if PauseRule(cfg, seg) then
      Verdict(Remove, "Long pause", High, 1.0)
    else if IsImportantContent(seg) then
      Verdict(Keep, "Important content (" + seg.contentType + ")", High, 1.0)
    else if cfg.keepQuestionSegments && IsQuestion(seg) then
      Verdict(Keep, "Question - likely important", High, 1.0)
    else if SlowRule(seg) then
      Verdict(SpeedUp, "Slow speech rate", Medium, Min(1.2, cfg.maxSpeedIncrease))
    else
      Verdict(Keep, "Default keep", Medium, 1.0)
  }

  predicate ChangesSpeed(a: EditAction) {
    a == SpeedUp || a == SlowDown
  }

  /** The decision for segment `id`: the rule verdict, overridden by the analysis lists. */
  function AnalyzeSegment(cfg: Config, seg: Segment, id: int, analysis: Analysis): (d: CutDecision)
    ensures d.segmentId == id && d.startTime == seg.start && d.endTime == seg.end && d.originalText == seg.text
    ensures id in analysis.keySegments ==> d.action == Keep && d.confidence == High
    ensures id !in analysis.keySegments && id in analysis.removableSegments ==>
              d.action == Remove && d.confidence == Medium
    ensures id !in analysis.keySegments && id !in analysis.removableSegments ==>
              var v := RuleVerdict(cfg, seg);
              d.action == v.action && d.reason == v.reason && d.confidence == v.confidence
    ensures d.speedFactor.Some? <==> ChangesSpeed(d.action)
    ensures d.action == SpeedUp ==> d.speedFactor == Some(Min(1.2, cfg.maxSpeedIncrease))
    ensures d.action != SlowDown && d.action != FadeIn && d.action != FadeOut
    ensures d.fadeDuration.None? && d.cameraId.None? && d.speaker.None? && d.contentType.None?
  {
    var v := RuleVerdict(cfg, seg);
    var w :=
      if id in analysis.keySegments then Verdict(Keep, "AI identified as key content", High, v.speed)
      else if id in analysis.removableSegments then Verdict(Remove, "AI identified as removable", Medium, v.speed)
      else v;
    CutDecision(id, seg.start, seg.end, seg.text, w.action, w.reason, w.confidence,
                if ChangesSpeed(w.action) then Some(w.speed) else None, None, None, None, None)
  }

  /** One decision per segment, in order, before any global adjustment. */
  function InitialDecisions(cfg: Config, segs: seq<Segment>, analysis: Analysis): (ds: seq<CutDecision>)
    ensures |ds| == |segs|
  {
    seq(|segs|, i requires 0 <= i < |segs| => AnalyzeSegment(cfg, segs[i], i, analysis))
  }

  // ---------------------------------------------------------------------------
  // Counting decisions
  // ---------------------------------------------------------------------------

  /** How many decisions carry action `a` (a list-comprehension length in the source). */
  function CountAction(s: seq<CutDecision>, a: EditAction): (n: nat)
    ensures n <= |s|
  {
    if |s| == 0 then 0 else CountAction(s[..|s| - 1], a) + (if s[|s| - 1].action == a then 1 else 0)
  }

  /** How many decisions carry confidence `c`. */
  function CountConfidence(s: seq<CutDecision>, c: Confidence): (n: nat)
    ensures n <= |s|
  {
    if |s| == 0 then 0 else CountConfidence(s[..|s| - 1], c) + (if s[|s| - 1].confidence == c then 1 else 0)
  }

  /** A count is zero exactly when no decision carries that action. */
  lemma {:induction false} CountActionZero(s: seq<CutDecision>, a: EditAction)
    ensures CountAction(s, a) == 0 <==> forall j :: 0 <= j < |s| ==> s[j].action != a
  {
    if |s| > 0 {
      var p := s[..|s| - 1];
      CountActionZero(p, a);
      assert forall j :: 0 <= j < |p| ==> p[j] == s[j];
    }
  }

  /** No decision is both kept and removed, so the two counts never exceed the list. */
  lemma {:induction false} KeptAndRemovedBounded(s: seq<CutDecision>)
    ensures CountAction(s, Keep) + CountAction(s, Remove) <= |s|
  {
    if |s| > 0 {
      KeptAndRemovedBounded(s[..|s| - 1]);
    }
  }

  /** Two lists that agree on every action have the same action counts. */
  lemma {:induction false} CountActionSameActions(s: seq<CutDecision>, t: seq<CutDecision>, a: EditAction)
    requires |s| == |t|
    requires forall j :: 0 <= j < |s| ==> s[j].action == t[j].action
    ensures CountAction(s, a) == CountAction(t, a)
  {
    if |s| > 0 {
      CountActionSameActions(s[..|s| - 1], t[..|t| - 1], a);
    }
  }

  // ---------------------------------------------------------------------------
  // _optimize_decisions: softening an over-aggressive cut
  // ---------------------------------------------------------------------------

  const ConservativeSuffix := " (conservative adjustment)"

  /** Fewer than 30% of the decisions are KEEP (an exact-real reading of the float test). */
  predicate KeepRatioLow(s: seq<CutDecision>)
    requires |s| > 0
  {
    (CountAction(s, Keep) as real) / (|s| as real) < 0.3
  }

  predicate IsSoftRemove(d: CutDecision) {
    d.action == Remove && d.confidence != High
  }

  function Soften(d: CutDecision): CutDecision {
    if IsSoftRemove(d) then d.(action := Keep, reason := d.reason + ConservativeSuffix, confidence := Low) else d
  }

  /** Every remove that is not of high confidence turned into a low-confidence keep. */
  function Softened(s: seq<CutDecision>): (r: seq<CutDecision>)
    ensures |r| == |s|
    ensures forall j :: 0 <= j < |s| && !IsSoftRemove(s[j]) ==> r[j] == s[j]
    ensures forall j :: 0 <= j < |s| && IsSoftRemove(s[j]) ==>
              r[j].action == Keep && r[j].confidence == Low
              && r[j].reason == s[j].reason + ConservativeSuffix
              && r[j] == s[j].(action := r[j].action, reason := r[j].reason, confidence := r[j].confidence)
    ensures forall j :: 0 <= j < |s| && r[j].action == Remove ==> r[j].confidence == High
  {
    seq(|s|, j requires 0 <= j < |s| => Soften(s[j]))
  }

  /** Number of removes that softening turns into keeps. */
  function CountSoftRemoves(s: seq<CutDecision>): nat {
    if |s| == 0 then 0 else CountSoftRemoves(s[..|s| - 1]) + (if IsSoftRemove(s[|s| - 1]) then 1 else 0)
  }

  /** Softening adds exactly the soft removes to the keeps and takes them from the removes. */
  lemma {:induction false} SoftenedCounts(s: seq<CutDecision>)
    ensures CountAction(Softened(s), Keep) == CountAction(s, Keep) + CountSoftRemoves(s)
    ensures CountAction(Softened(s), Remove) + CountSoftRemoves(s) == CountAction(s, Remove)
  {
    if |s| > 0 {
      var p := s[..|s| - 1];
      SoftenedCounts(p);
      assert Softened(s)[..|s| - 1] == Softened(p);
    }
  }

  // ---------------------------------------------------------------------------
  // _ensure_smooth_transitions: fades at sentence boundaries
  // ---------------------------------------------------------------------------

  const SmoothFade := 0.3

  /** Both decisions are kept, the first ends a sentence and the second starts with a capital. */
  predicate SentenceBreak(current: CutDecision, next: CutDecision) {
    && current.action == Keep && next.action == Keep
    && EndsWithChar(Strip(current.originalText), '.')
    && |next.originalText| > 0 && IsUpper(next.originalText[0])
  }

  /** Decisions `p` and `p + 1` form a sentence break. */
  predicate SentenceBoundaryAt(s: seq<CutDecision>, p: int) {
    0 <= p && p + 1 < |s| && SentenceBreak(s[p], s[p + 1])
  }

  /** Decision `j` touches one of the boundaries `0 .. k - 1`. */
  predicate FadedBy(s: seq<CutDecision>, k: int, j: int) {
    (0 < j && j - 1 < k && SentenceBoundaryAt(s, j - 1)) || (j < k && SentenceBoundaryAt(s, j))
  }

  function WithFade(d: CutDecision): CutDecision {
    d.(fadeDuration := Some(SmoothFade))
  }

  /** The list after fades were added around the sentence boundaries `0 .. k - 1`. */
  function FadedUpTo(s: seq<CutDecision>, k: int): (r: seq<CutDecision>)
    ensures |r| == |s|
  {
    seq(|s|, j requires 0 <= j < |s| => if FadedBy(s, k, j) then WithFade(s[j]) else s[j])
  }

  /** The list after fades were added around every sentence boundary between kept decisions. */
  function Smoothed(s: seq<CutDecision>): (r: seq<CutDecision>)
    ensures |r| == |s|
    ensures forall j :: 0 <= j < |s| ==> r[j] == s[j].(fadeDuration := r[j].fadeDuration)
    ensures forall j :: 0 <= j < |s| ==>
              r[j].fadeDuration == s[j].fadeDuration || (r[j].fadeDuration == Some(SmoothFade) && s[j].action == Keep)
    ensures forall p :: SentenceBoundaryAt(s, p) ==>
              r[p].fadeDuration == Some(SmoothFade) && r[p + 1].fadeDuration == Some(SmoothFade)
    ensures forall j :: 0 <= j < |s| && !SentenceBoundaryAt(s, j - 1) && !SentenceBoundaryAt(s, j) ==> r[j] == s[j]
  {
    FadedUpTo(s, |s|)
  }

  /** Boundary `i` is the only new boundary that the pairs `0 .. i` add over the pairs `0 .. i - 1`. */
  lemma FadedByStep(s: seq<CutDecision>, i: int, j: int)
    requires 0 <= i
    ensures FadedBy(s, i + 1, j) <==> FadedBy(s, i, j) || ((j == i || j == i + 1) && SentenceBoundaryAt(s, i))
  {
  }

  /** Taking boundary `i` into account fades decisions `i` and `i + 1` when it is a sentence break, and nothing else. */
  lemma FadedUpToStep(s: seq<CutDecision>, i: int)
    requires 0 <= i && i + 1 < |s|
    ensures var f := FadedUpTo(s, i);
      FadedUpTo(s, i + 1) == if SentenceBoundaryAt(s, i) then f[i := WithFade(f[i])][i + 1 := WithFade(f[i + 1])] else f
  {
    var f := FadedUpTo(s, i);
    var g := if SentenceBoundaryAt(s, i) then f[i := WithFade(f[i])][i + 1 := WithFade(f[i + 1])] else f;
    forall j | 0 <= j < |s|
      ensures FadedUpTo(s, i + 1)[j] == g[j]
    {
      FadedByStep(s, i, j);
    }
  }

  /** Once the last pair has been looked at, every boundary has been taken into account. */
  lemma FadedUpToAll(s: seq<CutDecision>, i: int)
    requires 0 <= i && (|s| > 0 ==> i == |s| - 1)
    ensures FadedUpTo(s, i) == Smoothed(s)
  {
    forall j | 0 <= j < |s|
      ensures FadedBy(s, i, j) <==> FadedBy(s, |s|, j)
    {
    }
  }

  /** Adds the fades in place, one adjacent pair at a time. */
  method EnsureSmoothTransitions(a: array<CutDecision>)
    modifies a
    ensures a[..] == Smoothed(old(a[..]))
  {
    ghost var s := a[..];
    var i := 0;
    while i + 1 < a.Length
      invariant 0 <= i && (a.Length > 0 ==> i <= a.Length - 1)
      invariant a[..] == FadedUpTo(s, i)
    {
      FadedUpToStep(s, i);
      assert a[i] == s[i].(fadeDuration := a[i].fadeDuration);
      assert a[i + 1] == s[i + 1];
      if SentenceBreak(a[i], a[i + 1]) {
        assert SentenceBoundaryAt(s, i);
        a[i] := WithFade(a[i]);
        a[i + 1] := WithFade(a[i + 1]);
      } else {
        assert !SentenceBoundaryAt(s, i);
      }
      i := i + 1;
    }
    FadedUpToAll(s, i);
  }


  /** The optimised list: softened when too little is kept, then smoothed. */
  function Optimized(s: seq<CutDecision>): (r: seq<CutDecision>)
    requires |s| > 0
    ensures |r| == |s|
  {
    Smoothed(if KeepRatioLow(s) then Softened(s) else s)
  }

  /**
   * Softens the decisions in place when fewer than 30% are KEEP, then adds
   * fades. On an empty list the source divides by zero: `ok` is false and
   * nothing changes.
   */
  method OptimizeDecisions(a: array<CutDecision>) returns (ok: bool)
    modifies a
    ensures ok <==> a.Length > 0
    ensures ok ==> a[..] == Optimized(old(a[..]))
    ensures !ok ==> a[..] == old(a[..])
  {
    if a.Length == 0 {
      return false;
    }
    ghost var s := a[..];
    var keepCount := CountAction(a[..], Keep);
    if (keepCount as real) / (a.Length as real) < 0.3 {
      for i := 0 to a.Length
        invariant forall j :: 0 <= j < i ==> a[j] == Soften(s[j])
        invariant forall j :: i <= j < a.Length ==> a[j] == s[j]
      {
        if a[i].action == Remove && a[i].confidence != High {
          a[i] := a[i].(action := Keep, reason := a[i].reason + ConservativeSuffix, confidence := Low);
        }
      }
      assert a[..] == Softened(s);
    }
    EnsureSmoothTransitions(a);
    ok := true;
  }

  // ---------------------------------------------------------------------------
  // _validate_decisions: something kept, timings well formed
  // ---------------------------------------------------------------------------

  const ForcedKeepReason := "Forced keep - no other content selected"
  const MinimumDuration := 0.1

  function ForceKeep(d: CutDecision): CutDecision {
    d.(action := Keep, reason := ForcedKeepReason, confidence := Low)
  }

  function FixTiming(d: CutDecision): CutDecision {
    if d.startTime >= d.endTime then d.(endTime := d.startTime + MinimumDuration) else d
  }

  /** The first decision forced to KEEP when nothing is kept. */
  function WithForcedKeep(s: seq<CutDecision>): seq<CutDecision> {
    if CountAction(s, Keep) == 0 && |s| > 0 then s[0 := ForceKeep(s[0])] else s
  }

  /** The validated list. */
  function Validated(s: seq<CutDecision>): (r: seq<CutDecision>)
    ensures |r| == |s|
    ensures forall j :: 0 <= j < |s| ==> r[j].endTime > r[j].startTime
    ensures forall j :: 0 <= j < |s| ==>
              r[j].startTime == s[j].startTime
              && r[j].endTime == (if s[j].startTime >= s[j].endTime then s[j].startTime + MinimumDuration else s[j].endTime)
    ensures CountAction(s, Keep) > 0 ==>
              forall j :: 0 <= j < |s| ==> r[j] == s[j].(endTime := r[j].endTime)
    ensures CountAction(s, Keep) == 0 && |s| > 0 ==>
              r[0] == s[0].(action := Keep, reason := ForcedKeepReason, confidence := Low, endTime := r[0].endTime)
              && forall j :: 0 < j < |s| ==> r[j] == s[j].(endTime := r[j].endTime)
  {
    var f := WithForcedKeep(s);
    seq(|s|, j requires 0 <= j < |s| => FixTiming(f[j]))
  }

  /** A non-empty validated list keeps at least one decision. */
  lemma ValidatedHasKeep(s: seq<CutDecision>)
    requires |s| > 0
    ensures CountAction(Validated(s), Keep) > 0
  {
    var r := Validated(s);
    if CountAction(s, Keep) == 0 {
      assert r[0].action == Keep;
    } else {
      CountActionZero(s, Keep);
      var j :| 0 <= j < |s| && s[j].action == Keep;
      assert r[j].action == Keep;
    }
    CountActionZero(r, Keep);
  }

  /** Forces a keep and repairs timings in place. */
  method ValidateDecisions(a: array<CutDecision>)
    modifies a
    ensures a[..] == Validated(old(a[..]))
  {
    ghost var s := a[..];
    var keepCount := CountAction(a[..], Keep);
    if keepCount == 0 {
      if a.Length > 0 {
        a[0] := a[0].(action := Keep, reason := ForcedKeepReason, confidence := Low);
      }
    }
    ghost var f := a[..];
    assert f == WithForcedKeep(s);
    for i := 0 to a.Length
      invariant forall j :: 0 <= j < i ==> a[j] == FixTiming(f[j])
      invariant forall j :: i <= j < a.Length ==> a[j] == f[j]
    {
      if a[i].startTime >= a[i].endTime {
        a[i] := a[i].(endTime := a[i].startTime + MinimumDuration);
      }
    }
  }

  // ---------------------------------------------------------------------------
  // _generate_cut_decisions
  // ---------------------------------------------------------------------------

  /** The decisions for a non-empty transcript: analysed, optimised and validated. */
  function CutDecisionsFor(cfg: Config, segs: seq<Segment>, analysis: Analysis): (r: seq<CutDecision>)
    requires |segs| > 0
    ensures |r| == |segs|
  {
    Validated(Optimized(InitialDecisions(cfg, segs, analysis)))
  }

  /**
   * Builds the decision list in place. On an empty transcript the source
   * raises (division by zero in `_optimize_decisions`): `ok` is false.
   */
  method GenerateCutDecisions(cfg: Config, segs: seq<Segment>, analysis: Analysis)
    returns (ok: bool, decisions: array<CutDecision>)
    ensures fresh(decisions)
    ensures ok <==> |segs| > 0
    ensures ok ==> decisions[..] == CutDecisionsFor(cfg, segs, analysis)
  {
    decisions := new CutDecision[|segs|];
    for i := 0 to |segs|
      invariant forall j :: 0 <= j < i ==> decisions[j] == AnalyzeSegment(cfg, segs[j], j, analysis)
    {
      decisions[i] := AnalyzeSegment(cfg, segs[i], i, analysis);
    }
    assert decisions[..] == InitialDecisions(cfg, segs, analysis);
    ok := OptimizeDecisions(decisions);
    if ok {
      ValidateDecisions(decisions);
    }
  }

  /**
   * Decision `j` of the engine's output traced back to the rule chain's
   * decision `d0` for segment `j`: the same segment id, start and text, the
   * end repaired only where it did not follow the start, the same speed
   * factor, and the same action and confidence unless softening turned a
   * soft remove into a low-confidence keep or the first decision was the one
   * forced keep.
   */
  lemma CutDecisionTrace(cfg: Config, segs: seq<Segment>, analysis: Analysis, j: int)
    requires 0 <= j < |segs|
    ensures var d0 := AnalyzeSegment(cfg, segs[j], j, analysis);
      var r := CutDecisionsFor(cfg, segs, analysis)[j];
      && r.segmentId == j && r.startTime == segs[j].start && r.originalText == segs[j].text
      && r.endTime == (if segs[j].start >= segs[j].end then segs[j].start + MinimumDuration else segs[j].end)
      && r.endTime > r.startTime
      && r.speedFactor == d0.speedFactor
      && (|| (r.action == d0.action && r.confidence == d0.confidence)
          || (IsSoftRemove(d0) && r.action == Keep && r.confidence == Low)
          || (j == 0 && d0.action != Keep && r.action == Keep && r.confidence == Low && r.reason == ForcedKeepReason))
  {
    var s0 := InitialDecisions(cfg, segs, analysis);
    assert s0[j] == AnalyzeSegment(cfg, segs[j], j, analysis);
    OptimizedAt(s0, j);
    ValidatedAt(Optimized(s0), j);
  }

  /** Optimising changes only the fade of a decision, and its action and confidence when it is softened. */
  lemma OptimizedAt(s: seq<CutDecision>, j: int)
    requires 0 <= j < |s|
    ensures var d := Optimized(s)[j];
      && d == s[j].(action := d.action, reason := d.reason, confidence := d.confidence, fadeDuration := d.fadeDuration)
      && (d.action == Keep <==> s[j].action == Keep || (IsSoftRemove(s[j]) && KeepRatioLow(s)))
      && ((d.action == s[j].action && d.confidence == s[j].confidence)
          || (IsSoftRemove(s[j]) && d.action == Keep && d.confidence == Low))
  {
    var s1 := if KeepRatioLow(s) then Softened(s) else s;
    assert s1[j] == s[j] || (IsSoftRemove(s[j]) && KeepRatioLow(s) && s1[j] == s[j].(action := Keep, reason := s1[j].reason, confidence := Low));
    var s2 := Smoothed(s1);
    assert s2[j] == s1[j].(fadeDuration := s2[j].fadeDuration);
  }

  /** Validation repairs the end time, and forces the first decision to a keep when none is kept. */
  lemma ValidatedAt(s: seq<CutDecision>, j: int)
    requires 0 <= j < |s|
    ensures var r := Validated(s)[j];
      && r.startTime == s[j].startTime
      && r.endTime == (if s[j].startTime >= s[j].endTime then s[j].startTime + MinimumDuration else s[j].endTime)
      && ((r == s[j].(endTime := r.endTime))
          || (j == 0 && s[j].action != Keep && r == s[j].(action := Keep, reason := ForcedKeepReason, confidence := Low, endTime := r.endTime)))
  {
    if CountAction(s, Keep) == 0 && j == 0 {
      CountActionZero(s, Keep);
    }
  }

  /**
   * Shape of the engine's output: one decision per segment, in order, numbered
   * by position, with the segment's start and text and its end repaired only
   * where it did not follow the start.
   */
  lemma CutDecisionsShape(cfg: Config, segs: seq<Segment>, analysis: Analysis)
    requires |segs| > 0
    ensures var r := CutDecisionsFor(cfg, segs, analysis);
      forall j :: 0 <= j < |segs| ==>
        && r[j].segmentId == j
        && r[j].startTime == segs[j].start
        && r[j].endTime == (if segs[j].start >= segs[j].end then segs[j].start + MinimumDuration else segs[j].end)
        && r[j].endTime > r[j].startTime
        && r[j].originalText == segs[j].text
  {
    forall j | 0 <= j < |segs| {
      CutDecisionTrace(cfg, segs, analysis, j);
    }
  }

  /** The engine always keeps something. */
  lemma CutDecisionsKeepSomething(cfg: Config, segs: seq<Segment>, analysis: Analysis)
    requires |segs| > 0
    ensures CountAction(CutDecisionsFor(cfg, segs, analysis), Keep) > 0
  {
    ValidatedHasKeep(Optimized(InitialDecisions(cfg, segs, analysis)));
  }

  /** A segment the analysis lists as key ends up KEEP with high confidence, whatever else happens. */
  lemma KeySegmentKept(cfg: Config, segs: seq<Segment>, analysis: Analysis, j: int)
    requires 0 <= j < |segs|
    requires j in analysis.keySegments
    ensures CutDecisionsFor(cfg, segs, analysis)[j].action == Keep
    ensures CutDecisionsFor(cfg, segs, analysis)[j].confidence == High
  {
    CutDecisionTrace(cfg, segs, analysis, j);
  }

  /**
   * A segment listed as removable (and not as key) is removed, unless the
   * decisions were softened or it was the one forced keep, in which case it
   * is a low-confidence keep.
   */
  lemma RemovableSegmentOutcome(cfg: Config, segs: seq<Segment>, analysis: Analysis, j: int)
    requires 0 <= j < |segs|
    requires j !in analysis.keySegments && j in analysis.removableSegments
    ensures var d := CutDecisionsFor(cfg, segs, analysis)[j];
      d.action == Remove || (d.action == Keep && d.confidence == Low)
  {
    CutDecisionTrace(cfg, segs, analysis, j);
  }

  /**
   * A slow segment that is not a conclusion, that no earlier rule catches and
   * that neither analysis list names is sped up in the engine's output, at
   * `min(1.2, max_speed_increase)`; only the first segment can instead be the
   * forced keep.
   */
  lemma SlowSegmentSpedUp(cfg: Config, segs: seq<Segment>, analysis: Analysis, j: int)
    requires 0 < j < |segs|
    requires j !in analysis.keySegments && j !in analysis.removableSegments
    requires !EarlierRuleFires(cfg, segs[j]) && SlowRule(segs[j])
    ensures CutDecisionsFor(cfg, segs, analysis)[j].action == SpeedUp
    ensures CutDecisionsFor(cfg, segs, analysis)[j].speedFactor == Some(Min(1.2, cfg.maxSpeedIncrease))
  {
    CutDecisionTrace(cfg, segs, analysis, j);
  }

  /** In the engine's output a speed change always carries its factor, and a speed-up carries `min(1.2, max_speed_increase)`. */
  lemma SpeedFactorsKept(cfg: Config, segs: seq<Segment>, analysis: Analysis, j: int)
    requires 0 <= j < |segs|
    ensures var d := CutDecisionsFor(cfg, segs, analysis)[j];
      d.action != SlowDown
      && (d.action == SpeedUp ==> d.speedFactor == Some(Min(1.2, cfg.maxSpeedIncrease)))
  {
    CutDecisionTrace(cfg, segs, analysis, j);
  }

  // ---------------------------------------------------------------------------
  // _rule_based_content_analysis
  // ---------------------------------------------------------------------------

  predicate IsKeyContent(seg: Segment) {
    seg.contentType in ["main_point", "topic_introduction"]
  }

  predicate IsRemovableContent(seg: Segment) {
    !IsKeyContent(seg) && (seg.containsFiller || seg.contentType == "supporting")
  }

  predicate IsTransitionContent(seg: Segment) {
    !IsKeyContent(seg) && !IsRemovableContent(seg) && seg.contentType == "transition"
  }

  predicate StrictlyIncreasing(xs: seq<int>) {
    forall p, q :: 0 <= p < q < |xs| ==> xs[p] < xs[q]
  }

  /** The ids `0 .. |segs| - 1` whose segment satisfies `P`, in increasing order. */
  function IdsWhere(segs: seq<Segment>, P: Segment -> bool): (ids: seq<int>)
    ensures forall i :: i in ids <==> 0 <= i < |segs| && P(segs[i])
    ensures StrictlyIncreasing(ids)
  {
    if |segs| == 0 then []
    else
      var n := |segs| - 1;
      var init := segs[..n];
      var ids := IdsWhere(init, P);
      assert forall i :: 0 <= i < n ==> init[i] == segs[i];
      assert forall p :: 0 <= p < |ids| ==> ids[p] < n by {
        forall p | 0 <= p < |ids| ensures ids[p] < n {
          assert ids[p] in ids;
        }
      }
      var r := ids + (if P(segs[n]) then [n] else []);
      assert forall i :: i in r <==> i in ids || (P(segs[n]) && i == n);
      r
  }

  /** The analysis the rules derive from content types and filler flags. */
  function RuleBasedAnalysis(segs: seq<Segment>): Analysis {
    Analysis(IdsWhere(segs, IsKeyContent), IdsWhere(segs, IsRemovableContent), IdsWhere(segs, IsTransitionContent))
  }

  /** Looking at one more segment appends its id exactly when it matches. */
  lemma IdsWhereStep(segs: seq<Segment>, i: int, P: Segment -> bool)
    requires 0 <= i < |segs|
    ensures IdsWhere(segs[..i + 1], P) == IdsWhere(segs[..i], P) + (if P(segs[i]) then [i] else [])
  {
    assert segs[..i + 1][..i] == segs[..i];
  }

  /** Builds the three id lists in one pass over the segments. */
  method RuleBasedContentAnalysis(segs: seq<Segment>) returns (a: Analysis)
    ensures a == RuleBasedAnalysis(segs)
  {
    var important: seq<int> := [];
    var filler: seq<int> := [];
    var transition: seq<int> := [];
    for i := 0 to |segs|
      invariant important == IdsWhere(segs[..i], IsKeyContent)
      invariant filler == IdsWhere(segs[..i], IsRemovableContent)
      invariant transition == IdsWhere(segs[..i], IsTransitionContent)
    {
      IdsWhereStep(segs, i, IsKeyContent);
      IdsWhereStep(segs, i, IsRemovableContent);
      IdsWhereStep(segs, i, IsTransitionContent);
      if segs[i].contentType in ["main_point", "topic_introduction"] {
        important := important + [i];
      } else if segs[i].containsFiller || segs[i].contentType == "supporting" {
        filler := filler + [i];
      } else if segs[i].contentType == "transition" {
        transition := transition + [i];
      }
    }
    assert segs[..|segs|] == segs;
    a := Analysis(important, filler, transition);
  }

  /** The three rule-based lists are disjoint and each is in increasing id order. */
  lemma RuleBasedAnalysisPartition(segs: seq<Segment>, i: int)
    ensures var a := RuleBasedAnalysis(segs);
      && StrictlyIncreasing(a.keySegments) && StrictlyIncreasing(a.removableSegments)
      && StrictlyIncreasing(a.transitionSegments)
      && (i in a.keySegments ==> i !in a.removableSegments && i !in a.transitionSegments)
      && (i in a.removableSegments ==> i !in a.transitionSegments)
  {
  }

  /**
   * Under the rule-based analysis a segment with filler words that is not a
   * main point or topic introduction is removed even when filler removal is
   * switched off in the configuration: the analysis lists it as removable.
   */
  lemma FillerRemovedWithoutAnalysisService(cfg: Config, segs: seq<Segment>, j: int)
    requires 0 <= j < |segs|
    requires segs[j].containsFiller && !IsKeyContent(segs[j])
    ensures var d := AnalyzeSegment(cfg, segs[j], j, RuleBasedAnalysis(segs));
      d.action == Remove && d.confidence == Medium
  {
    assert j in RuleBasedAnalysis(segs).removableSegments;
  }

  // ---------------------------------------------------------------------------
  // _generate_transitions
  // ---------------------------------------------------------------------------

  datatype TransitionPoint = TransitionPoint(
    fromSegmentId: int, toSegmentId: int, transitionType: string, duration: real, reason: string)

  /** Decisions that appear in the edit: KEEP, SPEED_UP or SLOW_DOWN. */
  predicate InEdit(d: CutDecision) {
    d.action == Keep || d.action == SpeedUp || d.action == SlowDown
  }

  /** The decisions that appear in the edit, in order. */
  function EditedDecisions(s: seq<CutDecision>): (r: seq<CutDecision>)
    ensures |r| <= |s|
    ensures forall d :: d in r <==> d in s && InEdit(d)
  {
    if |s| == 0 then []
    else
      var r := EditedDecisions(s[..|s| - 1]);
      assert forall d :: d in s <==> d in s[..|s| - 1] || d == s[|s| - 1];
      r + (if InEdit(s[|s| - 1]) then [s[|s| - 1]] else [])
  }

  /**
   * Selecting the edited decisions distributes over concatenation and keeps
   * or drops a single decision by its action: the edited decisions keep
   * their order and multiplicity.
   */
  lemma {:induction false} EditedDecisionsAppend(a: seq<CutDecision>, b: seq<CutDecision>)
    ensures EditedDecisions(a + b) == EditedDecisions(a) + EditedDecisions(b)
    ensures |b| == 1 ==> EditedDecisions(b) == if InEdit(b[0]) then b else []
  {
    if |b| > 0 {
      var b' := b[..|b| - 1];
      var tail := if InEdit(b[|b| - 1]) then [b[|b| - 1]] else [];
      assert (a + b)[..|a + b| - 1] == a + b';
      assert (a + b)[|a + b| - 1] == b[|b| - 1];
      assert EditedDecisions(a + b) == EditedDecisions(a + b') + tail;
      assert EditedDecisions(b) == EditedDecisions(b') + tail;
      EditedDecisionsAppend(a, b');
      ConcatAssoc(EditedDecisions(a), EditedDecisions(b'), tail);
      if |b| == 1 {
        assert b' == [];
      }
    } else {
      assert a + b == a;
    }
  }

  /** The transition from one edited decision to the next. */
  function TransitionBetween(cur: CutDecision, next: CutDecision): (t: TransitionPoint)
    ensures t.fromSegmentId == cur.segmentId && t.toSegmentId == next.segmentId
    ensures t.transitionType == "fade" <==> next.startTime - cur.endTime > 1.0
    ensures t.transitionType == "cut" <==>
              next.startTime - cur.endTime <= 1.0 && EndsWithChar(Strip(cur.originalText), '.')
    ensures t.transitionType == "fade" || t.transitionType == "cut" || t.transitionType == "cross_fade"
    ensures t.duration == (if t.transitionType == "fade" then 0.5 else if t.transitionType == "cut" then 0.0 else 0.3)
  {
    var gap := next.startTime - cur.endTime;
    if gap > 1.0 then
      TransitionPoint(cur.segmentId, next.segmentId, "fade", 0.5, "Large time gap between segments")
    else if EndsWithChar(Strip(cur.originalText), '.') then
      TransitionPoint(cur.segmentId, next.segmentId, "cut", 0.0, "Natural sentence boundary")
    else
      TransitionPoint(cur.segmentId, next.segmentId, "cross_fade", 0.3, "Smooth content transition")
  }

  /** One transition per consecutive pair of edited decisions; none when transitions are disabled. */
  predicate TransitionsOf(cfg: Config, decisions: seq<CutDecision>, ts: seq<TransitionPoint>) {
    && (!cfg.enableTransitions ==> ts == [])
    && (cfg.enableTransitions ==>
          var kept := EditedDecisions(decisions);
          |ts| == (if |kept| == 0 then 0 else |kept| - 1)
          && forall i :: 0 <= i < |ts| ==> ts[i] == TransitionBetween(kept[i], kept[i + 1]))
  }

  method GenerateTransitions(cfg: Config, decisions: seq<CutDecision>) returns (ts: seq<TransitionPoint>)
    ensures TransitionsOf(cfg, decisions, ts)
  {
    if !cfg.enableTransitions {
      return [];
    }
    ts := [];
    var kept := EditedDecisions(decisions);
    var pairs := if |kept| == 0 then 0 else |kept| - 1;
    for i := 0 to pairs
      invariant |ts| == i
      invariant forall k :: 0 <= k < i ==> ts[k] == TransitionBetween(kept[k], kept[k + 1])
    {
      ts := ts + [TransitionBetween(kept[i], kept[i + 1])];
    }
  }

  // ---------------------------------------------------------------------------
  // _generate_pacing_adjustments and _calculate_duration_metrics
  // ---------------------------------------------------------------------------

  datatype PacingAdjustment = PacingAdjustment(
    segmentId: int, originalDuration: real, suggestedDuration: real, speedFactor: real, reason: string)

  /** `speed_factor or 1.0`: an absent or zero factor reads as 1.0. */
  function SpeedOrOne(d: CutDecision): (f: real)
    ensures f != 0.0
    ensures d.speedFactor.Some? && d.speedFactor.value != 0.0 ==> f == d.speedFactor.value
    ensures d.speedFactor.None? || d.speedFactor.value == 0.0 ==> f == 1.0
  {
    if d.speedFactor.Some? && d.speedFactor.value != 0.0 then d.speedFactor.value else 1.0
  }

  function Adjustment(d: CutDecision): PacingAdjustment {
    var original := d.endTime - d.startTime;
    PacingAdjustment(d.segmentId, original, original / SpeedOrOne(d), SpeedOrOne(d), d.reason)
  }

  /** An adjustment's suggested duration played at its factor takes the original duration. */
  lemma AdjustmentScales(d: CutDecision)
    ensures var adj := Adjustment(d);
      adj.speedFactor != 0.0 && adj.suggestedDuration * adj.speedFactor == adj.originalDuration
      && adj.originalDuration == d.endTime - d.startTime && adj.segmentId == d.segmentId
  {
    var f := SpeedOrOne(d);
    var original := d.endTime - d.startTime;
    assert (original / f) * f == original;
  }

  /** The pacing adjustments, one per speed-changing decision, in order. */
  function PacingAdjustments(s: seq<CutDecision>): (r: seq<PacingAdjustment>)
    ensures |r| == CountAction(s, SpeedUp) + CountAction(s, SlowDown)
  {
    if |s| == 0 then []
    else
      var d := s[|s| - 1];
      PacingAdjustments(s[..|s| - 1]) + (if ChangesSpeed(d.action) then [Adjustment(d)] else [])
  }

  /** Every pacing adjustment is the adjustment of a speed-changing decision of the list. */
  lemma {:induction false} PacingAdjustmentsFromSpeedChanges(s: seq<CutDecision>, k: int)
    requires 0 <= k < |PacingAdjustments(s)|
    ensures exists j :: 0 <= j < |s| && ChangesSpeed(s[j].action) && PacingAdjustments(s)[k] == Adjustment(s[j])
  {
    var p := s[..|s| - 1];
    var r := PacingAdjustments(p);
    if k < |r| {
      PacingAdjustmentsFromSpeedChanges(p, k);
      var j :| 0 <= j < |p| && ChangesSpeed(p[j].action) && r[k] == Adjustment(p[j]);
      assert p[j] == s[j];
      assert PacingAdjustments(s)[k] == r[k];
    } else {
      assert PacingAdjustments(s)[k] == Adjustment(s[|s| - 1]);
    }
  }

  /** The adjustment suggested for one speed-changing decision: its length divided by `speed_factor or 1.0`. */
  method AdjustmentFor(d: CutDecision) returns (adjustment: PacingAdjustment)
    ensures adjustment == Adjustment(d)
    ensures adjustment.suggestedDuration * adjustment.speedFactor == adjustment.originalDuration
  {
    var original := d.endTime - d.startTime;
    var factor := if d.speedFactor.Some? && d.speedFactor.value != 0.0 then d.speedFactor.value else 1.0;
    adjustment := PacingAdjustment(d.segmentId, original, original / factor, factor, d.reason);
    QuotientTimesDivisor(original, factor);
  }

  method GeneratePacingAdjustments(decisions: seq<CutDecision>) returns (adjustments: seq<PacingAdjustment>)
    ensures adjustments == PacingAdjustments(decisions)
  {
    adjustments := [];
    for i := 0 to |decisions|
      invariant adjustments == PacingAdjustments(decisions[..i])
    {
      assert decisions[..i + 1][..i] == decisions[..i];
      assert PacingAdjustments(decisions[..i + 1]) ==
        PacingAdjustments(decisions[..i]) + (if ChangesSpeed(decisions[i].action) then [Adjustment(decisions[i])] else []);
      if decisions[i].action == SpeedUp || decisions[i].action == SlowDown {
        var adjustment := AdjustmentFor(decisions[i]);
        adjustments := adjustments + [adjustment];
      }
    }
    assert decisions[..|decisions|] == decisions;
  }

  /** How long a decision lasts in the final edit. */
  function EffectiveDuration(d: CutDecision): real {
    if d.action == Remove then 0.0
    else if ChangesSpeed(d.action) then (d.endTime - d.startTime) / SpeedOrOne(d)
    else d.endTime - d.startTime
  }

  /** Sum of the effective durations. */
  function FinalDuration(s: seq<CutDecision>): real {
    if |s| == 0 then 0.0 else FinalDuration(s[..|s| - 1]) + EffectiveDuration(s[|s| - 1])
  }

  /** Total source span of the decisions, whatever their action. */
  function TotalSpan(s: seq<CutDecision>): real {
    if |s| == 0 then 0.0 else TotalSpan(s[..|s| - 1]) + (s[|s| - 1].endTime - s[|s| - 1].startTime)
  }

  /** The length of one decision that is not removed, divided by its speed factor when it changes speed. */
  method SegmentDuration(d: CutDecision) returns (segmentDuration: real)
    requires d.action != Remove
    ensures segmentDuration == EffectiveDuration(d)
  {
    segmentDuration := d.endTime - d.startTime;
    if d.action == SpeedUp || d.action == SlowDown {
      var factor := if d.speedFactor.Some? && d.speedFactor.value != 0.0 then d.speedFactor.value else 1.0;
      segmentDuration := segmentDuration / factor;
    }
  }

  /** Final duration and compression ratio (0 when the original duration is not positive). */
  method CalculateDurationMetrics(decisions: seq<CutDecision>, originalDuration: real)
    returns (finalDuration: real, compressionRatio: real)
    ensures finalDuration == FinalDuration(decisions)
    ensures compressionRatio == (if originalDuration > 0.0 then finalDuration / originalDuration else 0.0)
    ensures originalDuration > 0.0 ==> compressionRatio * originalDuration == finalDuration
  {
    finalDuration := 0.0;
    for i := 0 to |decisions|
      invariant finalDuration == FinalDuration(decisions[..i])
    {
      FinalDurationStep(decisions, i);
      if decisions[i].action != Remove {
        var segmentDuration := SegmentDuration(decisions[i]);
        finalDuration := finalDuration + segmentDuration;
      }
    }
    assert decisions[..|decisions|] == decisions;
    if originalDuration > 0.0 {
      compressionRatio := finalDuration / originalDuration;
      QuotientTimesDivisor(finalDuration, originalDuration);
    } else {
      compressionRatio := 0.0;
    }
  }

  /** The final duration of a prefix grows by the effective duration of the next decision. */
  lemma FinalDurationStep(s: seq<CutDecision>, i: int)
    requires 0 <= i < |s|
    ensures FinalDuration(s[..i + 1]) == FinalDuration(s[..i]) + EffectiveDuration(s[i])
  {
    assert s[..i + 1][..i] == s[..i];
  }

  lemma QuotientTimesDivisor(x: real, y: real)
    requires y != 0.0
    ensures (x / y) * y == x
  {
  }

  /** With nothing removed or re-timed, the final duration is the full span. */
  lemma {:induction false} FinalDurationAllKept(s: seq<CutDecision>)
    requires forall j :: 0 <= j < |s| ==> s[j].action != Remove && !ChangesSpeed(s[j].action)
    ensures FinalDuration(s) == TotalSpan(s)
  {
    if |s| > 0 {
      FinalDurationAllKept(s[..|s| - 1]);
    }
  }

  /**
   * With well-formed timings and every speed change a speed-up by a factor of
   * at least 1, the edit is never longer than the material it is cut from.
   */
  lemma {:induction false} FinalDurationAtMostSpan(s: seq<CutDecision>)
    requires forall j :: 0 <= j < |s| ==> s[j].endTime > s[j].startTime
    requires forall j :: 0 <= j < |s| && ChangesSpeed(s[j].action) ==> SpeedOrOne(s[j]) >= 1.0
    ensures 0.0 <= FinalDuration(s) <= TotalSpan(s)
  {
    if |s| > 0 {
      var d := s[|s| - 1];
      FinalDurationAtMostSpan(s[..|s| - 1]);
      if ChangesSpeed(d.action) {
        var span := d.endTime - d.startTime;
        var f := SpeedOrOne(d);
        assert span / f <= span by {
          assert (span / f) * f == span;
        }
      }
    }
  }

  /** A list whose effective durations are never negative and one of which is positive lasts a positive time. */
  lemma {:induction false} FinalDurationPositive(s: seq<CutDecision>, k: int)
    requires forall j :: 0 <= j < |s| ==> EffectiveDuration(s[j]) >= 0.0
    requires 0 <= k < |s| && EffectiveDuration(s[k]) > 0.0
    ensures FinalDuration(s) > 0.0
  {
    var p := s[..|s| - 1];
    if k < |s| - 1 {
      FinalDurationPositive(p, k);
    } else {
      FinalDurationNonNegative(p);
    }
  }

  lemma {:induction false} FinalDurationNonNegative(s: seq<CutDecision>)
    requires forall j :: 0 <= j < |s| ==> EffectiveDuration(s[j]) >= 0.0
    ensures FinalDuration(s) >= 0.0
  {
    if |s| > 0 {
      FinalDurationNonNegative(s[..|s| - 1]);
    }
  }

  /**
   * The engine's edit of a non-empty transcript lasts a positive time when the
   * maximum speed increase is not negative: something is kept and every kept
   * timing is well formed.
   */
  lemma CutDecisionsLastPositiveTime(cfg: Config, segs: seq<Segment>, analysis: Analysis)
    requires |segs| > 0
    requires cfg.maxSpeedIncrease >= 0.0
    ensures FinalDuration(CutDecisionsFor(cfg, segs, analysis)) > 0.0
  {
    var r := CutDecisionsFor(cfg, segs, analysis);
    CutDecisionsKeepSomething(cfg, segs, analysis);
    CountActionZero(r, Keep);
    var k :| 0 <= k < |r| && r[k].action == Keep;
    forall j | 0 <= j < |r|
      ensures EffectiveDuration(r[j]) >= 0.0 && (r[j].action == Keep ==> EffectiveDuration(r[j]) > 0.0)
    {
      CutDecisionTrace(cfg, segs, analysis, j);
      SpeedFactorsKept(cfg, segs, analysis, j);
      EffectiveDurationNonNegative(r[j], cfg.maxSpeedIncrease);
    }
    FinalDurationPositive(r, k);
  }

  /** A well-timed decision that is not slowed down and is sped up by `min(1.2, m)` for `m >= 0` never lasts a negative time. */
  lemma EffectiveDurationNonNegative(d: CutDecision, m: real)
    requires d.endTime > d.startTime && d.action != SlowDown && m >= 0.0
    requires d.action == SpeedUp ==> d.speedFactor == Some(Min(1.2, m))
    ensures EffectiveDuration(d) >= 0.0
    ensures d.action == Keep ==> EffectiveDuration(d) > 0.0
  {
    if d.action == SpeedUp {
      QuotientPositive(d.endTime - d.startTime, SpeedOrOne(d));
    }
  }

  lemma QuotientPositive(x: real, y: real)
    requires x > 0.0 && y > 0.0
    ensures x / y > 0.0
  {
  }

  // ---------------------------------------------------------------------------
  // generate_script
  // ---------------------------------------------------------------------------

  /** The metadata counts of the script (the generation time is a clock reading and left out). */
  datatype Metadata = Metadata(
    aiEnabled: bool,
    modelUsed: string,
    segmentsAnalyzed: nat,
    segmentsKept: nat,
    segmentsRemoved: nat,
    highConfidenceDecisions: nat)

  /** A complete edit script; its cut list is shared with whoever assigns camera angles to it. */
  class EditScript {
    const cuts: array<CutDecision>
    const transitions: seq<TransitionPoint>
    const pacingAdjustments: seq<PacingAdjustment>
    const estimatedFinalDuration: real
    const originalDuration: real
    const compressionRatio: real
    const metadata: Metadata

    constructor (cuts: array<CutDecision>, transitions: seq<TransitionPoint>,
                 pacingAdjustments: seq<PacingAdjustment>, estimatedFinalDuration: real,
                 originalDuration: real, compressionRatio: real, metadata: Metadata)
      ensures this.cuts == cuts && this.transitions == transitions
      ensures this.pacingAdjustments == pacingAdjustments
      ensures this.estimatedFinalDuration == estimatedFinalDuration
      ensures this.originalDuration == originalDuration && this.compressionRatio == compressionRatio
      ensures this.metadata == metadata
    {
      this.cuts := cuts;
      this.transitions := transitions;
      this.pacingAdjustments := pacingAdjustments;
      this.estimatedFinalDuration := estimatedFinalDuration;
      this.originalDuration := originalDuration;
      this.compressionRatio := compressionRatio;
      this.metadata := metadata;
    }
  }

  /** The failure `generate_script` can raise: an empty transcript divides by zero. */
  datatype GenerationError = DivisionByZero

  /** The analysis used: the service's answer when enabled and it answered, else the rules'. */
  function ChosenAnalysis(aiEnabled: bool, aiAnswer: Option<Analysis>, segs: seq<Segment>): Analysis {
    if aiEnabled && aiAnswer.Some? then aiAnswer.value else RuleBasedAnalysis(segs)
  }

  /**
   * Generates the complete edit script. The analysis service is an input:
   * `aiAnswer` is its parsed answer, `None` when the call failed.
   */
  method GenerateScript(cfg: Config, aiEnabled: bool, aiAnswer: Option<Analysis>, t: Transcription)
    returns (r: Result<EditScript, GenerationError>)
    ensures |t.segments| == 0 <==> r.Failure?
    ensures r.Success? ==>
      var es := r.value;
      var decisions := CutDecisionsFor(cfg, t.segments, ChosenAnalysis(aiEnabled, aiAnswer, t.segments));
      && fresh(es) && fresh(es.cuts)
      && es.cuts[..] == decisions
      && es.estimatedFinalDuration == FinalDuration(decisions)
      && es.originalDuration == t.totalDuration
      && es.compressionRatio == (if t.totalDuration > 0.0 then es.estimatedFinalDuration / t.totalDuration else 0.0)
      && es.pacingAdjustments == PacingAdjustments(decisions)
      && TransitionsOf(cfg, decisions, es.transitions)
      && es.metadata == Metadata(aiEnabled, if aiEnabled then cfg.model else "rule_based", |t.segments|,
                                 CountAction(decisions, Keep), CountAction(decisions, Remove),
                                 CountConfidence(decisions, High))
  {
    var analysis;
    if aiEnabled && aiAnswer.Some? {
      analysis := aiAnswer.value;
    } else {
      analysis := RuleBasedContentAnalysis(t.segments);
    }
    var ok, decisions := GenerateCutDecisions(cfg, t.segments, analysis);
    if !ok {
      return Failure(DivisionByZero);
    }
    var ds := decisions[..];
    var transitions := GenerateTransitions(cfg, ds);
    var pacing := GeneratePacingAdjustments(ds);
    var finalDuration, ratio := CalculateDurationMetrics(ds, t.totalDuration);
    var metadata := Metadata(
      aiEnabled,
      if aiEnabled then cfg.model else "rule_based",
      |t.segments|,
      CountAction(ds, Keep),
      CountAction(ds, Remove),
      CountConfidence(ds, High));
    var es := new EditScript(decisions, transitions, pacing, finalDuration, t.totalDuration, ratio, metadata);
    r := Success(es);
  }
}
