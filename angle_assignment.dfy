/**
 * Camera-angle assignment of `smart_edit/angle_assignment.py`.
 *
 * The cuts of an edit script that stay in the edit (KEEP or SPEED_UP) receive a
 * camera id, chosen by one of three strategies: round-robin, a switch on every
 * speaker change, or a "smart" state machine that combines speaker changes,
 * important content, a maximum run per camera and occasional variety while
 * suppressing back-and-forth switching. The cut list is updated in place.
 * A second operation summarises an assignment: switches, per-camera usage
 * and a balance score.
 */
module AngleAssignment {
  import opened Wrappers
  import opened ScriptGeneration

  datatype AngleConfig = AngleConfig(
    maxSegmentsPerCamera: int,
    preferSpeakerSwitches: bool,
    preferContentSwitches: bool,
    avoidPingPong: bool,
    defaultStrategy: string)

  const DefaultAngleConfig := AngleConfig(3, true, true, true, "smart")

  /** A cut that camera assignment works on. */
  predicate IsKept(c: CutDecision) {
    c.action == Keep || c.action == SpeedUp
  }

  /** The cut's speaker attribute, "unknown" when absent. */
  function SpeakerOf(c: CutDecision): string {
    c.speaker.GetOr("unknown")
  }

  /** The cut's content-type attribute, "supporting" when absent. */
  function ContentTypeOf(c: CutDecision): string {
    c.contentType.GetOr("supporting")
  }

  function WithCamera(c: CutDecision, id: string): CutDecision {
    c.(cameraId := Some(id))
  }

  // ---------------------------------------------------------------------------
  // Kept cuts and their ranks
  // ---------------------------------------------------------------------------

  /** The kept cuts, in order. */
  function KeptCuts(s: seq<CutDecision>): (r: seq<CutDecision>)
    ensures |r| <= |s|
    ensures forall k :: 0 <= k < |r| ==> IsKept(r[k])
  {
    if |s| == 0 then [] else KeptCuts(s[..|s| - 1]) + (if IsKept(s[|s| - 1]) then [s[|s| - 1]] else [])
  }

  /** How many kept cuts come before position `j`: the rank of a kept cut at `j`. */
  function KeptBefore(s: seq<CutDecision>, j: int): nat
    requires 0 <= j <= |s|
  {
    |KeptCuts(s[..j])|
  }

  lemma KeptCutsStep(s: seq<CutDecision>, j: int)
    requires 0 <= j < |s|
    ensures KeptCuts(s[..j + 1]) == KeptCuts(s[..j]) + (if IsKept(s[j]) then [s[j]] else [])
  {
    assert s[..j + 1][..j] == s[..j];
  }

  lemma {:induction false} KeptCutsAppend(a: seq<CutDecision>, b: seq<CutDecision>)
    ensures KeptCuts(a + b) == KeptCuts(a) + KeptCuts(b)
  {
    if |b| > 0 {
      var b' := b[..|b| - 1];
      assert (a + b)[..|a + b| - 1] == a + b';
      KeptCutsAppend(a, b');
    } else {
      assert a + b == a;
    }
  }

  /** The kept cut at position `j` is the kept cut of rank `KeptBefore(s, j)`. */
  lemma KeptCutsAt(s: seq<CutDecision>, j: int)
    requires 0 <= j < |s| && IsKept(s[j])
    ensures KeptBefore(s, j) < |KeptCuts(s)| && KeptCuts(s)[KeptBefore(s, j)] == s[j]
  {
    KeptCutsStep(s, j);
    assert s == s[..j + 1] + s[j + 1..];
    KeptCutsAppend(s[..j + 1], s[j + 1..]);
  }

  /** The spliced list is `s` before the first position and `a` after the last. */
  lemma SpliceEnds<T>(a: seq<T>, s: seq<T>)
    requires |a| == |s|
    ensures a[..0] + s[0..] == s
    ensures a[..|s|] + s[|s|..] == a
  {
  }

  /** Moving past position `j` counts one more kept cut exactly when the cut at `j` is kept. */
  lemma KeptBeforeStep(s: seq<CutDecision>, j: int)
    requires 0 <= j < |s|
    ensures KeptBefore(s, j + 1) == KeptBefore(s, j) + (if IsKept(s[j]) then 1 else 0)
    ensures KeptBefore(s, j + 1) <= |KeptCuts(s)|
    ensures IsKept(s[j]) ==> KeptCuts(s)[KeptBefore(s, j)] == s[j]
  {
    KeptCutsStep(s, j);
    assert s == s[..j + 1] + s[j + 1..];
    KeptCutsAppend(s[..j + 1], s[j + 1..]);
  }

  /** One more position of `a` spliced into a list that agrees with `a` before `j` and with `s` from `j` on. */
  lemma SpliceStep<T>(a: seq<T>, s: seq<T>, j: int)
    requires |a| == |s| && 0 <= j < |s|
    ensures (a[..j] + s[j..])[j] == s[j]
    ensures (a[..j] + s[j..])[j := a[j]] == a[..j + 1] + s[j + 1..]
    ensures a[j] == s[j] ==> a[..j] + s[j..] == a[..j + 1] + s[j + 1..]
  {
    assert (a[..j] + s[j..])[j := a[j]] == a[..j + 1] + s[j + 1..];
  }

  /** `x` divided by `n` leaves quotient `q` and remainder `r`. */
  lemma ModOf(x: int, n: int, q: int, r: int)
    requires n > 0 && 0 <= r < n && x == q * n + r
    ensures x % n == r && x / n == q
  {
    var q', r' := x / n, x % n;
    assert x == q' * n + r';
    if q > q' {
      MulAtLeast(q - q', n);
    } else if q < q' {
      MulAtLeast(q' - q, n);
    }
  }

  lemma {:induction false} MulAtLeast(a: int, n: int)
    requires a >= 1 && n > 0
    ensures a * n >= n
  {
    if a > 1 {
      MulAtLeast(a - 1, n);
      assert a * n == (a - 1) * n + n;
    }
  }

  /** Advancing a round-robin index by one is advancing the count by one. */
  lemma ModStep(k: nat, n: nat)
    requires n > 0
    ensures (k % n + 1) % n == (k + 1) % n
  {
    var q, r := k / n, k % n;
    assert k == q * n + r;
    if r + 1 < n {
      ModOf(k + 1, n, q, r + 1);
      ModOf(r + 1, n, 0, r + 1);
    } else {
      assert (q + 1) * n == q * n + n;
      ModOf(k + 1, n, q + 1, 0);
      ModOf(r + 1, n, 1, 0);
    }
  }

  // ---------------------------------------------------------------------------
  // Single camera and round robin
  // ---------------------------------------------------------------------------

  /** Every kept cut on the one camera; other cuts untouched. */
  function SingleCameraCuts(s: seq<CutDecision>, id: string): (r: seq<CutDecision>)
    ensures |r| == |s|
    ensures forall j :: 0 <= j < |s| ==> r[j] == (if IsKept(s[j]) then WithCamera(s[j], id) else s[j])
  {
    seq(|s|, j requires 0 <= j < |s| => if IsKept(s[j]) then WithCamera(s[j], id) else s[j])
  }

  method AssignSingleCamera(script: EditScript, cameraId: string)
    modifies script.cuts
    ensures script.cuts[..] == SingleCameraCuts(old(script.cuts[..]), cameraId)
  {
    var cuts := script.cuts;
    for j := 0 to cuts.Length
      invariant forall m :: 0 <= m < j ==> cuts[m] == (if IsKept(old(cuts[m])) then WithCamera(old(cuts[m]), cameraId) else old(cuts[m]))
      invariant forall m :: j <= m < cuts.Length ==> cuts[m] == old(cuts[m])
    {
      if cuts[j].action == Keep || cuts[j].action == SpeedUp {
        cuts[j] := cuts[j].(cameraId := Some(cameraId));
      }
    }
  }

  /** The kept cut of rank `k` gets `ids[k mod n]`. */
  function RoundRobinCuts(s: seq<CutDecision>, ids: seq<string>): (r: seq<CutDecision>)
    requires |ids| > 0
    ensures |r| == |s|
  {
    seq(|s|, j requires 0 <= j < |s| =>
      if IsKept(s[j]) then WithCamera(s[j], ids[KeptBefore(s, j) % |ids|]) else s[j])
  }

  lemma RoundRobinCutsIndex(s: seq<CutDecision>, ids: seq<string>, j: int)
    requires |ids| > 0 && 0 <= j < |s|
    ensures RoundRobinCuts(s, ids)[j] == if IsKept(s[j]) then WithCamera(s[j], ids[KeptBefore(s, j) % |ids|]) else s[j]
  {
  }

  /** Assigns the cut at position `j` and returns the camera index for the next kept cut. */
  method AssignRoundRobinAt(cuts: array<CutDecision>, cameraIds: seq<string>, j: int, cameraIndex: int, ghost s: seq<CutDecision>)
      returns (nextIndex: int)
    requires |cameraIds| > 0 && 0 <= j < |s| == cuts.Length
    requires cameraIndex == KeptBefore(s, j) % |cameraIds|
    requires cuts[..] == RoundRobinCuts(s, cameraIds)[..j] + s[j..]
    modifies cuts
    ensures nextIndex == KeptBefore(s, j + 1) % |cameraIds|
    ensures cuts[..] == RoundRobinCuts(s, cameraIds)[..j + 1] + s[j + 1..]
  {
    ghost var target := RoundRobinCuts(s, cameraIds);
    SpliceStep(target, s, j);
    var cut := cuts[j];
    assert cut == s[j];
    KeptBeforeStep(s, j);
    RoundRobinCutsIndex(s, cameraIds, j);
    nextIndex := cameraIndex;
    if cut.action == Keep || cut.action == SpeedUp {
      cuts[j] := cut.(cameraId := Some(cameraIds[cameraIndex]));
      ModStep(KeptBefore(s, j), |cameraIds|);
      nextIndex := (cameraIndex + 1) % |cameraIds|;
    }
  }

  method AssignRoundRobin(script: EditScript, cameraIds: seq<string>)
    requires |cameraIds| > 0
    modifies script.cuts
    ensures script.cuts[..] == RoundRobinCuts(old(script.cuts[..]), cameraIds)
  {
    var cuts := script.cuts;
    ghost var s := cuts[..];
    SpliceEnds(RoundRobinCuts(s, cameraIds), s);
    var cameraIndex := 0;
    for j := 0 to cuts.Length
      invariant cameraIndex == KeptBefore(s, j) % |cameraIds|
      invariant cuts[..] == RoundRobinCuts(s, cameraIds)[..j] + s[j..]
    {
      cameraIndex := AssignRoundRobinAt(cuts, cameraIds, j, cameraIndex, s);
    }
  }

  /** With two or more cameras, round robin never puts two consecutive kept cuts on the same camera index. */
  lemma RoundRobinAlternates(s: seq<CutDecision>, n: nat, j1: int, j2: int)
    requires n >= 2
    requires 0 <= j1 < j2 < |s| && IsKept(s[j1]) && IsKept(s[j2])
    requires forall m :: j1 < m < j2 ==> !IsKept(s[m])
    ensures KeptBefore(s, j2) == KeptBefore(s, j1) + 1
    ensures KeptBefore(s, j2) % n != KeptBefore(s, j1) % n
  {
    KeptRankSkips(s, j1 + 1, j2);
    KeptBeforeStep(s, j1);
    ModStep(KeptBefore(s, j1), n);
  }

  /** Positions holding no kept cut do not change the rank. */
  lemma {:induction false} KeptRankSkips(s: seq<CutDecision>, a: int, b: int)
    requires 0 <= a <= b <= |s|
    requires forall m :: a <= m < b ==> !IsKept(s[m])
    ensures KeptBefore(s, b) == KeptBefore(s, a)
  {
    if a < b {
      KeptRankSkips(s, a, b - 1);
      KeptCutsStep(s, b - 1);
    }
  }

  // ---------------------------------------------------------------------------
  // Speaker based
  // ---------------------------------------------------------------------------

  datatype SpeakerState = SpeakerState(cameraIndex: int, lastSpeaker: Option<string>)

  /** State after the first `k` kept cuts: the index advances on every change of speaker. */
  function SpeakerRun(ks: seq<CutDecision>, n: nat, k: nat): (st: SpeakerState)
    requires n > 0 && k <= |ks|
    ensures 0 <= st.cameraIndex < n
    ensures k == 0 ==> st == SpeakerState(0, None)
    ensures k > 0 ==> st.lastSpeaker == Some(SpeakerOf(ks[k - 1]))
  {
    if k == 0 then SpeakerState(0, None)
    else SpeakerNext(SpeakerRun(ks, n, k - 1), SpeakerOf(ks[k - 1]), n)
  }

  /** The index moves to the next camera when the speaker differs from the last one seen. */
  function SpeakerNext(prev: SpeakerState, speaker: string, n: nat): SpeakerState
    requires n > 0 && 0 <= prev.cameraIndex < n
  {
    var idx := if prev.lastSpeaker.Some? && speaker != prev.lastSpeaker.value
               then (prev.cameraIndex + 1) % n else prev.cameraIndex;
    SpeakerState(idx, Some(speaker))
  }

  /** The camera index of the kept cut of rank `k`. */
  function SpeakerCamera(ks: seq<CutDecision>, n: nat, k: nat): int
    requires n > 0 && k < |ks|
  {
    SpeakerRun(ks, n, k + 1).cameraIndex
  }

  /**
   * With two or more cameras, a kept cut is on another camera index than the
   * kept cut before it exactly when their speakers differ; the first kept cut
   * is on index 0.
   */
  lemma SpeakerSwitchesExactlyOnChange(ks: seq<CutDecision>, n: nat, k: nat)
    requires n >= 2 && 0 < k < |ks|
    ensures SpeakerCamera(ks, n, k) != SpeakerCamera(ks, n, k - 1) <==> SpeakerOf(ks[k]) != SpeakerOf(ks[k - 1])
    ensures SpeakerCamera(ks, n, 0) == 0
  {
    var prev := SpeakerRun(ks, n, k);
    assert prev.lastSpeaker == Some(SpeakerOf(ks[k - 1]));
    if SpeakerOf(ks[k]) != SpeakerOf(ks[k - 1]) {
      assert SpeakerCamera(ks, n, k) == (prev.cameraIndex + 1) % n;
    }
  }

  function SpeakerCutAt(s: seq<CutDecision>, ids: seq<string>, j: int): CutDecision
    requires |ids| > 0 && 0 <= j < |s|
  {
    if IsKept(s[j]) then
      KeptCutsAt(s, j);
      WithCamera(s[j], ids[SpeakerCamera(KeptCuts(s), |ids|, KeptBefore(s, j))])
    else s[j]
  }

  function SpeakerCuts(s: seq<CutDecision>, ids: seq<string>): (r: seq<CutDecision>)
    requires |ids| > 0
    ensures |r| == |s|
  {
    seq(|s|, j requires 0 <= j < |s| => SpeakerCutAt(s, ids, j))
  }

  lemma SpeakerCutsIndex(s: seq<CutDecision>, ids: seq<string>, j: int)
    requires |ids| > 0 && 0 <= j < |s|
    ensures SpeakerCuts(s, ids)[j] == SpeakerCutAt(s, ids, j)
  {
  }

  /**
   * One position of the speaker-based pass: given the state after the kept
   * cuts before `j`, the cut at `j` and the state after it.
   */
  lemma SpeakerCutsStep(s: seq<CutDecision>, ids: seq<string>, j: int, st: SpeakerState)
    requires |ids| > 0 && 0 <= j < |s| && KeptBefore(s, j) <= |KeptCuts(s)|
    requires st == SpeakerRun(KeptCuts(s), |ids|, KeptBefore(s, j))
    ensures KeptBefore(s, j + 1) <= |KeptCuts(s)|
    ensures !IsKept(s[j]) ==> SpeakerCuts(s, ids)[j] == s[j] && KeptBefore(s, j + 1) == KeptBefore(s, j)
    ensures IsKept(s[j]) ==>
      var next := SpeakerNext(st, SpeakerOf(s[j]), |ids|);
      && KeptBefore(s, j + 1) == KeptBefore(s, j) + 1
      && SpeakerRun(KeptCuts(s), |ids|, KeptBefore(s, j) + 1) == next
      && SpeakerCuts(s, ids)[j] == WithCamera(s[j], ids[next.cameraIndex])
  {
    KeptBeforeStep(s, j);
    SpeakerCutsIndex(s, ids, j);
  }

  /** Assigns the cut at position `j` and returns the state after it. */
  method AssignSpeakerAt(cuts: array<CutDecision>, cameraIds: seq<string>, j: int, state: SpeakerState, ghost s: seq<CutDecision>)
      returns (next: SpeakerState)
    requires |cameraIds| > 0 && 0 <= j < |s| == cuts.Length && KeptBefore(s, j) <= |KeptCuts(s)|
    requires state == SpeakerRun(KeptCuts(s), |cameraIds|, KeptBefore(s, j))
    requires cuts[..] == SpeakerCuts(s, cameraIds)[..j] + s[j..]
    modifies cuts
    ensures KeptBefore(s, j + 1) <= |KeptCuts(s)|
    ensures next == SpeakerRun(KeptCuts(s), |cameraIds|, KeptBefore(s, j + 1))
    ensures cuts[..] == SpeakerCuts(s, cameraIds)[..j + 1] + s[j + 1..]
  {
    ghost var target := SpeakerCuts(s, cameraIds);
    SpliceStep(target, s, j);
    var cut := cuts[j];
    assert cut == s[j];
    SpeakerCutsStep(s, cameraIds, j, state);
    next := state;
    if cut.action == Keep || cut.action == SpeedUp {
      next := SpeakerNext(state, SpeakerOf(cut), |cameraIds|);
      cuts[j] := cut.(cameraId := Some(cameraIds[next.cameraIndex]));
    }
  }

  method AssignSpeakerBased(script: EditScript, cameraIds: seq<string>)
    requires |cameraIds| > 0
    modifies script.cuts
    ensures script.cuts[..] == SpeakerCuts(old(script.cuts[..]), cameraIds)
  {
    var cuts := script.cuts;
    ghost var s := cuts[..];
    SpliceEnds(SpeakerCuts(s, cameraIds), s);
    var state := SpeakerState(0, None);
    for j := 0 to cuts.Length
      invariant KeptBefore(s, j) <= |KeptCuts(s)|
      invariant state == SpeakerRun(KeptCuts(s), |cameraIds|, KeptBefore(s, j))
      invariant cuts[..] == SpeakerCuts(s, cameraIds)[..j] + s[j..]
    {
      state := AssignSpeakerAt(cuts, cameraIds, j, state, s);
    }
  }

  // ---------------------------------------------------------------------------
  // Smart
  // ---------------------------------------------------------------------------

  /** Camera index, kept cuts on it since the last switch, last speaker and rank of the last switch. */
  datatype SmartState = SmartState(cameraIndex: int, onCamera: int, lastSpeaker: Option<string>, lastSwitch: int)

  const NoSwitchYet := -999
  const InitialSmartState := SmartState(0, 0, None, NoSwitchYet)

  datatype SwitchReason = NoReason | SpeakerChange | ContentImportance | MaxSegmentsReached | Variety

  /** The first reason, in priority order, to switch at the kept cut of rank `i` out of `total`. */
  function ProposedSwitch(cfg: AngleConfig, st: SmartState, i: int, total: int, cut: CutDecision): SwitchReason {
    if cfg.preferSpeakerSwitches && st.lastSpeaker.Some? && SpeakerOf(cut) != st.lastSpeaker.value then
      SpeakerChange
    else if cfg.preferContentSwitches && ContentTypeOf(cut) in ["topic_introduction", "conclusion", "main_point"]
            && st.onCamera > 0 then
      ContentImportance
    else if st.onCamera >= cfg.maxSegmentsPerCamera then
      MaxSegmentsReached
    else if st.onCamera >= 2 && (i as real) > (total as real) * 0.3 && i - st.lastSwitch >= 2 then
      Variety
    else
      NoReason
  }

  /** A proposed switch is carried out unless it would ping-pong; a speaker change always is. */
  predicate SwitchesAt(cfg: AngleConfig, st: SmartState, i: int, total: int, cut: CutDecision) {
    var reason := ProposedSwitch(cfg, st, i, total, cut);
    reason != NoReason && !(cfg.avoidPingPong && i - st.lastSwitch < 2 && reason != SpeakerChange)
  }

  function SmartStep(cfg: AngleConfig, n: nat, st: SmartState, i: int, total: int, cut: CutDecision): SmartState
    requires n > 0
  {
    var switch := SwitchesAt(cfg, st, i, total, cut);
    SmartState(
      if switch then (st.cameraIndex + 1) % n else st.cameraIndex,
      (if switch then 0 else st.onCamera) + 1,
      Some(SpeakerOf(cut)),
      if switch then i else st.lastSwitch)
  }

  /** State after the first `k` kept cuts of `ks`. */
  function SmartRun(cfg: AngleConfig, n: nat, ks: seq<CutDecision>, k: nat): (st: SmartState)
    requires n > 0 && k <= |ks|
    ensures 0 <= st.cameraIndex < n
  {
    if k == 0 then InitialSmartState
    else SmartStep(cfg, n, SmartRun(cfg, n, ks, k - 1), k - 1, |ks|, ks[k - 1])
  }

  /**
   * After `k` kept cuts: the last switch is at an earlier rank (or none yet),
   * the cuts on the current camera are at least one and no more than the
   * cuts since that switch, and the last speaker is that of the last cut.
   */
  lemma {:induction false} SmartRunInvariant(cfg: AngleConfig, n: nat, ks: seq<CutDecision>, k: nat)
    requires n > 0 && k <= |ks|
    ensures var st := SmartRun(cfg, n, ks, k);
      && (st.lastSwitch == NoSwitchYet || 0 <= st.lastSwitch < k)
      && 0 <= st.onCamera <= k - st.lastSwitch
      && (k == 0 ==> st == InitialSmartState)
      && (k > 0 ==> st.onCamera >= 1 && st.lastSpeaker == Some(SpeakerOf(ks[k - 1])))
  {
    if k > 0 {
      SmartRunInvariant(cfg, n, ks, k - 1);
    }
  }

  /** The camera index of the kept cut of rank `k`. */
  function SmartCamera(cfg: AngleConfig, n: nat, ks: seq<CutDecision>, k: nat): int
    requires n > 0 && k < |ks|
  {
    SmartRun(cfg, n, ks, k + 1).cameraIndex
  }

  /** A change of speaker between consecutive kept cuts always switches camera, ping-pong or not. */
  lemma SmartSpeakerChangeSwitches(cfg: AngleConfig, n: nat, ks: seq<CutDecision>, k: nat)
    requires n > 0 && 0 < k < |ks|
    requires cfg.preferSpeakerSwitches && SpeakerOf(ks[k]) != SpeakerOf(ks[k - 1])
    ensures SmartCamera(cfg, n, ks, k) == (SmartCamera(cfg, n, ks, k - 1) + 1) % n
    ensures SmartRun(cfg, n, ks, k + 1).lastSwitch == k
  {
    SmartRunInvariant(cfg, n, ks, k);
  }

  /**
   * Right after a switch, the next kept cut stays on the same camera unless its
   * speaker differs: fewer than two kept cuts since a switch suppress every
   * other reason.
   */
  lemma SmartPingPongSuppressed(cfg: AngleConfig, n: nat, ks: seq<CutDecision>, k: nat)
    requires n > 0 && 0 < k < |ks|
    requires cfg.avoidPingPong
    requires SmartRun(cfg, n, ks, k).lastSwitch == k - 1
    requires !(cfg.preferSpeakerSwitches && SpeakerOf(ks[k]) != SpeakerOf(ks[k - 1]))
    ensures SmartCamera(cfg, n, ks, k) == SmartCamera(cfg, n, ks, k - 1)
  {
    SmartRunInvariant(cfg, n, ks, k);
  }

  /** With a maximum of at least 2, no camera holds more than the maximum kept cuts in a row since its last switch. */
  lemma {:induction false} SmartRunBounded(cfg: AngleConfig, n: nat, ks: seq<CutDecision>, k: nat)
    requires n > 0 && k <= |ks| && cfg.maxSegmentsPerCamera >= 2
    ensures SmartRun(cfg, n, ks, k).onCamera <= cfg.maxSegmentsPerCamera
  {
    if k > 0 {
      SmartRunBounded(cfg, n, ks, k - 1);
      var st := SmartRun(cfg, n, ks, k - 1);
      if st.onCamera >= cfg.maxSegmentsPerCamera {
        SmartRunInvariant(cfg, n, ks, k - 1);
        assert ProposedSwitch(cfg, st, k - 1, |ks|, ks[k - 1]) != NoReason;
        assert SwitchesAt(cfg, st, k - 1, |ks|, ks[k - 1]);
      }
    }
  }

  /** With two or more cameras, a kept cut on the same index as the one before it did not switch. */
  lemma SmartSameCameraGrowsRun(cfg: AngleConfig, n: nat, ks: seq<CutDecision>, k: nat)
    requires n >= 2 && 0 < k < |ks|
    requires SmartCamera(cfg, n, ks, k) == SmartCamera(cfg, n, ks, k - 1)
    ensures SmartRun(cfg, n, ks, k + 1).onCamera == SmartRun(cfg, n, ks, k).onCamera + 1
  {
  }

  lemma {:induction false} SmartSteadyRunGrows(cfg: AngleConfig, n: nat, ks: seq<CutDecision>, p: nat, m: nat)
    requires n >= 2 && p + m < |ks|
    requires forall q :: p < q <= p + m ==> SmartCamera(cfg, n, ks, q) == SmartCamera(cfg, n, ks, q - 1)
    ensures SmartRun(cfg, n, ks, p + m + 1).onCamera >= m + 1
  {
    if m > 0 {
      SmartSteadyRunGrows(cfg, n, ks, p, m - 1);
      SmartSameCameraGrowsRun(cfg, n, ks, p + m);
    } else {
      SmartRunInvariant(cfg, n, ks, p + 1);
    }
  }

  /**
   * With two or more cameras and a maximum of at least 2, among any
   * maximum + 1 consecutive kept cuts the camera index changes at least once.
   */
  lemma SmartNoLongRuns(cfg: AngleConfig, n: nat, ks: seq<CutDecision>, p: nat)
    requires n >= 2 && cfg.maxSegmentsPerCamera >= 2
    requires p + cfg.maxSegmentsPerCamera < |ks|
    ensures exists q :: p < q <= p + cfg.maxSegmentsPerCamera && SmartCamera(cfg, n, ks, q) != SmartCamera(cfg, n, ks, q - 1)
  {
    var m := cfg.maxSegmentsPerCamera;
    if forall q :: p < q <= p + m ==> SmartCamera(cfg, n, ks, q) == SmartCamera(cfg, n, ks, q - 1) {
      SmartSteadyRunGrows(cfg, n, ks, p, m);
      SmartRunBounded(cfg, n, ks, p + m + 1);
      assert false;
    }
  }

  function SmartCutAt(cfg: AngleConfig, s: seq<CutDecision>, ids: seq<string>, j: int): CutDecision
    requires |ids| > 0 && 0 <= j < |s|
  {
    if IsKept(s[j]) then
      KeptCutsAt(s, j);
      WithCamera(s[j], ids[SmartCamera(cfg, |ids|, KeptCuts(s), KeptBefore(s, j))])
    else s[j]
  }

  function SmartCuts(cfg: AngleConfig, s: seq<CutDecision>, ids: seq<string>): (r: seq<CutDecision>)
    requires |ids| > 0
    ensures |r| == |s|
  {
    seq(|s|, j requires 0 <= j < |s| => SmartCutAt(cfg, s, ids, j))
  }

  lemma SmartCutsIndex(cfg: AngleConfig, s: seq<CutDecision>, ids: seq<string>, j: int)
    requires |ids| > 0 && 0 <= j < |s|
    ensures SmartCuts(cfg, s, ids)[j] == SmartCutAt(cfg, s, ids, j)
  {
  }

  /**
   * One position of the smart pass: given the state after the kept cuts
   * before `j`, the cut at `j` and the state after it.
   */
  lemma SmartCutsStep(cfg: AngleConfig, s: seq<CutDecision>, ids: seq<string>, j: int, st: SmartState)
    requires |ids| > 0 && 0 <= j < |s| && KeptBefore(s, j) <= |KeptCuts(s)|
    requires st == SmartRun(cfg, |ids|, KeptCuts(s), KeptBefore(s, j))
    ensures KeptBefore(s, j + 1) <= |KeptCuts(s)|
    ensures !IsKept(s[j]) ==> SmartCuts(cfg, s, ids)[j] == s[j] && KeptBefore(s, j + 1) == KeptBefore(s, j)
    ensures IsKept(s[j]) ==>
      var next := SmartStep(cfg, |ids|, st, KeptBefore(s, j), |KeptCuts(s)|, s[j]);
      && KeptBefore(s, j + 1) == KeptBefore(s, j) + 1
      && SmartRun(cfg, |ids|, KeptCuts(s), KeptBefore(s, j) + 1) == next
      && SmartCuts(cfg, s, ids)[j] == WithCamera(s[j], ids[next.cameraIndex])
  {
    KeptBeforeStep(s, j);
    SmartCutsIndex(cfg, s, ids, j);
  }

  /**
   * The switch decision of the smart strategy for the kept cut of rank `i`:
   * the first reason that applies, then the ping-pong check.
   */
  method DecideSwitch(cfg: AngleConfig, st: SmartState, i: int, total: int, cut: CutDecision)
    returns (shouldSwitch: bool, reason: SwitchReason)
    ensures reason == ProposedSwitch(cfg, st, i, total, cut)
    ensures shouldSwitch == SwitchesAt(cfg, st, i, total, cut)
    ensures shouldSwitch ==> reason != NoReason
    ensures reason == SpeakerChange ==> shouldSwitch
  {
    shouldSwitch, reason := false, NoReason;
    var currentSpeaker := SpeakerOf(cut);
    var contentType := ContentTypeOf(cut);
    if cfg.preferSpeakerSwitches && st.lastSpeaker.Some? && currentSpeaker != st.lastSpeaker.value {
      shouldSwitch, reason := true, SpeakerChange;
    } else if cfg.preferContentSwitches && contentType in ["topic_introduction", "conclusion", "main_point"]
              && st.onCamera > 0 {
      shouldSwitch, reason := true, ContentImportance;
    } else if st.onCamera >= cfg.maxSegmentsPerCamera {
      shouldSwitch, reason := true, MaxSegmentsReached;
    } else if st.onCamera >= 2 && (i as real) > (total as real) * 0.3 && i - st.lastSwitch >= 2 {
      shouldSwitch, reason := true, Variety;
    }
    if shouldSwitch && cfg.avoidPingPong && i - st.lastSwitch < 2 && reason != SpeakerChange {
      shouldSwitch := false;
    }
  }

  /** Assigns the cut at position `j`, the kept cut of rank `i` when it is kept, and returns the state and rank after it. */
  method AssignSmartAt(cfg: AngleConfig, cuts: array<CutDecision>, cameraIds: seq<string>, j: int,
                       i: int, total: int, state: SmartState, ghost s: seq<CutDecision>)
      returns (next: SmartState, nextRank: int)
    requires |cameraIds| > 0 && 0 <= j < |s| == cuts.Length
    requires i == KeptBefore(s, j) && i <= |KeptCuts(s)| && total == |KeptCuts(s)|
    requires state == SmartRun(cfg, |cameraIds|, KeptCuts(s), i)
    requires cuts[..] == SmartCuts(cfg, s, cameraIds)[..j] + s[j..]
    modifies cuts
    ensures nextRank == KeptBefore(s, j + 1) && nextRank <= |KeptCuts(s)|
    ensures next == SmartRun(cfg, |cameraIds|, KeptCuts(s), nextRank)
    ensures cuts[..] == SmartCuts(cfg, s, cameraIds)[..j + 1] + s[j + 1..]
  {
    ghost var target := SmartCuts(cfg, s, cameraIds);
    SpliceStep(target, s, j);
    var cut := cuts[j];
    assert cut == s[j];
    SmartCutsStep(cfg, s, cameraIds, j, state);
    next, nextRank := state, i;
    if cut.action == Keep || cut.action == SpeedUp {
      var shouldSwitch, _ := DecideSwitch(cfg, state, i, total, cut);
      var cameraIndex, segmentsOnCamera, lastSwitchPosition := state.cameraIndex, state.onCamera, state.lastSwitch;
      if shouldSwitch {
        cameraIndex := (cameraIndex + 1) % |cameraIds|;
        segmentsOnCamera := 0;
        lastSwitchPosition := i;
      }
      next := SmartState(cameraIndex, segmentsOnCamera + 1, Some(SpeakerOf(cut)), lastSwitchPosition);
      cuts[j] := cut.(cameraId := Some(cameraIds[cameraIndex]));
      nextRank := i + 1;
    }
  }

  method AssignSmart(cfg: AngleConfig, script: EditScript, cameraIds: seq<string>)
    requires |cameraIds| > 0
    modifies script.cuts
    ensures script.cuts[..] == SmartCuts(cfg, old(script.cuts[..]), cameraIds)
  {
    var cuts := script.cuts;
    ghost var s := cuts[..];
    SpliceEnds(SmartCuts(cfg, s, cameraIds), s);
    var total := |KeptCuts(cuts[..])|;
    var state := InitialSmartState;
    var i := 0;
    for j := 0 to cuts.Length
      invariant i == KeptBefore(s, j) && i <= total == |KeptCuts(s)|
      invariant state == SmartRun(cfg, |cameraIds|, KeptCuts(s), i)
      invariant cuts[..] == SmartCuts(cfg, s, cameraIds)[..j] + s[j..]
    {
      state, i := AssignSmartAt(cfg, cuts, cameraIds, j, i, total, state, s);
    }
  }

  // ---------------------------------------------------------------------------
  // assign_angles
  // ---------------------------------------------------------------------------

  /** `strategy or self.config.default_strategy`. */
  function ResolveStrategy(cfg: AngleConfig, strategy: Option<string>): string {
    if strategy.Some? && strategy.value != "" then strategy.value else cfg.defaultStrategy
  }

  /** The cut list after assignment: unchanged without cameras, all on one camera with one, else by strategy. */
  function AssignedCuts(cfg: AngleConfig, s: seq<CutDecision>, ids: seq<string>, strategy: Option<string>): (r: seq<CutDecision>)
    ensures |r| == |s|
  {
    if |ids| == 0 then s
    else if |ids| == 1 then SingleCameraCuts(s, ids[0])
    else
      var name := ResolveStrategy(cfg, strategy);
      if name == "round_robin" then RoundRobinCuts(s, ids)
      else if name == "speaker_based" then SpeakerCuts(s, ids)
      else SmartCuts(cfg, s, ids)
  }

  method AssignAngles(cfg: AngleConfig, script: EditScript, cameraIds: seq<string>, strategy: Option<string>)
    modifies script.cuts
    ensures script.cuts[..] == AssignedCuts(cfg, old(script.cuts[..]), cameraIds, strategy)
  {
    if |cameraIds| == 0 {
      return;
    }
    if |cameraIds| == 1 {
      AssignSingleCamera(script, cameraIds[0]);
      return;
    }
    var name := ResolveStrategy(cfg, strategy);
    if name == "round_robin" {
      AssignRoundRobin(script, cameraIds);
    } else if name == "speaker_based" {
      AssignSpeakerBased(script, cameraIds);
    } else {
      AssignSmart(cfg, script, cameraIds);
    }
  }

  /**
   * Under every strategy a cut that is not kept is left exactly as it was, and
   * a kept cut changes only in its camera id, which is one of the given ids.
   * Without camera ids nothing changes.
   */
  lemma AssignmentTouchesOnlyKeptCuts(cfg: AngleConfig, s: seq<CutDecision>, ids: seq<string>, strategy: Option<string>, j: int)
    requires 0 <= j < |s|
    ensures var r := AssignedCuts(cfg, s, ids, strategy);
      && (!IsKept(s[j]) || |ids| == 0 ==> r[j] == s[j])
      && (IsKept(s[j]) && |ids| > 0 ==> r[j] == s[j].(cameraId := r[j].cameraId) && r[j].cameraId.Some? && r[j].cameraId.value in ids)
  {
  }

  // ---------------------------------------------------------------------------
  // analyze_assignment
  // ---------------------------------------------------------------------------

  /** The camera ids of the kept cuts that carry a non-empty one, in order. */
  function CamerasOf(ks: seq<CutDecision>): seq<string> {
    if |ks| == 0 then []
    else
      var c := ks[|ks| - 1].cameraId;
      CamerasOf(ks[..|ks| - 1]) + (if c.Some? && c.value != "" then [c.value] else [])
  }

  /** Adjacent entries that differ. */
  function SwitchCount(cams: seq<string>): nat {
    if |cams| < 2 then 0
    else SwitchCount(cams[..|cams| - 1]) + (if cams[|cams| - 1] != cams[|cams| - 2] then 1 else 0)
  }

  /** A usage table: camera ids in first-use order with their counts (an insertion-ordered dict). */
  type Usage = seq<(string, nat)>

  /** `usage[c] = usage.get(c, 0) + 1`. */
  function Bump(u: Usage, c: string): (r: Usage)
    ensures |r| == |u| || |r| == |u| + 1
  {
    if |u| == 0 then [(c, 1)]
    else if u[0].0 == c then [(c, u[0].1 + 1)] + u[1..]
    else [u[0]] + Bump(u[1..], c)
  }

  function UsageOf(cams: seq<string>): Usage {
    if |cams| == 0 then [] else Bump(UsageOf(cams[..|cams| - 1]), cams[|cams| - 1])
  }

  function SumCounts(u: Usage): nat {
    if |u| == 0 then 0 else u[0].1 + SumCounts(u[1..])
  }

  function MaxCount(u: Usage): nat
    requires |u| > 0
  {
    if |u| == 1 then u[0].1 else var m := MaxCount(u[1..]); if u[0].1 >= m then u[0].1 else m
  }

  function MinCount(u: Usage): nat
    requires |u| > 0
  {
    if |u| == 1 then u[0].1 else var m := MinCount(u[1..]); if u[0].1 <= m then u[0].1 else m
  }

  /** 1 - (max - min) / total with two or more cameras, 1 with one, 0 with none. */
  function BalanceScore(u: Usage): real {
    if |u| == 0 then 0.0
    else
      var total := SumCounts(u);
      if total > 0 && |u| > 1 then 1.0 - ((MaxCount(u) - MinCount(u)) as real) / (total as real) else 1.0
  }

  function Occurrences(cams: seq<string>, c: string): nat {
    if |cams| == 0 then 0 else Occurrences(cams[..|cams| - 1], c) + (if cams[|cams| - 1] == c then 1 else 0)
  }

  /** The camera ids a usage table lists. */
  function Keys(u: Usage): set<string> {
    if |u| == 0 then {} else {u[0].0} + Keys(u[1..])
  }

  /** No camera id is listed twice. */
  predicate DistinctKeys(u: Usage) {
    |u| == 0 || (u[0].0 !in Keys(u[1..]) && DistinctKeys(u[1..]))
  }

  /** The count the table holds for `c`, 0 when absent. */
  function CountOf(u: Usage, c: string): nat {
    if |u| == 0 then 0 else if u[0].0 == c then u[0].1 else CountOf(u[1..], c)
  }

  lemma {:induction false} BumpSum(u: Usage, c: string)
    ensures SumCounts(Bump(u, c)) == SumCounts(u) + 1
  {
    if |u| > 0 && u[0].0 != c {
      BumpSum(u[1..], c);
    }
  }

  /** The usage counts add up to the number of kept cuts that have a camera. */
  lemma {:induction false} UsageSumsToCameras(cams: seq<string>)
    ensures SumCounts(UsageOf(cams)) == |cams|
  {
    if |cams| > 0 {
      UsageSumsToCameras(cams[..|cams| - 1]);
      BumpSum(UsageOf(cams[..|cams| - 1]), cams[|cams| - 1]);
    }
  }

  /** Bumping `c` adds `c` to the keys, keeps them distinct and raises the count of `c` alone, by one. */
  lemma {:induction false} BumpCounts(u: Usage, c: string)
    requires DistinctKeys(u)
    ensures Keys(Bump(u, c)) == Keys(u) + {c}
    ensures DistinctKeys(Bump(u, c))
    ensures forall x :: CountOf(Bump(u, c), x) == CountOf(u, x) + (if x == c then 1 else 0)
  {
    if |u| > 0 && u[0].0 != c {
      BumpCounts(u[1..], c);
      assert Bump(u, c)[1..] == Bump(u[1..], c);
    } else if |u| > 0 {
      CountOfAbsent(u[1..], c);
      assert Bump(u, c)[1..] == u[1..];
    } else {
      assert Bump(u, c)[1..] == [];
    }
  }

  lemma {:induction false} CountOfAbsent(u: Usage, c: string)
    requires c !in Keys(u)
    ensures CountOf(u, c) == 0
  {
    if |u| > 0 {
      CountOfAbsent(u[1..], c);
    }
  }

  lemma {:induction false} KeyAt(u: Usage, p: int)
    requires 0 <= p < |u|
    ensures u[p].0 in Keys(u)
  {
    if p > 0 {
      KeyAt(u[1..], p - 1);
    }
  }

  /** In a table with distinct keys, each entry holds the count of its own camera. */
  lemma {:induction false} CountOfAt(u: Usage, p: int)
    requires DistinctKeys(u) && 0 <= p < |u|
    ensures CountOf(u, u[p].0) == u[p].1
  {
    if p > 0 {
      KeyAt(u[1..], p - 1);
      CountOfAt(u[1..], p - 1);
    }
  }

  /**
   * The usage table lists every camera of the kept cuts once, in order of first
   * use, each with the number of kept cuts on it.
   */
  lemma {:induction false} UsageCountsOccurrences(cams: seq<string>)
    ensures DistinctKeys(UsageOf(cams))
    ensures Keys(UsageOf(cams)) == set x | x in cams
    ensures forall x :: CountOf(UsageOf(cams), x) == Occurrences(cams, x)
  {
    if |cams| > 0 {
      var init := cams[..|cams| - 1];
      var c := cams[|cams| - 1];
      UsageCountsOccurrences(init);
      BumpCounts(UsageOf(init), c);
      assert cams == init + [c];
      assert (set x | x in cams) == (set x | x in init) + {c};
    }
  }

  /** Each entry of the usage table holds the number of kept cuts on its camera. */
  lemma UsageEntriesCount(cams: seq<string>, p: int)
    requires 0 <= p < |UsageOf(cams)|
    ensures UsageOf(cams)[p].1 == Occurrences(cams, UsageOf(cams)[p].0)
  {
    UsageCountsOccurrences(cams);
    CountOfAt(UsageOf(cams), p);
  }

  lemma {:induction false} CountsBounded(u: Usage)
    requires |u| > 0
    ensures MinCount(u) <= MaxCount(u) <= SumCounts(u)
  {
    if |u| > 1 {
      CountsBounded(u[1..]);
    }
  }

  /** The balance score lies in [0, 1]. */
  lemma BalanceInUnitInterval(u: Usage)
    ensures 0.0 <= BalanceScore(u) <= 1.0
  {
    if |u| > 1 && SumCounts(u) > 0 {
      CountsBounded(u);
      var d := (MaxCount(u) - MinCount(u)) as real;
      var t := SumCounts(u) as real;
      RatioInUnitInterval(d, t);
    }
  }

  /** A part over a positive whole lies in [0, 1]. */
  lemma RatioInUnitInterval(d: real, t: real)
    requires 0.0 <= d <= t && t > 0.0
    ensures 0.0 <= d / t <= 1.0
  {
    var q := d / t;
    assert q * t == d;
    assert (q - 1.0) * t == d - t <= 0.0;
  }

  /** Switches between consecutive cameras are fewer than the cameras themselves. */
  lemma {:induction false} SwitchCountBounded(cams: seq<string>)
    ensures |cams| > 0 ==> SwitchCount(cams) < |cams|
  {
    if |cams| >= 2 {
      SwitchCountBounded(cams[..|cams| - 1]);
    }
  }

  /** One more kept cut adds its camera, when it has one, to the end of the list. */
  lemma CamerasOfStep(ks: seq<CutDecision>, i: int)
    requires 0 <= i < |ks|
    ensures var c := ks[i].cameraId;
      CamerasOf(ks[..i + 1]) == CamerasOf(ks[..i]) + (if c.Some? && c.value != "" then [c.value] else [])
  {
    assert ks[..i + 1][..i] == ks[..i];
  }

  /** Appending a camera bumps its usage and counts a switch when it differs from the last one. */
  lemma CameraAppend(cams: seq<string>, c: string)
    ensures UsageOf(cams + [c]) == Bump(UsageOf(cams), c)
    ensures SwitchCount(cams + [c]) == SwitchCount(cams) + (if |cams| > 0 && c != cams[|cams| - 1] then 1 else 0)
  {
    assert (cams + [c])[..|cams|] == cams;
  }

  datatype AssignmentAnalysis =
    | NoKeptCuts
    | AssignmentReport(
        totalKeptSegments: nat,
        cameraUsage: Usage,
        totalSwitches: nat,
        averageSegmentsPerSwitch: real,
        balanceScore: real,
        camerasUsed: nat)

  /** The analysis of a list of kept cuts: none when empty, otherwise usage, switches, density and balance. */
  function AnalysisOf(ks: seq<CutDecision>): (r: AssignmentAnalysis)
    ensures r.NoKeptCuts? <==> |ks| == 0
  {
    if |ks| == 0 then NoKeptCuts
    else
      var cams := CamerasOf(ks);
      var usage := UsageOf(cams);
      var switches := SwitchCount(cams);
      AssignmentReport(|ks|, usage, switches, (|ks| as real) / ((switches + 1) as real), BalanceScore(usage), |usage|)
  }

  lemma {:induction false} CamerasOfBounded(ks: seq<CutDecision>)
    ensures |CamerasOf(ks)| <= |ks|
  {
    if |ks| > 0 {
      CamerasOfBounded(ks[..|ks| - 1]);
    }
  }

  /**
   * A report counts every kept cut, and its usage table holds each camera once
   * with the number of kept cuts on it; those counts add up to at most the
   * kept cuts.
   */
  lemma AnalysisCounts(ks: seq<CutDecision>)
    requires |ks| > 0
    ensures var r := AnalysisOf(ks);
      && r.totalKeptSegments == |ks|
      && r.cameraUsage == UsageOf(CamerasOf(ks))
      && DistinctKeys(r.cameraUsage)
      && (forall x :: CountOf(r.cameraUsage, x) == Occurrences(CamerasOf(ks), x))
      && SumCounts(r.cameraUsage) <= |ks|
  {
    var cams := CamerasOf(ks);
    CamerasOfBounded(ks);
    UsageCountsOccurrences(cams);
    UsageSumsToCameras(cams);
  }

  /**
   * In a report, switches are fewer than the kept cuts, at least one kept cut
   * falls on each switch, and the balance lies in [0, 1].
   */
  lemma AnalysisRatios(ks: seq<CutDecision>)
    requires |ks| > 0
    ensures var r := AnalysisOf(ks);
      && r.totalSwitches < |ks|
      && r.averageSegmentsPerSwitch >= 1.0
      && 0.0 <= r.balanceScore <= 1.0
  {
    var cams := CamerasOf(ks);
    var r := AnalysisOf(ks);
    assert r.totalSwitches == SwitchCount(cams);
    assert r.averageSegmentsPerSwitch == (|ks| as real) / ((SwitchCount(cams) + 1) as real);
    CamerasOfBounded(ks);
    SwitchCountBounded(cams);
    RatioAtLeastOne(|ks| as real, (SwitchCount(cams) + 1) as real);
    BalanceInUnitInterval(UsageOf(cams));
  }

  /** A whole over a positive part no larger than it is at least 1. */
  lemma RatioAtLeastOne(k: real, d: real)
    requires 0.0 < d <= k
    ensures k / d >= 1.0
  {
    var q := k / d;
    assert q * d == k;
    assert (q - 1.0) * d == k - d >= 0.0;
  }

  /** Tallies the cameras of the kept cuts: usage per camera and switches between consecutive ones. */
  method TallyCameras(keptCuts: seq<CutDecision>) returns (usage: Usage, switches: nat)
    ensures usage == UsageOf(CamerasOf(keptCuts)) && switches == SwitchCount(CamerasOf(keptCuts))
  {
    usage, switches := [], 0;
    var lastCamera: Option<string> := None;
    ghost var cams: seq<string> := [];
    for i := 0 to |keptCuts|
      invariant cams == CamerasOf(keptCuts[..i])
      invariant usage == UsageOf(cams) && switches == SwitchCount(cams)
      invariant lastCamera == (if |cams| == 0 then None else Some(cams[|cams| - 1]))
    {
      CamerasOfStep(keptCuts, i);
      var cameraId := keptCuts[i].cameraId;
      if cameraId.Some? && cameraId.value != "" {
        CameraAppend(cams, cameraId.value);
        usage := Bump(usage, cameraId.value);
        if lastCamera.Some? && cameraId.value != lastCamera.value {
          switches := switches + 1;
        }
        lastCamera := cameraId;
        cams := cams + [cameraId.value];
      }
    }
    assert keptCuts[..|keptCuts|] == keptCuts;
  }

  /** Summarises the camera assignment of the script's kept cuts. */
  method AnalyzeAssignment(script: EditScript) returns (r: AssignmentAnalysis)
    ensures r == AnalysisOf(KeptCuts(script.cuts[..]))
  {
    var keptCuts := KeptCuts(script.cuts[..]);
    if |keptCuts| == 0 {
      return NoKeptCuts;
    }
    var usage, switches := TallyCameras(keptCuts);
    r := AssignmentReport(
      |keptCuts|, usage, switches, (|keptCuts| as real) / ((switches + 1) as real),
      BalanceScore(usage), |usage|);
  }
}
