/** The sync-edge frame detector of the VERA simulation driver's tick loop.

    Each tick the simulated chip is clocked through both phases and the driver
    samples its two sync pins. The chip itself is not modelled: a run is driven
    by a sequence of sampled pin levels. */
module VeraVsim {
  import opened VeraDefs

  /** Frames to trace before the driver stops. */
  const MAX_TRACE_FRAMES := 3

  /** A sync pin read through its configured polarity: true while the pulse is active. */
  function SyncActive(pin: bool, polarity: int): bool
  {
    if polarity != 0 then pin else !pin
  }

  /** One line of the per-frame log: the time of the frame's end, its number, its
      length in pixel clocks, the detected geometry and the sync statistics. */
  datatype FrameReport = FrameReport(
    time: int, frame: int, pixelClocks: int,
    width: int, height: int, hsyncWidth: int, vsyncLines: int)

  /** Everything the tick loop updates. `reports` and `mismatches` are what it
      logs: one report per completed frame, and the height of every frame taller
      than the configured scan. */
  datatype Detector = Detector(
    mainTime: int, firstFrameStart: int, frameStartTime: int,
    currentX: int, currentY: int,
    hsyncPrevious: bool, vsyncPrevious: bool,
    frameNum: int, xMax: int, yMax: int,
    hsyncCount: int, hsyncMin: int, hsyncMax: int, vsyncCount: int,
    hsyncDetect: bool, vsyncDetect: bool, vtopDetect: bool,
    reports: seq<FrameReport>, mismatches: seq<int>)

  /** The state before the first tick; frame number -1 means "not yet in sync". */
  const INITIAL := Detector(
    0, 0, 0,
    0, 0,
    false, false,
    -1, 0, 0,
    0, 0, 0, 0,
    false, false, false,
    [], [])

  /** The state after one tick, and whether the loop breaks out there. */
  datatype StepResult = StepResult(next: Detector, brk: bool)

  /** The tick ends a horizontal sync pulse (active to inactive). */
  predicate HsyncEnds(s: Detector, hsyncPin: bool)
  {
    !SyncActive(hsyncPin, H_SYNC_POLARITY) && s.hsyncPrevious
  }

  /** The tick ends a vertical sync pulse (active to inactive). */
  predicate VsyncEnds(s: Detector, vsyncPin: bool)
  {
    !SyncActive(vsyncPin, V_SYNC_POLARITY) && s.vsyncPrevious
  }

  function Max(a: int, b: int): int
  {
    if a > b then a else b
  }

  /** The two clock phases and the per-tick counters. */
  function Advance(s: Detector, hsync: bool): Detector
  {
    s.(mainTime := s.mainTime + 2, currentX := s.currentX + 1,
       hsyncCount := if hsync then s.hsyncCount + 1 else s.hsyncCount)
  }

  /** The end of a pulse records its width in the frame's widest and narrowest
      pulse (a narrowest of 0 meaning "none yet") and restarts the count. */
  function PulseEnd(s: Detector): Detector
  {
    s.(hsyncMax := if s.hsyncCount > s.hsyncMax then s.hsyncCount else s.hsyncMax,
       hsyncMin := if s.hsyncCount < s.hsyncMin || s.hsyncMin == 0 then s.hsyncCount else s.hsyncMin,
       hsyncCount := 0)
  }

  /** The end of a line records the widest line, restarts the column and counts
      the row, and the vertical-sync line when vertical sync is active. */
  function NewLine(s: Detector, vsync: bool): Detector
  {
    s.(xMax := if s.currentX > s.xMax then s.currentX else s.xMax,
       currentX := 0,
       currentY := s.currentY + 1,
       vsyncCount := if vsync then s.vsyncCount + 1 else s.vsyncCount)
  }

  /** End-of-line handling on the normalised sync levels. */
  function LineEnd(s: Detector, hsync: bool, vsync: bool): Detector
  {
    var s1 := if !hsync && s.hsyncPrevious
              then NewLine(PulseEnd(s), vsync).(hsyncDetect := true)
              else s.(hsyncDetect := false);
    s1.(hsyncPrevious := hsync)
  }

  /** The end of a frame records the tallest frame (the row count less the line
      just ended), logs the frame once the detector is past its first locked
      frame, and notes where frame 1 ended. */
  function FrameRecord(s: Detector): Detector
  {
    var yMax := if s.currentY - 1 > s.yMax then s.currentY - 1 else s.yMax;
    var report := FrameReport(s.mainTime, s.frameNum, (s.mainTime - s.frameStartTime) / 2,
                              s.xMax, yMax + 1, s.hsyncMax, s.vsyncCount);
    s.(yMax := yMax,
       firstFrameStart := if s.frameNum == 1 then s.mainTime else s.firstFrameStart,
       reports := if s.frameNum > 0 then s.reports + [report] else s.reports)
  }

  /** The per-frame counters restart, and so does the frame clock. */
  function FrameReset(s: Detector): Detector
  {
    s.(frameStartTime := s.mainTime, hsyncMin := 0, hsyncMax := 0, vsyncCount := 0, currentY := 0)
  }

  /** The frame number advances when the tallest frame matches the scan height;
      a taller one is logged as a mismatch. */
  function FrameLock(s: Detector): Detector
  {
    if TOTAL_HEIGHT == s.yMax + 1 then s.(frameNum := s.frameNum + 1)
    else if TOTAL_HEIGHT <= s.yMax then s.(mismatches := s.mismatches + [s.yMax])
    else s
  }

  /** End-of-frame handling on the normalised vertical sync level; at the frame
      cap the loop breaks out before the previous level is updated. */
  function FrameEnd(s: Detector, vsync: bool): StepResult
  {
    var s1 := s.(vsyncDetect := false, vtopDetect := s.vtopDetect || (vsync && !s.vsyncPrevious));
    if !vsync && s.vsyncPrevious then
      var s2 := FrameReset(FrameRecord(s1.(vsyncDetect := true)));
      if s.frameNum == MAX_TRACE_FRAMES then StepResult(s2, true)
      else StepResult(FrameLock(s2).(vsyncPrevious := vsync), false)
    else
      StepResult(s1.(vsyncPrevious := vsync), false)
  }

  /** One iteration of the tick loop on the sampled pin levels. */
  function Step(s: Detector, hsyncPin: bool, vsyncPin: bool): StepResult
  {
    var hsync := SyncActive(hsyncPin, H_SYNC_POLARITY);
    var vsync := SyncActive(vsyncPin, V_SYNC_POLARITY);
    FrameEnd(LineEnd(Advance(s, hsync), hsync, vsync), vsync)
  }

  /** The sync pins sampled in one iteration, and whether an interrupt arrived
      while it ran (the handler sets the stop flag the next loop test reads). */
  datatype TickInput = TickInput(hsyncPin: bool, vsyncPin: bool, interrupt: bool)

  /** Why the tick loop ended: the stop flag, the frame cap, or the simulated
      chip finishing (the input running out). */
  datatype Exit = Interrupted | FrameCap | InputEnd

  datatype RunResult = RunResult(state: Detector, done: bool, exit: Exit, ticks: nat)

  function Shift(r: RunResult, k: nat): RunResult
  {
    r.(ticks := r.ticks + k)
  }

  /** The whole tick loop: run until the stop flag is set, the frame cap is hit,
      or the input runs out. */
  function Loop(s: Detector, done: bool, inputs: seq<TickInput>): RunResult
    decreases |inputs|
  {
    if done then RunResult(s, done, Interrupted, 0)
    else if |inputs| == 0 then RunResult(s, done, InputEnd, 0)
    else
      var r := Step(s, inputs[0].hsyncPin, inputs[0].vsyncPin);
      if r.brk then RunResult(r.next, inputs[0].interrupt, FrameCap, 1)
      else Shift(Loop(r.next, inputs[0].interrupt, inputs[1..]), 1)
  }

  /** The loop on the samples from index t on, with the stop flag clear, takes one
      step to state `next` with stop flag `done`, and either breaks or goes on. */
  lemma LoopAt(s: Detector, inputs: seq<TickInput>, t: nat, next: Detector, done: bool, brk: bool)
    requires t < |inputs|
    requires StepResult(next, brk) == Step(s, inputs[t].hsyncPin, inputs[t].vsyncPin)
    requires done == inputs[t].interrupt
    ensures brk ==> Loop(s, false, inputs[t..]) == RunResult(next, done, FrameCap, 1)
    ensures !brk ==> Loop(s, false, inputs[t..]) == Shift(Loop(next, done, inputs[t + 1..]), 1)
  {
    assert inputs[t..][0] == inputs[t] && inputs[t..][1..] == inputs[t + 1..];
  }

  /** Ticks without the loop's exits: the state after every sample in turn. */
  function Ticks(s: Detector, inputs: seq<TickInput>): Detector
    decreases |inputs|
  {
    if |inputs| == 0 then s
    else Ticks(Step(s, inputs[0].hsyncPin, inputs[0].vsyncPin).next, inputs[1..])
  }

  /** No tick of the run ends a vertical sync pulse. */
  predicate NoFrameEnd(s: Detector, inputs: seq<TickInput>)
    decreases |inputs|
  {
    |inputs| == 0 ||
    (!VsyncEnds(s, inputs[0].vsyncPin) &&
     NoFrameEnd(Step(s, inputs[0].hsyncPin, inputs[0].vsyncPin).next, inputs[1..]))
  }

  /** What holds of the detector between ticks. */
  ghost predicate Inv(s: Detector)
  {
    && -1 <= s.frameNum <= MAX_TRACE_FRAMES
    && 0 <= s.frameStartTime <= s.mainTime
    && (s.mainTime - s.frameStartTime) % 2 == 0
    && 0 <= s.firstFrameStart <= s.mainTime
    && 0 <= s.currentX && 0 <= s.currentY
    && 0 <= s.xMax && 0 <= s.yMax
    && 0 <= s.hsyncCount && (s.hsyncPrevious ==> s.hsyncCount >= 1)
    && 0 <= s.hsyncMin <= s.hsyncMax
    && 0 <= s.vsyncCount <= s.currentY
  }

  // ---------------------------------------------------------------------------
  // One tick

  /** With polarity 0 the active level is the inverse of the pin, with polarity 1
      it is the pin; both pulses of this mode are active-low. */
  lemma SyncNormalisation(pin: bool)
    ensures SyncActive(pin, 0) == !pin && SyncActive(pin, 1) == pin
    ensures SyncActive(pin, H_SYNC_POLARITY) == !pin && SyncActive(pin, V_SYNC_POLARITY) == !pin
  {
  }

  /** What the line stage of a tick leaves for the frame stage. */
  lemma LineStage(s: Detector, hsyncPin: bool, vsyncPin: bool)
    ensures var hsync := SyncActive(hsyncPin, H_SYNC_POLARITY);
      var vsync := SyncActive(vsyncPin, V_SYNC_POLARITY);
      var l := LineEnd(Advance(s, hsync), hsync, vsync);
      && Step(s, hsyncPin, vsyncPin) == FrameEnd(l, vsync)
      && l.mainTime == s.mainTime + 2 && l.frameStartTime == s.frameStartTime
      && l.firstFrameStart == s.firstFrameStart && l.frameNum == s.frameNum
      && l.yMax == s.yMax && l.xMax == (if HsyncEnds(s, hsyncPin) then Max(s.xMax, s.currentX + 1) else s.xMax)
      && l.vsyncPrevious == s.vsyncPrevious
      && l.reports == s.reports && l.mismatches == s.mismatches
      && l.currentY == (if HsyncEnds(s, hsyncPin) then s.currentY + 1 else s.currentY)
  {
  }

  /** What the frame stage of a tick does with the state the line stage left. */
  lemma FrameStage(l: Detector, vsync: bool)
    ensures var r := FrameEnd(l, vsync);
      var n := r.next;
      var edge := !vsync && l.vsyncPrevious;
      var yMax := Max(l.yMax, l.currentY - 1);
      && n.mainTime == l.mainTime
      && r.brk == (edge && l.frameNum == MAX_TRACE_FRAMES)
      && n.vsyncDetect == edge
      && (edge ==>
            && n.yMax == yMax
            && n.frameStartTime == l.mainTime
            && n.currentY == 0 && n.hsyncMin == 0 && n.hsyncMax == 0 && n.vsyncCount == 0
            && n.firstFrameStart == (if l.frameNum == 1 then l.mainTime else l.firstFrameStart)
            && n.reports == (if l.frameNum > 0
                             then l.reports + [FrameReport(l.mainTime, l.frameNum, (l.mainTime - l.frameStartTime) / 2,
                                                           l.xMax, yMax + 1, l.hsyncMax, l.vsyncCount)]
                             else l.reports)
            && n.frameNum == (if l.frameNum != MAX_TRACE_FRAMES && TOTAL_HEIGHT == yMax + 1
                              then l.frameNum + 1 else l.frameNum)
            && n.mismatches == (if l.frameNum != MAX_TRACE_FRAMES && TOTAL_HEIGHT != yMax + 1 && TOTAL_HEIGHT <= yMax
                                then l.mismatches + [yMax] else l.mismatches))
      && (!edge ==>
            && n.yMax == l.yMax && n.frameStartTime == l.frameStartTime && n.currentY == l.currentY
            && n.hsyncMin == l.hsyncMin && n.hsyncMax == l.hsyncMax && n.vsyncCount == l.vsyncCount
            && n.firstFrameStart == l.firstFrameStart && n.reports == l.reports
            && n.frameNum == l.frameNum && n.mismatches == l.mismatches)
      && n.xMax == l.xMax && n.currentX == l.currentX && n.hsyncCount == l.hsyncCount
      && n.hsyncDetect == l.hsyncDetect && n.hsyncPrevious == l.hsyncPrevious
  {
  }

  /** Each tick adds 2 to the time, and 1 to the column unless it ends a line,
      which leaves the column at 0. */
  lemma StepClock(s: Detector, hsyncPin: bool, vsyncPin: bool)
    ensures var n := Step(s, hsyncPin, vsyncPin).next;
      && n.mainTime == s.mainTime + 2
      && n.currentX == if HsyncEnds(s, hsyncPin) then 0 else s.currentX + 1
  {
    var hsync := SyncActive(hsyncPin, H_SYNC_POLARITY);
    var vsync := SyncActive(vsyncPin, V_SYNC_POLARITY);
    var l := LineEnd(Advance(s, hsync), hsync, vsync);
    assert l.mainTime == s.mainTime + 2;
    assert l.currentX == if HsyncEnds(s, hsyncPin) then 0 else s.currentX + 1;
    FrameStage(l, vsync);
  }

  /** The pulse-width counter counts active ticks and is cleared only where a
      pulse ends; there the widest and narrowest pulse of the frame are updated
      (a minimum of 0 meaning "none yet"), unless the same tick also ends the frame. */
  lemma StepPulseWidth(s: Detector, hsyncPin: bool, vsyncPin: bool)
    ensures var n := Step(s, hsyncPin, vsyncPin).next;
      var hsync := SyncActive(hsyncPin, H_SYNC_POLARITY);
      && n.hsyncCount == (if HsyncEnds(s, hsyncPin) then 0 else if hsync then s.hsyncCount + 1 else s.hsyncCount)
      && (VsyncEnds(s, vsyncPin) ==> n.hsyncMin == 0 && n.hsyncMax == 0)
      && (!VsyncEnds(s, vsyncPin) && HsyncEnds(s, hsyncPin) ==>
            && n.hsyncMax == Max(s.hsyncMax, s.hsyncCount)
            && n.hsyncMin == (if s.hsyncCount < s.hsyncMin || s.hsyncMin == 0 then s.hsyncCount else s.hsyncMin))
      && (!VsyncEnds(s, vsyncPin) && !HsyncEnds(s, hsyncPin) ==>
            n.hsyncMax == s.hsyncMax && n.hsyncMin == s.hsyncMin)
  {
    var hsync := SyncActive(hsyncPin, H_SYNC_POLARITY);
    var vsync := SyncActive(vsyncPin, V_SYNC_POLARITY);
    var a := Advance(s, hsync);
    var l := LineEnd(a, hsync, vsync);
    assert l.hsyncCount == if HsyncEnds(s, hsyncPin) then 0 else a.hsyncCount;
    assert HsyncEnds(s, hsyncPin) ==>
      l.hsyncMax == Max(s.hsyncMax, s.hsyncCount)
      && l.hsyncMin == (if s.hsyncCount < s.hsyncMin || s.hsyncMin == 0 then s.hsyncCount else s.hsyncMin);
    assert !HsyncEnds(s, hsyncPin) ==> l.hsyncMax == s.hsyncMax && l.hsyncMin == s.hsyncMin;
    assert l.vsyncPrevious == s.vsyncPrevious;
    FrameStage(l, vsync);
  }

  /** The end of a line records the widest line, restarts the column, counts a
      row, and counts a vertical-sync line exactly when vertical sync is active. */
  lemma StepLineEnd(s: Detector, hsyncPin: bool, vsyncPin: bool)
    ensures var n := Step(s, hsyncPin, vsyncPin).next;
      var vsync := SyncActive(vsyncPin, V_SYNC_POLARITY);
      && n.xMax == (if HsyncEnds(s, hsyncPin) then Max(s.xMax, s.currentX + 1) else s.xMax)
      && (!VsyncEnds(s, vsyncPin) ==>
            && n.currentY == (if HsyncEnds(s, hsyncPin) then s.currentY + 1 else s.currentY)
            && n.vsyncCount == (if HsyncEnds(s, hsyncPin) && vsync then s.vsyncCount + 1 else s.vsyncCount))
  {
  }

  /** The detect flags are set on exactly the ticks that end a pulse. */
  lemma StepDetectFlags(s: Detector, hsyncPin: bool, vsyncPin: bool)
    ensures var n := Step(s, hsyncPin, vsyncPin).next;
      && n.hsyncDetect == HsyncEnds(s, hsyncPin)
      && n.vsyncDetect == VsyncEnds(s, vsyncPin)
  {
  }

  /** The end of a frame records the tallest frame (the row count without the
      line just ended), restarts the frame clock and clears the per-frame
      counters; any other tick leaves the frame clock and the tallest frame alone. */
  lemma StepFrameEnd(s: Detector, hsyncPin: bool, vsyncPin: bool)
    ensures var n := Step(s, hsyncPin, vsyncPin).next;
      var rows := if HsyncEnds(s, hsyncPin) then s.currentY + 1 else s.currentY;
      && (VsyncEnds(s, vsyncPin) ==>
            && n.yMax == Max(s.yMax, rows - 1)
            && n.frameStartTime == n.mainTime
            && n.currentY == 0 && n.hsyncMin == 0 && n.hsyncMax == 0 && n.vsyncCount == 0)
      && (!VsyncEnds(s, vsyncPin) ==>
            n.yMax == s.yMax && n.frameStartTime == s.frameStartTime)
  {
    LineStage(s, hsyncPin, vsyncPin);
    FrameStage(LineEnd(Advance(s, SyncActive(hsyncPin, H_SYNC_POLARITY)), SyncActive(hsyncPin, H_SYNC_POLARITY),
                       SyncActive(vsyncPin, V_SYNC_POLARITY)), SyncActive(vsyncPin, V_SYNC_POLARITY));
  }

  /** The frame number changes only where a frame ends, and there it goes up by
      one exactly when the tallest frame seen matches the scan height and the cap
      has not been reached; at the cap the loop breaks out instead. */
  lemma StepFrameNumber(s: Detector, hsyncPin: bool, vsyncPin: bool)
    ensures var r := Step(s, hsyncPin, vsyncPin);
      && r.brk == (VsyncEnds(s, vsyncPin) && s.frameNum == MAX_TRACE_FRAMES)
      && r.next.frameNum ==
           (if VsyncEnds(s, vsyncPin) && s.frameNum != MAX_TRACE_FRAMES && r.next.yMax + 1 == TOTAL_HEIGHT
            then s.frameNum + 1 else s.frameNum)
      && r.next.mismatches ==
           (if VsyncEnds(s, vsyncPin) && s.frameNum != MAX_TRACE_FRAMES
               && r.next.yMax + 1 != TOTAL_HEIGHT && TOTAL_HEIGHT <= r.next.yMax
            then s.mismatches + [r.next.yMax] else s.mismatches)
  {
    LineStage(s, hsyncPin, vsyncPin);
    FrameStage(LineEnd(Advance(s, SyncActive(hsyncPin, H_SYNC_POLARITY)), SyncActive(hsyncPin, H_SYNC_POLARITY),
                       SyncActive(vsyncPin, V_SYNC_POLARITY)), SyncActive(vsyncPin, V_SYNC_POLARITY));
  }

  /** A frame is logged where a frame ends with the frame number above 0, with the
      ticks elapsed since the frame clock was last restarted; the first frame's
      start is taken only where frame 1 ends. */
  lemma StepFrameLog(s: Detector, hsyncPin: bool, vsyncPin: bool)
    ensures var n := Step(s, hsyncPin, vsyncPin).next;
      && (VsyncEnds(s, vsyncPin) && s.frameNum > 0 ==>
            && |n.reports| == |s.reports| + 1 && n.reports[..|s.reports|] == s.reports
            && n.reports[|s.reports|].frame == s.frameNum
            && n.reports[|s.reports|].time == n.mainTime
            && n.reports[|s.reports|].pixelClocks == (s.mainTime + 2 - s.frameStartTime) / 2
            && n.reports[|s.reports|].height == n.yMax + 1)
      && (!(VsyncEnds(s, vsyncPin) && s.frameNum > 0) ==> n.reports == s.reports)
      && n.firstFrameStart == (if VsyncEnds(s, vsyncPin) && s.frameNum == 1 then n.mainTime else s.firstFrameStart)
  {
    LineStage(s, hsyncPin, vsyncPin);
    FrameStage(LineEnd(Advance(s, SyncActive(hsyncPin, H_SYNC_POLARITY)), SyncActive(hsyncPin, H_SYNC_POLARITY),
                       SyncActive(vsyncPin, V_SYNC_POLARITY)), SyncActive(vsyncPin, V_SYNC_POLARITY));
  }

  /** The geometry maxima never decrease. */
  lemma StepMonotone(s: Detector, hsyncPin: bool, vsyncPin: bool)
    ensures var n := Step(s, hsyncPin, vsyncPin).next;
      n.xMax >= s.xMax && n.yMax >= s.yMax
  {
    LineStage(s, hsyncPin, vsyncPin);
    FrameStage(LineEnd(Advance(s, SyncActive(hsyncPin, H_SYNC_POLARITY)), SyncActive(hsyncPin, H_SYNC_POLARITY),
                       SyncActive(vsyncPin, V_SYNC_POLARITY)), SyncActive(vsyncPin, V_SYNC_POLARITY));
  }

  lemma InitialInv()
    ensures Inv(INITIAL)
  {
  }

  lemma AdvanceInv(s: Detector, hsync: bool)
    requires Inv(s)
    ensures Inv(Advance(s, hsync)) && (hsync ==> Advance(s, hsync).hsyncCount >= 1)
  {
  }

  lemma LineEndInv(s: Detector, hsync: bool, vsync: bool)
    requires Inv(s) && (hsync ==> s.hsyncCount >= 1)
    ensures Inv(LineEnd(s, hsync, vsync))
  {
  }

  lemma FrameEndInv(s: Detector, vsync: bool)
    requires Inv(s)
    ensures Inv(FrameEnd(s, vsync).next)
  {
    FrameStage(s, vsync);
  }

  lemma StepInv(s: Detector, hsyncPin: bool, vsyncPin: bool)
    requires Inv(s)
    ensures Inv(Step(s, hsyncPin, vsyncPin).next)
  {
    var hsync := SyncActive(hsyncPin, H_SYNC_POLARITY);
    var vsync := SyncActive(vsyncPin, V_SYNC_POLARITY);
    AdvanceInv(s, hsync);
    LineEndInv(Advance(s, hsync), hsync, vsync);
    FrameEndInv(LineEnd(Advance(s, hsync), hsync, vsync), vsync);
  }

  // ---------------------------------------------------------------------------
  // Whole runs

  /** The invariant holds whenever the loop exits, so the frame number never
      exceeds the cap, and the loop takes at most one tick per sample. */
  lemma {:induction false} LoopInv(s: Detector, done: bool, inputs: seq<TickInput>)
    requires Inv(s)
    ensures var r := Loop(s, done, inputs);
      && Inv(r.state) && -1 <= r.state.frameNum <= MAX_TRACE_FRAMES
      && r.ticks <= |inputs|
    decreases |inputs|
  {
    if !done && |inputs| > 0 {
      var r := Step(s, inputs[0].hsyncPin, inputs[0].vsyncPin);
      StepInv(s, inputs[0].hsyncPin, inputs[0].vsyncPin);
      if !r.brk {
        LoopInv(r.next, inputs[0].interrupt, inputs[1..]);
      }
    }
  }

  /** The loop stops at the frame cap only with the frame number on it. */
  lemma {:induction false} LoopFrameCap(s: Detector, done: bool, inputs: seq<TickInput>)
    ensures var r := Loop(s, done, inputs);
      r.exit == FrameCap ==> r.state.frameNum == MAX_TRACE_FRAMES
    decreases |inputs|
  {
    if !done && |inputs| > 0 {
      var r := Step(s, inputs[0].hsyncPin, inputs[0].vsyncPin);
      StepFrameNumber(s, inputs[0].hsyncPin, inputs[0].vsyncPin);
      if !r.brk {
        LoopFrameCap(r.next, inputs[0].interrupt, inputs[1..]);
      }
    }
  }

  /** The geometry maxima never decrease over a run. */
  lemma {:induction false} LoopMonotone(s: Detector, done: bool, inputs: seq<TickInput>)
    ensures var r := Loop(s, done, inputs);
      r.state.xMax >= s.xMax && r.state.yMax >= s.yMax
    decreases |inputs|
  {
    if !done && |inputs| > 0 {
      var r := Step(s, inputs[0].hsyncPin, inputs[0].vsyncPin);
      StepMonotone(s, inputs[0].hsyncPin, inputs[0].vsyncPin);
      if !r.brk {
        LoopMonotone(r.next, inputs[0].interrupt, inputs[1..]);
      }
    }
  }

  /** Once a frame taller than the scan has been seen the detector never locks
      again: the tallest row is never reset, so the frame number stays put. */
  lemma {:induction false} MismatchIsPermanent(s: Detector, done: bool, inputs: seq<TickInput>)
    requires Inv(s) && s.yMax >= TOTAL_HEIGHT
    ensures Loop(s, done, inputs).state.frameNum == s.frameNum
    decreases |inputs|
  {
    if !done && |inputs| > 0 {
      var r := Step(s, inputs[0].hsyncPin, inputs[0].vsyncPin);
      StepInv(s, inputs[0].hsyncPin, inputs[0].vsyncPin);
      StepMonotone(s, inputs[0].hsyncPin, inputs[0].vsyncPin);
      StepFrameNumber(s, inputs[0].hsyncPin, inputs[0].vsyncPin);
      if !r.brk {
        MismatchIsPermanent(r.next, inputs[0].interrupt, inputs[1..]);
      }
    }
  }

  /** Ticks that end no frame advance the time by 2 each and change neither the
      frame clock, the frame number nor the log. */
  lemma {:induction false} QuietTicks(s: Detector, inputs: seq<TickInput>)
    requires NoFrameEnd(s, inputs)
    ensures var t := Ticks(s, inputs);
      && t.mainTime == s.mainTime + 2 * |inputs|
      && t.frameStartTime == s.frameStartTime
      && t.frameNum == s.frameNum
      && t.reports == s.reports
    decreases |inputs|
  {
    if |inputs| > 0 {
      var n := Step(s, inputs[0].hsyncPin, inputs[0].vsyncPin).next;
      StepClock(s, inputs[0].hsyncPin, inputs[0].vsyncPin);
      StepFrameEnd(s, inputs[0].hsyncPin, inputs[0].vsyncPin);
      StepFrameNumber(s, inputs[0].hsyncPin, inputs[0].vsyncPin);
      StepFrameLog(s, inputs[0].hsyncPin, inputs[0].vsyncPin);
      QuietTicks(n, inputs[1..]);
    }
  }

  /** The length logged for a frame is the number of ticks since the previous end
      of frame: the quiet ticks of the frame plus the tick that ends it. */
  lemma FrameLength(s: Detector, quiet: seq<TickInput>, last: TickInput)
    requires s.frameStartTime == s.mainTime
    requires NoFrameEnd(s, quiet)
    requires VsyncEnds(Ticks(s, quiet), last.vsyncPin) && Ticks(s, quiet).frameNum > 0
    ensures var t := Ticks(s, quiet);
      var n := Step(t, last.hsyncPin, last.vsyncPin).next;
      && |n.reports| == |s.reports| + 1 && n.reports[..|s.reports|] == s.reports
      && n.reports[|s.reports|].pixelClocks == |quiet| + 1
  {
    var t := Ticks(s, quiet);
    QuietTicks(s, quiet);
    StepFrameLog(t, last.hsyncPin, last.vsyncPin);
  }

  // ---------------------------------------------------------------------------
  // The driver

  /** The simulation driver's loop state, one field per variable the source keeps. */
  class Driver {
    /** The stop flag the interrupt handler sets. */
    var done: bool
    var mainTime: int
    var firstFrameStart: int
    var frameStartTime: int
    var currentX: int
    var currentY: int
    var hsyncPrevious: bool
    var vsyncPrevious: bool
    var frameNum: int
    var xMax: int
    var yMax: int
    var hsyncCount: int
    var hsyncMin: int
    var hsyncMax: int
    var vsyncCount: int
    var hsyncDetect: bool
    var vsyncDetect: bool
    var vtopDetect: bool
    var reports: seq<FrameReport>
    var mismatches: seq<int>

    ghost function State(): Detector
      reads this
    {
      Detector(mainTime, firstFrameStart, frameStartTime, currentX, currentY,
               hsyncPrevious, vsyncPrevious, frameNum, xMax, yMax,
               hsyncCount, hsyncMin, hsyncMax, vsyncCount,
               hsyncDetect, vsyncDetect, vtopDetect, reports, mismatches)
    }

    constructor ()
      ensures State() == INITIAL && !done
    {
      done := false;
      mainTime, firstFrameStart, frameStartTime := 0, 0, 0;
      currentX, currentY := 0, 0;
      hsyncPrevious, vsyncPrevious := false, false;
      frameNum := -1;
      xMax, yMax := 0, 0;
      hsyncCount, hsyncMin, hsyncMax := 0, 0, 0;
      vsyncCount := 0;
      hsyncDetect, vsyncDetect, vtopDetect := false, false, false;
      reports, mismatches := [], [];
    }

    /** The interrupt handler. */
    method CtrlC()
      modifies this`done
      ensures done
    {
      done := true;
    }

    /** One iteration of the tick loop; `brk` is the loop's break at the frame cap. */
    method Tick(hsyncPin: bool, vsyncPin: bool) returns (brk: bool)
      modifies this
      ensures StepResult(State(), brk) == Step(old(State()), hsyncPin, vsyncPin)
      ensures done == old(done)
    {
      var hsync := SyncActive(hsyncPin, H_SYNC_POLARITY);
      var vsync := SyncActive(vsyncPin, V_SYNC_POLARITY);
      ClockAndCount(hsync);
      EndOfLine(hsync, vsync);
      brk := EndOfFrame(vsync);
    }

    /** Both clock phases, then the column and pulse-width counters. */
    method ClockAndCount(hsync: bool)
      modifies this
      ensures State() == Advance(old(State()), hsync) && done == old(done)
    {
      mainTime := mainTime + 1;  // clock rising
      mainTime := mainTime + 1;  // clock falling
      currentX := currentX + 1;
      hsyncCount := if hsync then hsyncCount + 1 else hsyncCount;
    }

    /** The end of a horizontal sync pulse ends a line. */
    method EndOfLine(hsync: bool, vsync: bool)
      modifies this
      ensures State() == LineEnd(old(State()), hsync, vsync) && done == old(done)
    {
      hsyncDetect := false;
      if !hsync && hsyncPrevious {
        hsyncDetect := true;
        EndOfPulse();
        NextLine(vsync);
      }
      hsyncPrevious := hsync;
    }

    method EndOfPulse()
      modifies this
      ensures State() == PulseEnd(old(State())) && done == old(done)
    {
      hsyncMax := if hsyncCount > hsyncMax then hsyncCount else hsyncMax;
      hsyncMin := if hsyncCount < hsyncMin || hsyncMin == 0 then hsyncCount else hsyncMin;
      hsyncCount := 0;
    }

    method NextLine(vsync: bool)
      modifies this
      ensures State() == NewLine(old(State()), vsync) && done == old(done)
    {
      xMax := if currentX > xMax then currentX else xMax;
      currentX := 0;
      currentY := currentY + 1;
      vsyncCount := if vsync then vsyncCount + 1 else vsyncCount;
    }

    /** The end of a vertical sync pulse ends a frame. */
    method EndOfFrame(vsync: bool) returns (brk: bool)
      modifies this
      ensures StepResult(State(), brk) == FrameEnd(old(State()), vsync) && done == old(done)
    {
      vsyncDetect := false;
      vtopDetect := vtopDetect || (vsync && !vsyncPrevious);
      brk := false;
      if !vsync && vsyncPrevious {
        vsyncDetect := true;
        RecordFrame();
        ResetFrame();
        if frameNum == MAX_TRACE_FRAMES {
          brk := true;
          return;
        }
        LockFrame();
      }
      vsyncPrevious := vsync;
    }

    method RecordFrame()
      modifies this
      ensures State() == FrameRecord(old(State())) && done == old(done)
    {
      yMax := if currentY - 1 > yMax then currentY - 1 else yMax;
      if frameNum > 0 {
        firstFrameStart := if frameNum == 1 then mainTime else firstFrameStart;
        reports := reports + [FrameReport(mainTime, frameNum, (mainTime - frameStartTime) / 2,
                                          xMax, yMax + 1, hsyncMax, vsyncCount)];
      }
    }

    method ResetFrame()
      modifies this
      ensures State() == FrameReset(old(State())) && done == old(done)
    {
      frameStartTime := mainTime;
      hsyncMin := 0;
      hsyncMax := 0;
      vsyncCount := 0;
      currentY := 0;
    }

    method LockFrame()
      modifies this
      ensures State() == FrameLock(old(State())) && done == old(done)
    {
      if TOTAL_HEIGHT == yMax + 1 {
        frameNum := frameNum + 1;
      } else if TOTAL_HEIGHT <= yMax {
        mismatches := mismatches + [yMax];
      }
    }

    /** The tick loop over the sampled pins: it runs while the stop flag is clear
        and samples remain, and breaks out at the frame cap. */
    method Run(inputs: seq<TickInput>) returns (exit: Exit, ticks: nat)
      modifies this
      ensures Loop(old(State()), old(done), inputs) == RunResult(State(), done, exit, ticks)
    {
      ghost var start := Loop(State(), done, inputs);
      ticks := 0;
      while !done && ticks < |inputs|
        invariant 0 <= ticks <= |inputs|
        invariant start == Shift(Loop(State(), done, inputs[ticks..]), ticks)
        decreases |inputs| - ticks
      {
        ghost var s, t := State(), ticks;
        var brk := Tick(inputs[ticks].hsyncPin, inputs[ticks].vsyncPin);
        if inputs[ticks].interrupt {
          CtrlC();
        }
        ticks := ticks + 1;
        LoopAt(s, inputs, t, State(), done, brk);
        if brk {
          exit := FrameCap;
          return;
        }
      }
      exit := if done then Interrupted else InputEnd;
    }
  }
}
