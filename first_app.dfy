/**
 * FirstApp::run: the per-frame loop. Each iteration reads three keys (M:
 * camera mode, O: SSAO, C: debug mode) and toggles on a rising edge only,
 * advances the looping camera-animation clock, and, when the renderer yields
 * a frame, records the passes G-buffer, SSAO, blur, then lighting. The loop
 * is modelled over a supplied sequence of per-iteration inputs; what it
 * records is a log of the calls it makes.
 */
module FirstApp {

  /** What one iteration observes: key states, the clock delta, and whether beginFrame gave a buffer. */
  datatype FrameInput = FrameInput(mPressed: bool, oPressed: bool, cPressed: bool, frameTime: real, frameBegun: bool)

  /** The loop's local state. */
  datatype AppState = AppState(
    isAutoCamera: bool, mKeyWasPressed: bool,
    ssaoEnabled: bool, oKeyWasPressed: bool,
    debugMode: int, cKeyWasPressed: bool,
    animationTime: real)

  /** The calls one iteration makes, in order. */
  datatype Event =
    | AnimateCamera(time: real)
    | MoveCameraManually(frameTime: real)
    | BeginGBufferPass | RenderGBuffer | EndGBufferPass
    | BeginSSAOPass | RenderSSAO | EndSSAOPass
    | BeginBlurPass | RenderBlur | EndBlurPass
    | BeginSwapChainRenderPass
    | RenderGameObjects(debugMode: int)
    | BindComputeGraphicsPipeline
    | PushParticleTransform
    | RenderComputePipeline(deltaTime: real)
    | DelegateComputeBindAndDraw
    | EndSwapChainRenderPass
    | EndFrame(compute: bool)

  /** The loop's state before the first iteration, from the scene settings. */
  function InitialState(autoCamera: bool, ssaoEnabled: bool, debugMode: int): (s: AppState)
    ensures !s.mKeyWasPressed && !s.oKeyWasPressed && !s.cKeyWasPressed && s.animationTime == 0.0
    ensures s.isAutoCamera == autoCamera && s.ssaoEnabled == ssaoEnabled && s.debugMode == debugMode
  {
    AppState(autoCamera, false, ssaoEnabled, false, debugMode, false, 0.0)
  }

  /** C++ `%` on int: truncates toward zero, so the remainder takes the dividend's sign. */
  function CRem(a: int, b: int): (r: int)
    requires b > 0
    ensures a >= 0 ==> 0 <= r < b
    ensures a < 0 ==> -b < r <= 0
  {
    if a >= 0 then a % b else -((-a) % b)
  }

  /** debugMode = (debugMode + 1) % 4, with C++ remainder. */
  function CycleDebugMode(m: int): int
  {
    CRem(m + 1, 4)
  }

  /** From a valid mode the cycle stays in [0, 4) and visits 0, 1, 2, 3 in turn. */
  lemma CycleDebugModeInRange(m: int)
    requires 0 <= m < 4
    ensures 0 <= CycleDebugMode(m) < 4
    ensures CycleDebugMode(m) == if m == 3 then 0 else m + 1
    ensures CycleDebugMode(CycleDebugMode(CycleDebugMode(CycleDebugMode(m)))) == m
  {
  }

  /**
   * A negative mode from the scene file: one press gives the C++ remainder,
   * which lies in (-4, 0], -2 going to -1; four presses always reach a valid
   * mode in [0, 4).
   */
  lemma CycleDebugModeFromNegative(m: int)
    requires m < 0
    ensures CycleDebugMode(m) == -((-m - 1) % 4)
    ensures -4 < CycleDebugMode(m) <= 0
    ensures CycleDebugMode(-2) == -1
    ensures CycleDebugMode(m) < 0 <==> (m + 1) % 4 != 0
    ensures 0 <= CycleDebugMode(CycleDebugMode(CycleDebugMode(CycleDebugMode(m)))) < 4
  {
    var c1 := CycleDebugMode(m);
    if c1 < 0 {
      var c2 := CycleDebugMode(c1);
      assert c2 == c1 + 1;
      if c2 < 0 {
        assert CycleDebugMode(c2) == c2 + 1;
      }
    }
  }

  /**
   * The cycle evidently intended: the next mode by a remainder that is never
   * negative, so modeNames is always indexed in range.
   */
  function CycleDebugModeCorrected(m: int): int
  {
    (m + 1) % 4
  }

  /**
   * The corrected cycle always lands in [0, 4), steps through 0, 1, 2, 3 in
   * turn, agrees with the source from every mode >= -1, and sends -2 to 3
   * where the source gives -1.
   */
  lemma CycleDebugModeCorrectedInRange(m: int)
    ensures 0 <= CycleDebugModeCorrected(m) < 4
    ensures 0 <= m < 4 ==> CycleDebugModeCorrected(m) == if m == 3 then 0 else m + 1
    ensures m >= -1 ==> CycleDebugModeCorrected(m) == CycleDebugMode(m)
    ensures CycleDebugModeCorrected(-2) == 3 != CycleDebugMode(-2)
  {
  }

  /** A flag that flips on a rising edge of its key (pressed now, not pressed in the previous iteration). */
  function ToggleOnEdge(flag: bool, pressed: bool, wasPressed: bool): bool
  {
    if pressed && !wasPressed then !flag else flag
  }

  /** The auto camera's clock: advance by the frame time, back to 0 once past the end. */
  function AdvanceClock(t: real, frameTime: real, endTime: real): real
  {
    if t + frameTime > endTime then 0.0 else t + frameTime
  }

  /** One iteration's state update (first_app.cpp:112-158). */
  function Step(s: AppState, f: FrameInput, endTime: real): AppState
  {
    var mEdge := f.mPressed && !s.mKeyWasPressed;
    var auto := ToggleOnEdge(s.isAutoCamera, f.mPressed, s.mKeyWasPressed);
    var t0 := if mEdge && auto then 0.0 else s.animationTime;
    var ssao := ToggleOnEdge(s.ssaoEnabled, f.oPressed, s.oKeyWasPressed);
    var mode := if f.cPressed && !s.cKeyWasPressed then CycleDebugMode(s.debugMode) else s.debugMode;
    var t1 := if auto then AdvanceClock(t0, f.frameTime, endTime) else t0;
    AppState(auto, f.mPressed, ssao, f.oPressed, mode, f.cPressed, t1)
  }

  /** The passes recorded before lighting: all three with SSAO on, an empty blur pass (a clear) with it off. */
  function OffscreenEvents(ssaoEnabled: bool): seq<Event>
  {
    if ssaoEnabled then
      [BeginGBufferPass, RenderGBuffer, EndGBufferPass,
       BeginSSAOPass, RenderSSAO, EndSSAOPass,
       BeginBlurPass, RenderBlur, EndBlurPass]
    else
      [BeginBlurPass, EndBlurPass]
  }

  /** The lighting pass and the end of the frame. */
  function LightingEvents(debugMode: int, frameTime: real): seq<Event>
  {
    [BeginSwapChainRenderPass, RenderGameObjects(debugMode), BindComputeGraphicsPipeline,
     PushParticleTransform, RenderComputePipeline(frameTime), DelegateComputeBindAndDraw,
     EndSwapChainRenderPass, EndFrame(true)]
  }

  /** The calls of one iteration, given the state after its key handling and clock update. */
  function FrameEvents(s: AppState, f: FrameInput): seq<Event>
  {
    (if s.isAutoCamera then [AnimateCamera(s.animationTime)] else [MoveCameraManually(f.frameTime)])
    + (if f.frameBegun then OffscreenEvents(s.ssaoEnabled) + LightingEvents(s.debugMode, f.frameTime) else [])
  }

  /** The state after a sequence of iterations. */
  function RunState(s: AppState, ins: seq<FrameInput>, endTime: real): AppState
  {
    if ins == [] then s else Step(RunState(s, ins[..|ins| - 1], endTime), ins[|ins| - 1], endTime)
  }

  /** Everything a sequence of iterations records. */
  function RunLog(s: AppState, ins: seq<FrameInput>, endTime: real): seq<Event>
  {
    if ins == [] then []
    else
      var before := RunState(s, ins[..|ins| - 1], endTime);
      RunLog(s, ins[..|ins| - 1], endTime) + FrameEvents(Step(before, ins[|ins| - 1], endTime), ins[|ins| - 1])
  }

  /** The pre-lighting part of an iteration that has a frame (first_app.cpp:165-190). */
  method RecordOffscreenPasses(ssaoEnabled: bool) returns (passes: seq<Event>)
    ensures passes == OffscreenEvents(ssaoEnabled)
  {
    if ssaoEnabled {
      passes := [BeginGBufferPass, RenderGBuffer, EndGBufferPass];
      passes := passes + [BeginSSAOPass, RenderSSAO, EndSSAOPass];
      passes := passes + [BeginBlurPass, RenderBlur, EndBlurPass];
    } else {
      passes := [BeginBlurPass, EndBlurPass];
    }
  }

  /** The lighting pass and the end of the frame (first_app.cpp:194-230). */
  method RecordLightingPass(debugMode: int, frameTime: real) returns (lighting: seq<Event>)
    ensures lighting == LightingEvents(debugMode, frameTime)
  {
    lighting := [BeginSwapChainRenderPass, RenderGameObjects(debugMode), BindComputeGraphicsPipeline];
    lighting := lighting + [PushParticleTransform, RenderComputePipeline(frameTime), DelegateComputeBindAndDraw];
    lighting := lighting + [EndSwapChainRenderPass, EndFrame(true)];
  }

  lemma RunUnfold(init: AppState, ins: seq<FrameInput>, i: nat, endTime: real)
    requires i < |ins|
    ensures RunState(init, ins[..i + 1], endTime) == Step(RunState(init, ins[..i], endTime), ins[i], endTime)
    ensures RunLog(init, ins[..i + 1], endTime)
         == RunLog(init, ins[..i], endTime) + FrameEvents(Step(RunState(init, ins[..i], endTime), ins[i], endTime), ins[i])
  {
    assert ins[..i + 1][..i] == ins[..i];
  }

  /** The key handling and clock update of one loop pass (first_app.cpp:112-158). */
  method UpdateState(s: AppState, f: FrameInput, endTime: real) returns (next: AppState)
    ensures next == Step(s, f, endTime)
  {
    var isAutoCamera, mKeyWasPressed := s.isAutoCamera, s.mKeyWasPressed;
    var ssaoEnabled, oKeyWasPressed := s.ssaoEnabled, s.oKeyWasPressed;
    var debugMode, cKeyWasPressed := s.debugMode, s.cKeyWasPressed;
    var animationTime := s.animationTime;
    if f.mPressed && !mKeyWasPressed {
      isAutoCamera := !isAutoCamera;
      if isAutoCamera {
        animationTime := 0.0;
      }
    }
    mKeyWasPressed := f.mPressed;
    if f.oPressed && !oKeyWasPressed {
      ssaoEnabled := !ssaoEnabled;
    }
    oKeyWasPressed := f.oPressed;
    if f.cPressed && !cKeyWasPressed {
      debugMode := CRem(debugMode + 1, 4);
    }
    cKeyWasPressed := f.cPressed;
    if isAutoCamera {
      animationTime := animationTime + f.frameTime;
      if animationTime > endTime {
        animationTime := 0.0;
      }
    }
    next := AppState(isAutoCamera, mKeyWasPressed, ssaoEnabled, oKeyWasPressed, debugMode, cKeyWasPressed, animationTime);
  }

  /** The calls of one loop pass after the key handling (first_app.cpp:147-231). */
  method RecordFrame(s: AppState, f: FrameInput) returns (frame: seq<Event>)
    ensures frame == FrameEvents(s, f)
  {
    if s.isAutoCamera {
      frame := [AnimateCamera(s.animationTime)];
    } else {
      frame := [MoveCameraManually(f.frameTime)];
    }
    if f.frameBegun {
      var passes := RecordOffscreenPasses(s.ssaoEnabled);
      var lighting := RecordLightingPass(s.debugMode, f.frameTime);
      frame := frame + passes + lighting;
    }
  }

  /** The loop of FirstApp::run over the given iterations; endTime is the animation's getEndTime. */
  method Run(init: AppState, ins: seq<FrameInput>, endTime: real) returns (s: AppState, log: seq<Event>)
    ensures s == RunState(init, ins, endTime)
    ensures log == RunLog(init, ins, endTime)
  {
    s := init;
    log := [];
    var i := 0;
    while i < |ins|
      invariant 0 <= i <= |ins|
      invariant s == RunState(init, ins[..i], endTime)
      invariant log == RunLog(init, ins[..i], endTime)
    {
      RunUnfold(init, ins, i, endTime);
      s := UpdateState(s, ins[i], endTime);
      var frame := RecordFrame(s, ins[i]);
      log := log + frame;
      i := i + 1;
    }
    assert ins[..i] == ins;
  }

  /** A flag flips exactly on a rising edge of its key, and the "was pressed" flag always follows the key. */
  lemma ToggleOnRisingEdgeOnly(s: AppState, f: FrameInput, endTime: real)
    ensures Step(s, f, endTime).isAutoCamera != s.isAutoCamera <==> f.mPressed && !s.mKeyWasPressed
    ensures Step(s, f, endTime).ssaoEnabled != s.ssaoEnabled <==> f.oPressed && !s.oKeyWasPressed
    ensures Step(s, f, endTime).debugMode == (if f.cPressed && !s.cKeyWasPressed then CycleDebugMode(s.debugMode) else s.debugMode)
    ensures Step(s, f, endTime).mKeyWasPressed == f.mPressed
    ensures Step(s, f, endTime).oKeyWasPressed == f.oPressed
    ensures Step(s, f, endTime).cKeyWasPressed == f.cPressed
  {
  }

  /** The "was pressed" flags after a non-empty run are the last iteration's key states. */
  lemma RunStateFollowsLastKeys(s: AppState, ins: seq<FrameInput>, endTime: real)
    requires |ins| > 0
    ensures RunState(s, ins, endTime).mKeyWasPressed == ins[|ins| - 1].mPressed
    ensures RunState(s, ins, endTime).oKeyWasPressed == ins[|ins| - 1].oPressed
    ensures RunState(s, ins, endTime).cKeyWasPressed == ins[|ins| - 1].cPressed
  {
  }

  /** Holding M and O over any number of iterations: the modes change at most once, in the first. */
  lemma {:induction false} HoldingKeyTogglesOnce(s: AppState, ins: seq<FrameInput>, endTime: real)
    requires |ins| > 0
    requires forall k :: 0 <= k < |ins| ==> ins[k].mPressed && ins[k].oPressed
    ensures RunState(s, ins, endTime).isAutoCamera == Step(s, ins[0], endTime).isAutoCamera
    ensures RunState(s, ins, endTime).ssaoEnabled == Step(s, ins[0], endTime).ssaoEnabled
  {
    if |ins| > 1 {
      var prefix := ins[..|ins| - 1];
      assert prefix[0] == ins[0];
      HoldingKeyTogglesOnce(s, prefix, endTime);
      RunStateFollowsLastKeys(s, prefix, endTime);
    } else {
      assert ins[..0] == [];
    }
  }

  /** Switching to the auto camera restarts the animation at this iteration's frame time, or 0 past the end. */
  lemma SwitchToAutoRestartsAnimation(s: AppState, f: FrameInput, endTime: real)
    requires f.mPressed && !s.mKeyWasPressed && !s.isAutoCamera
    ensures Step(s, f, endTime).isAutoCamera
    ensures Step(s, f, endTime).animationTime == if f.frameTime > endTime then 0.0 else f.frameTime
  {
  }

  /** In manual mode the animation clock stands still. */
  lemma ManualModeKeepsClock(s: AppState, f: FrameInput, endTime: real)
    requires !Step(s, f, endTime).isAutoCamera
    ensures Step(s, f, endTime).animationTime == s.animationTime
  {
  }

  /** With non-negative frame times the animation clock stays within [0, endTime]. */
  lemma {:induction false} AnimationTimeBounded(s: AppState, ins: seq<FrameInput>, endTime: real)
    requires 0.0 <= endTime && 0.0 <= s.animationTime <= endTime
    requires forall k :: 0 <= k < |ins| ==> ins[k].frameTime >= 0.0
    ensures 0.0 <= RunState(s, ins, endTime).animationTime <= endTime
  {
    if ins != [] {
      AnimationTimeBounded(s, ins[..|ins| - 1], endTime);
    }
  }

  /** A debug mode that starts in [0, 4) stays there for the whole run. */
  lemma {:induction false} DebugModeStaysInRange(s: AppState, ins: seq<FrameInput>, endTime: real)
    requires 0 <= s.debugMode < 4
    ensures 0 <= RunState(s, ins, endTime).debugMode < 4
  {
    if ins != [] {
      DebugModeStaysInRange(s, ins[..|ins| - 1], endTime);
      CycleDebugModeInRange(RunState(s, ins[..|ins| - 1], endTime).debugMode);
    }
  }

  /** Without a frame only the camera is updated; with one the frame ends with the lighting pass and endFrame(true). */
  lemma FrameEventsShape(s: AppState, f: FrameInput)
    ensures !f.frameBegun ==> |FrameEvents(s, f)| == 1
    ensures f.frameBegun ==>
      var log := FrameEvents(s, f);
      |log| >= 9 && log[|log| - 2] == EndSwapChainRenderPass && log[|log| - 1] == EndFrame(true)
      && log[|log| - 8] == BeginSwapChainRenderPass
  {
  }

  /** Where an offscreen event falls: G-buffer, SSAO then blur, each begun, drawn, then ended. */
  function PassRank(e: Event): nat
  {
    match e
    case BeginGBufferPass => 0
    case RenderGBuffer => 1
    case EndGBufferPass => 2
    case BeginSSAOPass => 3
    case RenderSSAO => 4
    case EndSSAOPass => 5
    case BeginBlurPass => 6
    case RenderBlur => 7
    case EndBlurPass => 8
    case _ => 9
  }

  /**
   * The pre-lighting passes are recorded strictly in pass order, each begun
   * before it draws and ended after; the blur pass always runs and closes the
   * sequence, and something is drawn offscreen exactly when SSAO is on.
   */
  lemma OffscreenPasses(ssaoEnabled: bool)
    ensures forall i, j :: 0 <= i < j < |OffscreenEvents(ssaoEnabled)| ==>
      PassRank(OffscreenEvents(ssaoEnabled)[i]) < PassRank(OffscreenEvents(ssaoEnabled)[j])
    ensures forall e :: e in OffscreenEvents(ssaoEnabled) ==> PassRank(e) < 9
    ensures BeginBlurPass in OffscreenEvents(ssaoEnabled)
    ensures OffscreenEvents(ssaoEnabled)[|OffscreenEvents(ssaoEnabled)| - 1] == EndBlurPass
    ensures ssaoEnabled <==> RenderGBuffer in OffscreenEvents(ssaoEnabled)
    ensures ssaoEnabled <==> RenderSSAO in OffscreenEvents(ssaoEnabled)
    ensures ssaoEnabled <==> RenderBlur in OffscreenEvents(ssaoEnabled)
    ensures !ssaoEnabled ==> forall e :: e in OffscreenEvents(false) ==> e == BeginBlurPass || e == EndBlurPass
  {
  }
}
