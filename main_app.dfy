/** The first version of the viewer loop (main.cpp): a single "changed" latch
    shared by all eight control keys, the frame-statistics reset, and the
    shader switch of the GPU path. */
module MainApp {
  import InputHandler
  import AppUtilities

  type KeyState = InputHandler.KeyState

  /** The values controlApp updates through its reference parameters, with
      the global BASE_WIDTH. */
  datatype Controls = Controls(
    mode: int, renderMode: int, hasChanged: bool,
    totalTime: real, totalFrames: int,
    resolutionChanged: bool, baseWidth: int)

  predicate Arrows(k: KeyState)
  {
    k.left || k.right || k.up || k.down
  }

  predicate Digits(k: KeyState)
  {
    k.one || k.two || k.three || k.four
  }

  /** resetAverage */
  method ResetAverage() returns (totalTime: real, totalFrames: int)
    ensures totalTime == 0.0 && totalFrames == 0
  {
    totalTime := 0.0;
    totalFrames := 0;
  }

  /** One call of controlApp. While the latch is clear, the arrows step the
      filter index in [-1, 3] and the render mode in [0, 1], each pressed digit
      in turn overwrites the base width (480, 720, 1080, 1600) and resets the
      statistics, and only an arrow sets the latch. The latch clears once all
      eight keys are released. */
  function ControlStep(c: Controls, k: KeyState): Controls
  {
    var acted :=
      if c.hasChanged then c
      else
        var m1 := if k.right && c.mode < 3 then c.mode + 1 else c.mode;
        var m2 := if k.left && m1 > -1 then m1 - 1 else m1;
        var r1 := if k.up && c.renderMode < 1 then c.renderMode + 1 else c.renderMode;
        var r2 := if k.down && r1 > 0 then r1 - 1 else r1;
        var w1 := if k.one then 480 else c.baseWidth;
        var w2 := if k.two then 720 else w1;
        var w3 := if k.three then 1080 else w2;
        var w4 := if k.four then 1600 else w3;
        var reset := Digits(k) || Arrows(k);
        Controls(m2, r2, Arrows(k),
                 if reset then 0.0 else c.totalTime,
                 if reset then 0 else c.totalFrames,
                 Digits(k), w4);
    if !Arrows(k) && !Digits(k) then acted.(hasChanged := false) else acted
  }

  /** controlApp of main.cpp; `baseWidth` is the global BASE_WIDTH. */
  method ControlApp(mode: int, renderMode: int, hasChanged: bool,
                    totalTime: real, totalFrames: int, resolutionChanged: bool,
                    baseWidth: int, k: KeyState)
    returns (mode': int, renderMode': int, hasChanged': bool,
             totalTime': real, totalFrames': int, resolutionChanged': bool,
             baseWidth': int)
    ensures Controls(mode', renderMode', hasChanged', totalTime', totalFrames', resolutionChanged', baseWidth')
         == ControlStep(Controls(mode, renderMode, hasChanged, totalTime, totalFrames, resolutionChanged, baseWidth), k)
  {
    mode', renderMode', hasChanged' := mode, renderMode, hasChanged;
    totalTime', totalFrames', resolutionChanged', baseWidth' := totalTime, totalFrames, resolutionChanged, baseWidth;
    if !hasChanged' {
      if k.right && mode' < 3 { mode' := mode' + 1; }
      if k.left && mode' > -1 { mode' := mode' - 1; }
      if k.up && renderMode' < 1 { renderMode' := renderMode' + 1; }
      if k.down && renderMode' > 0 { renderMode' := renderMode' - 1; }
      resolutionChanged' := k.one || k.two || k.three || k.four;
      if k.one {
        baseWidth' := 480;
        totalTime', totalFrames' := ResetAverage();
      }
      if k.two {
        baseWidth' := 720;
        totalTime', totalFrames' := ResetAverage();
      }
      if k.three {
        baseWidth' := 1080;
        totalTime', totalFrames' := ResetAverage();
      }
      if k.four {
        baseWidth' := 1600;
        totalTime', totalFrames' := ResetAverage();
      }
      if k.right || k.left || k.up || k.down {
        hasChanged' := true;
        totalTime', totalFrames' := ResetAverage();
      }
    }
    if !k.left && !k.right && !k.up && !k.down && !k.one && !k.two && !k.three && !k.four {
      hasChanged' := false;
    }
  }

  /** While the latch is set, a call changes nothing but the latch itself,
      which clears exactly when all eight keys are up. */
  lemma LatchedFreezes(c: Controls, k: KeyState)
    requires c.hasChanged
    ensures ControlStep(c, k) == c.(hasChanged := Arrows(k) || Digits(k))
  {
  }

  /** The latch after a call: set by an arrow, kept while any key is held. */
  lemma LatchTransition(c: Controls, k: KeyState)
    ensures ControlStep(c, k).hasChanged <==> (c.hasChanged || Arrows(k)) && (Arrows(k) || Digits(k))
  {
  }

  /** With the latch clear, the output flag is exactly "some digit is down",
      the highest-numbered pressed digit decides the width, and any key resets
      the statistics. */
  lemma UnlatchedResolution(c: Controls, k: KeyState)
    requires !c.hasChanged
    ensures ControlStep(c, k).resolutionChanged == Digits(k)
    ensures k.four ==> ControlStep(c, k).baseWidth == 1600
    ensures !k.four && k.three ==> ControlStep(c, k).baseWidth == 1080
    ensures !k.four && !k.three && k.two ==> ControlStep(c, k).baseWidth == 720
    ensures !k.four && !k.three && !k.two && k.one ==> ControlStep(c, k).baseWidth == 480
    ensures !Digits(k) ==> ControlStep(c, k).baseWidth == c.baseWidth
    ensures Arrows(k) || Digits(k) ==> ControlStep(c, k).totalTime == 0.0 && ControlStep(c, k).totalFrames == 0
  {
  }

  predicate InRange(c: Controls)
  {
    -1 <= c.mode <= 3 && 0 <= c.renderMode <= 1
  }

  function ControlRun(c: Controls, frames: seq<KeyState>): Controls
    decreases |frames|
  {
    if frames == [] then c else ControlRun(ControlStep(c, frames[0]), frames[1..])
  }

  /** The filter index stays in [-1, 3] and the render mode in [0, 1] for any key sequence. */
  lemma {:induction false} RangesPreserved(c: Controls, frames: seq<KeyState>)
    requires InRange(c)
    ensures InRange(ControlRun(c, frames))
    decreases |frames|
  {
    if frames != [] {
      RangesPreserved(ControlStep(c, frames[0]), frames[1..]);
    }
  }

  /** The digit "2" alone, held down. */
  const TWO_HELD: KeyState := InputHandler.KeyState(false, false, false, false, false, true, false, false, false, false)

  /** Number of calls in a run that applied a resolution preset (and so reset
      the statistics and raised the resize flag). */
  function PresetsApplied(c: Controls, frames: seq<KeyState>): nat
    decreases |frames|
  {
    if frames == [] then 0
    else (if !c.hasChanged && Digits(frames[0]) then 1 else 0)
         + PresetsApplied(ControlStep(c, frames[0]), frames[1..])
  }

  /** Digits never set the latch, so holding "2" for n frames re-applies the
      preset, raises the resize flag and resets the statistics on every one of
      the n frames. */
  lemma {:induction false} HeldDigitReappliesEveryFrame(c: Controls, n: nat)
    requires !c.hasChanged
    ensures PresetsApplied(c, seq(n, _ => TWO_HELD)) == n
    ensures n > 0 ==> ControlRun(c, seq(n, _ => TWO_HELD)).resolutionChanged
    ensures n > 0 ==> ControlRun(c, seq(n, _ => TWO_HELD)).totalFrames == 0
    ensures !ControlRun(c, seq(n, _ => TWO_HELD)).hasChanged
    decreases n
  {
    if n > 0 {
      var frames := seq(n, _ => TWO_HELD);
      assert frames[0] == TWO_HELD;
      assert frames[1..] == seq(n - 1, _ => TWO_HELD);
      var c1 := ControlStep(c, TWO_HELD);
      HeldDigitReappliesEveryFrame(c1, n - 1);
      if n > 1 {
        assert ControlRun(c, frames) == ControlRun(c1, frames[1..]);
      }
    }
  }

  // ------------------------------------------------------------ GPU shader switch

  datatype ShaderState = ShaderState(currentShader: string, quadShader: string, isMultiPass: bool)

  /** The shader selection of one frame (main.cpp). With the GPU path on,
      -1, 0 and 2 select "none", "greyscale" and "sincity", 1 is the two-pass
      pixelation through "none", and any other index matches no case and keeps
      the previous shaders. On the CPU path, the quad goes back to "none"
      while the latch is set. */
  function SelectShader(renderMode: int, mode: int, hasChanged: bool, s: ShaderState): (r: ShaderState)
    ensures r.isMultiPass <==> renderMode != 0 && mode == 1
    ensures renderMode != 0 && mode == -1 ==> r.currentShader == "none" && r.quadShader == "none"
    ensures renderMode != 0 && mode == 0 ==> r.currentShader == "greyscale" && r.quadShader == "greyscale"
    ensures renderMode != 0 && mode == 1 ==> r.currentShader == "none" && r.quadShader == "none"
    ensures renderMode != 0 && mode == 2 ==> r.currentShader == "sincity" && r.quadShader == "sincity"
    ensures renderMode == 0 && hasChanged ==> r == ShaderState("none", "none", false)
    ensures renderMode != 0 && mode !in {-1, 0, 1, 2} ==> r.currentShader == s.currentShader && r.quadShader == s.quadShader
    ensures renderMode == 0 && !hasChanged ==> r.currentShader == s.currentShader && r.quadShader == s.quadShader
    ensures r.currentShader == "none" || r.currentShader == "greyscale" || r.currentShader == "sincity"
         || r.currentShader == s.currentShader
  {
    if renderMode != 0 then
      if mode == -1 then ShaderState("none", "none", false)
      else if mode == 0 then ShaderState("greyscale", "greyscale", false)
      else if mode == 1 then ShaderState("none", "none", true)
      else if mode == 2 then ShaderState("sincity", "sincity", false)
      else s.(isMultiPass := false)
    else if hasChanged then ShaderState("none", "none", false)
    else s.(isMultiPass := false)
  }

  /** On the GPU path, for every filter index the switch handles, the inline
      selection agrees with the dispatch of applyShaderFilters: the same quad
      shader, the same multi-pass decision, and the same current shader
      wherever the dispatch installs one. */
  lemma SelectionMatchesDispatch(mode: int, hasChanged: bool, s: ShaderState,
                                 fboSmall: nat, baseWidth: int, videoAspectRatio: real)
    requires -1 <= mode <= 2
    ensures var r := SelectShader(1, mode, hasChanged, s);
      var d := AppUtilities.ApplyShaderFilters(mode, fboSmall, baseWidth, videoAspectRatio);
      r.quadShader == d.quadShader && r.isMultiPass == d.isMultiPass
      && (d.currentShader.Some? ==> r.currentShader == d.currentShader.value)
  {
  }

  /** Stepping from filter 2 to filter 3 on the GPU path leaves the "sincity"
      shader installed. */
  lemma ModeThreeKeepsPreviousShader(s: ShaderState)
    ensures SelectShader(1, 3, false, SelectShader(1, 2, false, s)).currentShader == "sincity"
  {
  }
}
