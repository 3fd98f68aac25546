/** The benchmark driver (Experiments.cpp): each test configuration fixes the
    filter, the base width and the render path, then runs a fixed number of
    captured frames, skipping the empty ones, and accumulates the frame
    statistics. */
module Experiments {
  import InputHandler
  import AppUtilities

  /** The fields of a test configuration that the control logic reads. */
  datatype TestConfig = TestConfig(filter: string, resolution: int, useGPU: bool, useTransforms: bool)

  /** The filter index controlAppFromConfig assigns to the label of a configuration. */
  function ModeForLabel(filter: string): (mode: int)
    ensures -1 <= mode <= 3
    ensures mode == 0 <==> filter == "greyframeScale"
    ensures mode == 1 <==> filter == "pixelated"
    ensures mode == 2 <==> filter == "sincity"
    ensures mode == 3 <==> filter == "blur"
  {
    if filter == "greyframeScale" then 0
    else if filter == "pixelated" then 1
    else if filter == "sincity" then 2
    else if filter == "blur" then 3
    else -1
  }

  /** The filter index testConfiguration starts from, before any frame is read. */
  function InitialModeForLabel(filter: string): (mode: int)
    ensures -1 <= mode <= 3
  {
    if filter == "greyframeScale" then 0
    else if filter == "pixelated" then 1
    else if filter == "blur" then 2
    else if filter == "sincity" then 3
    else -1
  }

  /** The two label tables agree except that "blur" and "sincity" trade indices. */
  lemma LabelTablesDiffer(filter: string)
    ensures filter != "blur" && filter != "sincity" ==> InitialModeForLabel(filter) == ModeForLabel(filter)
    ensures InitialModeForLabel("blur") == ModeForLabel("sincity")
    ensures InitialModeForLabel("sincity") == ModeForLabel("blur")
  {
  }

  /** The values controlAppFromConfig reads and writes, with the global base
      width and the two statistics fields. */
  datatype ConfigControls = ConfigControls(
    mode: int, renderMode: int, resolutionChanged: bool, baseWidth: int,
    totalTime: real, totalFrames: int)

  /** One call of controlAppFromConfig. */
  function ConfigStep(c: ConfigControls, config: TestConfig): (r: ConfigControls)
    ensures r.mode == ModeForLabel(config.filter)
    ensures r.renderMode == 1 <==> config.useGPU
    ensures r.renderMode == 0 <==> !config.useGPU
    ensures r.baseWidth == config.resolution
    ensures r.resolutionChanged <==> c.resolutionChanged || c.baseWidth != config.resolution
    ensures c.baseWidth != config.resolution ==> r.totalTime == 0.0 && r.totalFrames == 0
    ensures c.baseWidth == config.resolution ==> r.totalTime == c.totalTime && r.totalFrames == c.totalFrames
  {
    var mode := ModeForLabel(config.filter);
    var renderMode := if config.useGPU then 1 else 0;
    if c.baseWidth != config.resolution then
      ConfigControls(mode, renderMode, true, config.resolution, 0.0, 0)
    else
      c.(mode := mode, renderMode := renderMode)
  }

  /** A second call with the same configuration changes nothing, and in
      particular does not reset the statistics again. */
  lemma ConfigIdempotent(c: ConfigControls, config: TestConfig)
    ensures ConfigStep(ConfigStep(c, config), config) == ConfigStep(c, config)
  {
  }

  /** controlAppFromConfig; `baseWidth` is the global BASE_WIDTH. */
  method ControlAppFromConfig(mode: int, renderMode: int, resolutionChanged: bool, baseWidth: int,
                              stats: InputHandler.FrameStats, config: TestConfig)
    returns (mode': int, renderMode': int, resolutionChanged': bool, baseWidth': int)
    modifies stats
    ensures ConfigControls(mode', renderMode', resolutionChanged', baseWidth', stats.totalTime, stats.totalFrames)
         == ConfigStep(ConfigControls(mode, renderMode, resolutionChanged, baseWidth,
                                      old(stats.totalTime), old(stats.totalFrames)), config)
  {
    if config.filter == "greyframeScale" {
      mode' := 0;
    } else if config.filter == "pixelated" {
      mode' := 1;
    } else if config.filter == "sincity" {
      mode' := 2;
    } else if config.filter == "blur" {
      mode' := 3;
    } else {
      mode' := -1;
    }
    renderMode' := if config.useGPU then 1 else 0;
    resolutionChanged', baseWidth' := resolutionChanged, baseWidth;
    if baseWidth != config.resolution {
      baseWidth' := config.resolution;
      resolutionChanged' := true;
      stats.Reset();
    }
  }

  // ------------------------------------------------------------ the frame loop

  /** The outcome of one capture: no image, or an image whose processing took
      `frameTime` milliseconds (the clock is an input). */
  datatype Capture = Empty | Frame(frameTime: real)

  const NUM_FRAMES: nat := 10

  /** Number of non-empty captures. */
  function FramesRead(captures: seq<Capture>): (n: nat)
    ensures n <= |captures|
  {
    if captures == [] then 0
    else FramesRead(captures[..|captures| - 1]) + (if captures[|captures| - 1].Frame? then 1 else 0)
  }

  /** Total processing time of the non-empty captures. */
  function TimeRead(captures: seq<Capture>): real
  {
    if captures == [] then 0.0
    else TimeRead(captures[..|captures| - 1])
         + (if captures[|captures| - 1].Frame? then captures[|captures| - 1].frameTime else 0.0)
  }

  /** Some capture is non-empty exactly when the count is positive. */
  lemma {:induction false} FramesReadPositive(captures: seq<Capture>)
    ensures FramesRead(captures) > 0 <==> exists i :: 0 <= i < |captures| && captures[i].Frame?
  {
    if captures != [] {
      var init := captures[..|captures| - 1];
      FramesReadPositive(init);
      if FramesRead(init) > 0 {
        var i :| 0 <= i < |init| && init[i].Frame?;
        assert captures[i].Frame?;
      }
      if i :| 0 <= i < |captures| && captures[i].Frame? {
        if i < |init| {
          assert init[i].Frame?;
        }
      }
    }
  }

  /** When every capture is empty, nothing is counted. */
  lemma {:induction false} AllEmptyCountsNothing(n: nat)
    ensures FramesRead(seq(n, _ => Empty)) == 0 && TimeRead(seq(n, _ => Empty)) == 0.0
  {
    if n > 0 {
      var s := seq(n, _ => Empty);
      assert s[..n - 1] == seq(n - 1, _ => Empty);
      AllEmptyCountsNothing(n - 1);
    }
  }

  /** testConfiguration, given the global base width on entry and the
      captures of its frames. It returns the final filter index, render mode
      and base width, the number of times the render targets were resized,
      and the final statistics. */
  method TestConfiguration(config: TestConfig, baseWidth: int, captures: seq<Capture>)
    returns (mode: int, renderMode: int, newBaseWidth: int, resizes: nat, totalTime: real, totalFrames: int)
    requires |captures| == NUM_FRAMES
    ensures totalFrames == FramesRead(captures) && totalTime == TimeRead(captures)
    ensures newBaseWidth == config.resolution
    ensures renderMode == (if config.useGPU then 1 else 0)
    ensures resizes == (if baseWidth != config.resolution && FramesRead(captures) > 0 then 1 else 0)
    ensures mode == (if FramesRead(captures) > 0 then ModeForLabel(config.filter) else InitialModeForLabel(config.filter))
  {
    var stats := new InputHandler.FrameStats();
    mode := InitialModeForLabel(config.filter);
    renderMode := if config.useGPU then 1 else 0;
    var resolutionChanged := false;
    newBaseWidth := baseWidth;
    if newBaseWidth != config.resolution {
      newBaseWidth := config.resolution;
      resolutionChanged := true;
    }
    resizes := 0;
    var frameNum := 0;
    while frameNum < NUM_FRAMES
      invariant 0 <= frameNum <= NUM_FRAMES
      invariant stats.totalFrames == FramesRead(captures[..frameNum])
      invariant stats.totalTime == TimeRead(captures[..frameNum])
      invariant newBaseWidth == config.resolution
      invariant renderMode == (if config.useGPU then 1 else 0)
      invariant resolutionChanged <==> baseWidth != config.resolution && FramesRead(captures[..frameNum]) == 0
      invariant resizes == (if baseWidth != config.resolution && FramesRead(captures[..frameNum]) > 0 then 1 else 0)
      invariant mode == (if FramesRead(captures[..frameNum]) > 0 then ModeForLabel(config.filter)
                         else InitialModeForLabel(config.filter))
    {
      assert captures[..frameNum + 1][..frameNum] == captures[..frameNum];
      var capture := captures[frameNum];
      frameNum := frameNum + 1;
      if capture.Empty? {
        continue;
      }
      mode, renderMode, resolutionChanged, newBaseWidth :=
        ControlAppFromConfig(mode, renderMode, resolutionChanged, newBaseWidth, stats, config);
      if resolutionChanged {
        resizes := resizes + 1;
        resolutionChanged := false;
      }
      stats.AddFrame(capture.frameTime);
    }
    assert captures[..NUM_FRAMES] == captures;
    totalTime, totalFrames := stats.totalTime, stats.totalFrames;
  }

  // ------------------------------------------------------------ shader registry

  /** The labels the benchmark registers its shaders under, as written. */
  const REGISTERED_AS_WRITTEN: set<string> := {"none", "greyframeScale", "pixelated", "blur", "sincity"}

  /** The labels the render dispatch looks shaders up by, as the interactive
      application registers them. */
  const REGISTERED: set<string> := {"none", "greyscale", "pixelated", "blur", "sincity"}

  /** The label "greyframeScale" selects filter 0 and, on the GPU path, the
      dispatch then looks up "greyscale", which the benchmark never registered. */
  lemma GreyscaleLookupMisses(fboSmall: nat, baseWidth: int, videoAspectRatio: real)
    ensures ModeForLabel("greyframeScale") == 0
    ensures AppUtilities.ApplyShaderFilters(0, fboSmall, baseWidth, videoAspectRatio).quadShader
            !in REGISTERED_AS_WRITTEN
  {
    var name := AppUtilities.ApplyShaderFilters(0, fboSmall, baseWidth, videoAspectRatio).quadShader;
    assert name == "greyscale";
    assert name[4] != "greyframeScale"[4];
  }

  /** With the shaders registered under the dispatch's names, every shader
      the dispatch selects, for any filter index, exists. */
  lemma DispatchedShadersRegistered(mode: int, fboSmall: nat, baseWidth: int, videoAspectRatio: real)
    ensures AppUtilities.ApplyShaderFilters(mode, fboSmall, baseWidth, videoAspectRatio).quadShader in REGISTERED
    ensures forall pass :: pass in AppUtilities.ApplyShaderFilters(mode, fboSmall, baseWidth, videoAspectRatio).passes
              ==> pass.shader in REGISTERED
  {
  }
}
