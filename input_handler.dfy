/** Per-frame input handling of the live camera viewer: the frame-time
    statistics, mouse click anchors, the edge-triggered filter, render-mode
    and resolution controls, and the interactive affine state.

    The keyboard and the mouse are polled once per frame; their state for
    that frame is passed in as plain values. The global `BASE_WIDTH` is
    threaded through the handlers as an in/out value. */
module InputHandler {

  /** Polled keyboard state for one frame (true = pressed). */
  datatype KeyState = KeyState(
    left: bool, right: bool, up: bool, down: bool,
    one: bool, two: bool, three: bool, four: bool,
    space: bool, escape: bool)

  const MIN_MODE: int := -1
  const MAX_MODE: int := 3
  const MIN_RENDER_MODE: int := 0
  const MAX_RENDER_MODE: int := 1
  const MIN_SCALE: real := 0.1

  // ------------------------------------------------------------ FrameStats

  /** Accumulated frame time (milliseconds) and frame count since the last reset. */
  class FrameStats {
    var totalTime: real
    var totalFrames: int

    constructor ()
      ensures totalTime == 0.0 && totalFrames == 0
    {
      totalTime := 0.0;
      totalFrames := 0;
    }

    method Reset()
      modifies this
      ensures totalTime == 0.0 && totalFrames == 0
    {
      totalTime := 0.0;
      totalFrames := 0;
    }

    method AddFrame(frameTime: real)
      modifies this
      ensures totalTime == old(totalTime) + frameTime
      ensures totalFrames == old(totalFrames) + 1
    {
      totalTime := totalTime + frameTime;
      totalFrames := totalFrames + 1;
    }
  }

  // ------------------------------------------------------------ mouse state

  class MouseState {
    var xpos: real
    var ypos: real
    var mbleft: bool
    var mbright: bool
    var prevLeft: bool
    var prevRight: bool
    var leftClickX: real
    var leftClickY: real
    var rightClickX: real
    var rightClickY: real
    /** Wheel ticks delivered by the scroll callback, consumed by the affine handler. */
    var scroll: int

    constructor ()
      ensures !mbleft && !mbright && !prevLeft && !prevRight && scroll == 0
    {
      xpos, ypos := 0.0, 0.0;
      mbleft, mbright, prevLeft, prevRight := false, false, false, false;
      leftClickX, leftClickY, rightClickX, rightClickY := 0.0, 0.0, 0.0, 0.0;
      scroll := 0;
    }

    function LeftTrack(): ButtonTrack
      reads this
    {
      ButtonTrack(prevLeft, leftClickX, leftClickY)
    }

    function RightTrack(): ButtonTrack
      reads this
    {
      ButtonTrack(prevRight, rightClickX, rightClickY)
    }
  }

  /** The input latches of the three keyboard categories and the mouse state. */
  class InputState {
    const mouse: MouseState
    var filterChanged: bool
    var renderChanged: bool
    var resolutionChanged: bool

    constructor ()
      ensures fresh(mouse)
      ensures !filterChanged && !renderChanged && !resolutionChanged
      ensures !mouse.prevLeft && !mouse.prevRight && mouse.scroll == 0
    {
      mouse := new MouseState();
      filterChanged, renderChanged, resolutionChanged := false, false, false;
    }
  }

  // ------------------------------------------------------------ click anchors

  /** Press tracking of one mouse button: whether it was held at the previous
      poll, and the cursor position captured when it was last pressed. */
  datatype ButtonTrack = ButtonTrack(prev: bool, clickX: real, clickY: real)

  /** One poll of a button in handleMouseInput: the anchor is captured only on
      the transition from released to pressed; release clears `prev`. */
  function TrackButton(t: ButtonTrack, pressed: bool, x: real, y: real): (r: ButtonTrack)
    ensures r.prev == pressed
    ensures pressed && !t.prev ==> r.clickX == x && r.clickY == y
    ensures !(pressed && !t.prev) ==> r.clickX == t.clickX && r.clickY == t.clickY
  {
    if pressed then
      (if !t.prev then ButtonTrack(true, x, y) else t)
    else
      ButtonTrack(false, t.clickX, t.clickY)
  }

  datatype ButtonPoll = ButtonPoll(pressed: bool, x: real, y: real)

  /** Successive polls of one button. */
  function TrackRun(t: ButtonTrack, polls: seq<ButtonPoll>): ButtonTrack
    decreases |polls|
  {
    if polls == [] then t
    else TrackRun(TrackButton(t, polls[0].pressed, polls[0].x, polls[0].y), polls[1..])
  }

  /** While the button stays held, nothing changes, wherever the cursor goes. */
  lemma {:induction false} HeldButtonKeepsTrack(t: ButtonTrack, polls: seq<ButtonPoll>)
    requires t.prev
    requires forall i :: 0 <= i < |polls| ==> polls[i].pressed
    ensures TrackRun(t, polls) == t
    decreases |polls|
  {
    if polls != [] {
      HeldButtonKeepsTrack(t, polls[1..]);
    }
  }

  /** A press followed by any number of held polls leaves the anchor at the
      cursor position of the press. */
  lemma {:induction false} AnchorFixedWhileHeld(t: ButtonTrack, polls: seq<ButtonPoll>)
    requires |polls| > 0 && !t.prev
    requires forall i :: 0 <= i < |polls| ==> polls[i].pressed
    ensures TrackRun(t, polls) == ButtonTrack(true, polls[0].x, polls[0].y)
  {
    var t1 := TrackButton(t, polls[0].pressed, polls[0].x, polls[0].y);
    HeldButtonKeepsTrack(t1, polls[1..]);
  }

  /** handleMouseInput: records the cursor and the button states and updates
      both press anchors. */
  method HandleMouseInput(mouse: MouseState, x: real, y: real, leftPressed: bool, rightPressed: bool)
    modifies mouse
    ensures mouse.xpos == x && mouse.ypos == y
    ensures mouse.mbleft == leftPressed && mouse.mbright == rightPressed
    ensures mouse.LeftTrack() == TrackButton(old(mouse.LeftTrack()), leftPressed, x, y)
    ensures mouse.RightTrack() == TrackButton(old(mouse.RightTrack()), rightPressed, x, y)
    ensures mouse.scroll == old(mouse.scroll)
  {
    mouse.xpos, mouse.ypos := x, y;
    mouse.mbleft := leftPressed;
    if mouse.mbleft {
      if !mouse.prevLeft {
        mouse.leftClickX := mouse.xpos;
        mouse.leftClickY := mouse.ypos;
        mouse.prevLeft := true;
      }
    } else {
      mouse.prevLeft := false;
    }
    mouse.mbright := rightPressed;
    if mouse.mbright {
      if !mouse.prevRight {
        mouse.rightClickX := mouse.xpos;
        mouse.rightClickY := mouse.ypos;
        mouse.prevRight := true;
      }
    } else {
      mouse.prevRight := false;
    }
  }

  // ------------------------------------------------------------ the "changed" latch

  datatype Latch = Latch(fired: bool, latched: bool)

  /** The per-category latch: the action fires when some key of the category
      is pressed and the latch is clear; firing sets the latch, and the latch
      clears only when every key of the category is released. */
  function EdgeLatch(latched: bool, anyPressed: bool): (r: Latch)
    ensures r.fired <==> anyPressed && !latched
    ensures r.latched <==> anyPressed
  {
    var fired := anyPressed && !latched;
    var afterFire := if fired then true else latched;
    Latch(fired, if !anyPressed then false else afterFire)
  }

  /** Number of polls at which the category goes from no key pressed to some
      key pressed; `prev` is whether a key was pressed before the first poll. */
  function RisingEdges(prev: bool, pressed: seq<bool>): nat
    decreases |pressed|
  {
    if pressed == [] then 0
    else (if pressed[0] && !prev then 1 else 0) + RisingEdges(pressed[0], pressed[1..])
  }

  /** A key held for any positive number of frames is a single press. */
  lemma {:induction false} HeldKeyIsOnePress(n: nat)
    requires n > 0
    ensures RisingEdges(false, seq(n, _ => true)) == 1
  {
    var s := seq(n, _ => true);
    assert s[1..] == seq(n - 1, _ => true);
    HeldNoNewPress(n - 1);
  }

  lemma {:induction false} HeldNoNewPress(n: nat)
    ensures RisingEdges(true, seq(n, _ => true)) == 0
  {
    if n > 0 {
      var s := seq(n, _ => true);
      assert s[1..] == seq(n - 1, _ => true);
      HeldNoNewPress(n - 1);
    }
  }

  // ------------------------------------------------------------ filter and render mode

  datatype ModeUpdate = ModeUpdate(value: int, latched: bool, fired: bool)

  /** The shared body of handleFilterInput and handleRenderModeInput: `inc`
      and `dec` are the category's two keys (right/left, up/down). When the
      latch lets the action through, `inc` steps up below `hi`, then `dec`
      steps down above `lo`. */
  function ClampedLatchStep(lo: int, hi: int, value: int, latched: bool, inc: bool, dec: bool): (r: ModeUpdate)
    ensures lo <= value <= hi ==> lo <= r.value <= hi
    ensures r.fired <==> (inc || dec) && !latched
    ensures r.latched <==> inc || dec
    ensures !r.fired ==> r.value == value
    ensures r.fired && inc && !dec ==> r.value == (if value < hi then value + 1 else value)
    ensures r.fired && dec && !inc ==> r.value == (if value > lo then value - 1 else value)
    ensures r.fired && inc && dec ==>
      r.value == (var up := if value < hi then value + 1 else value; if up > lo then up - 1 else up)
  {
    var l := EdgeLatch(latched, inc || dec);
    if l.fired then
      var up := if inc && value < hi then value + 1 else value;
      var down := if dec && up > lo then up - 1 else up;
      ModeUpdate(down, l.latched, true)
    else
      ModeUpdate(value, l.latched, false)
  }

  function FilterStep(mode: int, latched: bool, keys: KeyState): ModeUpdate
  {
    ClampedLatchStep(MIN_MODE, MAX_MODE, mode, latched, keys.right, keys.left)
  }

  function RenderModeStep(renderMode: int, latched: bool, keys: KeyState): ModeUpdate
  {
    ClampedLatchStep(MIN_RENDER_MODE, MAX_RENDER_MODE, renderMode, latched, keys.up, keys.down)
  }

  /** Both keys of one category for one frame. */
  datatype Pair = Pair(inc: bool, dec: bool)

  function AnyOf(frames: seq<Pair>): (r: seq<bool>)
    ensures |r| == |frames|
    ensures forall i :: 0 <= i < |frames| ==> r[i] == (frames[i].inc || frames[i].dec)
  {
    seq(|frames|, i requires 0 <= i < |frames| => frames[i].inc || frames[i].dec)
  }

  datatype ModeRun = ModeRun(value: int, latched: bool, fires: nat)

  /** A category handler applied over successive frames, counting how often it fired. */
  function RunClamped(lo: int, hi: int, value: int, latched: bool, frames: seq<Pair>): ModeRun
    decreases |frames|
  {
    if frames == [] then ModeRun(value, latched, 0)
    else
      var u := ClampedLatchStep(lo, hi, value, latched, frames[0].inc, frames[0].dec);
      var rest := RunClamped(lo, hi, u.value, u.latched, frames[1..]);
      ModeRun(rest.value, rest.latched, rest.fires + (if u.fired then 1 else 0))
  }

  /** Whatever the keys do, a value that starts in [lo, hi] stays there. */
  lemma {:induction false} RunStaysInRange(lo: int, hi: int, value: int, latched: bool, frames: seq<Pair>)
    requires lo <= value <= hi
    ensures lo <= RunClamped(lo, hi, value, latched, frames).value <= hi
    decreases |frames|
  {
    if frames != [] {
      var u := ClampedLatchStep(lo, hi, value, latched, frames[0].inc, frames[0].dec);
      RunStaysInRange(lo, hi, u.value, u.latched, frames[1..]);
    }
  }

  /** The handler fires exactly once per press of the category, however long
      each press is held. */
  lemma {:induction false} FiresOncePerPress(lo: int, hi: int, value: int, latched: bool, frames: seq<Pair>)
    ensures RunClamped(lo, hi, value, latched, frames).fires == RisingEdges(latched, AnyOf(frames))
    decreases |frames|
  {
    if frames != [] {
      var u := ClampedLatchStep(lo, hi, value, latched, frames[0].inc, frames[0].dec);
      FiresOncePerPress(lo, hi, u.value, u.latched, frames[1..]);
      assert AnyOf(frames)[1..] == AnyOf(frames[1..]);
    }
  }

  /** While the latch is set and some key stays held, nothing changes. */
  lemma {:induction false} LatchedHoldChangesNothing(lo: int, hi: int, value: int, frames: seq<Pair>)
    requires forall i :: 0 <= i < |frames| ==> frames[i].inc || frames[i].dec
    ensures RunClamped(lo, hi, value, true, frames) == ModeRun(value, true, 0)
    decreases |frames|
  {
    if frames != [] {
      LatchedHoldChangesNothing(lo, hi, value, frames[1..]);
    }
  }

  /** Holding only the "next" key for n frames, starting released, advances
      the value by one step at most once. */
  lemma {:induction false} HoldingIncAdvancesOnce(lo: int, hi: int, value: int, n: nat)
    requires n > 0
    ensures RunClamped(lo, hi, value, false, seq(n, _ => Pair(true, false)))
         == ModeRun(if value < hi then value + 1 else value, true, 1)
  {
    var frames := seq(n, _ => Pair(true, false));
    assert frames[1..] == seq(n - 1, _ => Pair(true, false));
    var v1 := if value < hi then value + 1 else value;
    LatchedHoldChangesNothing(lo, hi, v1, frames[1..]);
  }

  /** handleFilterInput: left/right move the filter index within [-1, 3];
      a fired action resets the frame statistics. */
  method HandleFilterInput(mode: int, input: InputState, stats: FrameStats, keys: KeyState)
    returns (newMode: int)
    modifies input`filterChanged, stats
    ensures var u := FilterStep(mode, old(input.filterChanged), keys);
      newMode == u.value && input.filterChanged == u.latched &&
      (if u.fired then stats.totalTime == 0.0 && stats.totalFrames == 0
       else stats.totalTime == old(stats.totalTime) && stats.totalFrames == old(stats.totalFrames))
  {
    newMode := mode;
    if (keys.left || keys.right) && !input.filterChanged {
      if keys.right && newMode < MAX_MODE { newMode := newMode + 1; }
      if keys.left && newMode > MIN_MODE { newMode := newMode - 1; }
      input.filterChanged := true;
      stats.Reset();
    }
    if !keys.left && !keys.right {
      input.filterChanged := false;
    }
  }

  /** handleRenderModeInput: up/down move the render mode within [0, 1]. */
  method HandleRenderModeInput(renderMode: int, input: InputState, stats: FrameStats, keys: KeyState)
    returns (newRenderMode: int)
    modifies input`renderChanged, stats
    ensures var u := RenderModeStep(renderMode, old(input.renderChanged), keys);
      newRenderMode == u.value && input.renderChanged == u.latched &&
      (if u.fired then stats.totalTime == 0.0 && stats.totalFrames == 0
       else stats.totalTime == old(stats.totalTime) && stats.totalFrames == old(stats.totalFrames))
  {
    newRenderMode := renderMode;
    if (keys.up || keys.down) && !input.renderChanged {
      if keys.up && newRenderMode < MAX_RENDER_MODE { newRenderMode := newRenderMode + 1; }
      if keys.down && newRenderMode > MIN_RENDER_MODE { newRenderMode := newRenderMode - 1; }
      input.renderChanged := true;
      stats.Reset();
    }
    if !keys.up && !keys.down {
      input.renderChanged := false;
    }
  }

  // ------------------------------------------------------------ resolution presets

  function AnyDigit(keys: KeyState): bool
  {
    keys.one || keys.two || keys.three || keys.four
  }

  datatype ResolutionUpdate = ResolutionUpdate(baseWidth: int, latched: bool, resolutionChanged: bool, fired: bool)

  /** handleResolutionInput: when unlatched, the first pressed digit in the
      order 1, 2, 3, 4 selects the base width 240, 720, 1080 or 1600, and the
      output flag `resolutionChanged` is raised (never lowered here). */
  function ResolutionStep(baseWidth: int, latched: bool, resolutionChanged: bool, keys: KeyState): (r: ResolutionUpdate)
    ensures r.fired <==> AnyDigit(keys) && !latched
    ensures r.latched <==> AnyDigit(keys)
    ensures r.resolutionChanged <==> resolutionChanged || r.fired
    ensures !r.fired ==> r.baseWidth == baseWidth
    ensures r.fired && keys.one ==> r.baseWidth == 240
    ensures r.fired && !keys.one && keys.two ==> r.baseWidth == 720
    ensures r.fired && !keys.one && !keys.two && keys.three ==> r.baseWidth == 1080
    ensures r.fired && !keys.one && !keys.two && !keys.three ==> r.baseWidth == 1600
  {
    var l := EdgeLatch(latched, AnyDigit(keys));
    if l.fired then
      var width :=
        if keys.one then 240
        else if keys.two then 720
        else if keys.three then 1080
        else if keys.four then 1600
        else baseWidth;
      ResolutionUpdate(width, l.latched, true, true)
    else
      ResolutionUpdate(baseWidth, l.latched, resolutionChanged, false)
  }

  datatype ResolutionRun = ResolutionRun(baseWidth: int, latched: bool, resolutionChanged: bool, fires: nat)

  function RunResolution(baseWidth: int, latched: bool, resolutionChanged: bool, frames: seq<KeyState>): ResolutionRun
    decreases |frames|
  {
    if frames == [] then ResolutionRun(baseWidth, latched, resolutionChanged, 0)
    else
      var u := ResolutionStep(baseWidth, latched, resolutionChanged, frames[0]);
      var rest := RunResolution(u.baseWidth, u.latched, u.resolutionChanged, frames[1..]);
      ResolutionRun(rest.baseWidth, rest.latched, rest.resolutionChanged, rest.fires + (if u.fired then 1 else 0))
  }

  function DigitsHeld(frames: seq<KeyState>): (r: seq<bool>)
    ensures |r| == |frames|
    ensures forall i :: 0 <= i < |frames| ==> r[i] == AnyDigit(frames[i])
  {
    seq(|frames|, i requires 0 <= i < |frames| => AnyDigit(frames[i]))
  }

  /** A preset fires once per press of the digit keys, and once raised the
      output flag stays raised. */
  lemma {:induction false} ResolutionFiresOncePerPress(baseWidth: int, latched: bool, resolutionChanged: bool, frames: seq<KeyState>)
    ensures RunResolution(baseWidth, latched, resolutionChanged, frames).fires == RisingEdges(latched, DigitsHeld(frames))
    ensures resolutionChanged ==> RunResolution(baseWidth, latched, resolutionChanged, frames).resolutionChanged
    decreases |frames|
  {
    if frames != [] {
      var u := ResolutionStep(baseWidth, latched, resolutionChanged, frames[0]);
      ResolutionFiresOncePerPress(u.baseWidth, u.latched, u.resolutionChanged, frames[1..]);
      assert DigitsHeld(frames)[1..] == DigitsHeld(frames[1..]);
    }
  }

  /** Holding one digit key for any number of frames applies its preset
      once: the statistics are reset and the resize requested a single time. */
  lemma {:induction false} HeldDigitFiresOnce(baseWidth: int, resolutionChanged: bool, held: KeyState, n: nat)
    requires AnyDigit(held) && n > 0
    ensures RunResolution(baseWidth, false, resolutionChanged, seq(n, _ => held)).fires == 1
  {
    var frames := seq(n, _ => held);
    ResolutionFiresOncePerPress(baseWidth, false, resolutionChanged, frames);
    assert DigitsHeld(frames) == seq(n, _ => true);
    HeldKeyIsOnePress(n);
  }

  /** Once some run of frames has fired a preset, the base width is one of the four presets. */
  lemma {:induction false} BaseWidthIsPresetAfterFiring(baseWidth: int, latched: bool, resolutionChanged: bool, frames: seq<KeyState>)
    requires RunResolution(baseWidth, latched, resolutionChanged, frames).fires > 0
    ensures RunResolution(baseWidth, latched, resolutionChanged, frames).baseWidth in {240, 720, 1080, 1600}
    decreases |frames|
  {
    var u := ResolutionStep(baseWidth, latched, resolutionChanged, frames[0]);
    if RunResolution(u.baseWidth, u.latched, u.resolutionChanged, frames[1..]).fires > 0 {
      BaseWidthIsPresetAfterFiring(u.baseWidth, u.latched, u.resolutionChanged, frames[1..]);
    } else {
      PresetKeptWithoutFiring(u.baseWidth, u.latched, u.resolutionChanged, frames[1..]);
    }
  }

  lemma {:induction false} PresetKeptWithoutFiring(baseWidth: int, latched: bool, resolutionChanged: bool, frames: seq<KeyState>)
    requires RunResolution(baseWidth, latched, resolutionChanged, frames).fires == 0
    ensures RunResolution(baseWidth, latched, resolutionChanged, frames).baseWidth == baseWidth
    decreases |frames|
  {
    if frames != [] {
      var u := ResolutionStep(baseWidth, latched, resolutionChanged, frames[0]);
      PresetKeptWithoutFiring(u.baseWidth, u.latched, u.resolutionChanged, frames[1..]);
    }
  }

  /** handleResolutionInput; `baseWidth` is the global BASE_WIDTH. */
  method HandleResolutionInput(resolutionChanged: bool, baseWidth: int, input: InputState, stats: FrameStats, keys: KeyState)
    returns (newResolutionChanged: bool, newBaseWidth: int)
    modifies input`resolutionChanged, stats
    ensures var u := ResolutionStep(baseWidth, old(input.resolutionChanged), resolutionChanged, keys);
      newBaseWidth == u.baseWidth && newResolutionChanged == u.resolutionChanged &&
      input.resolutionChanged == u.latched &&
      (if u.fired then stats.totalTime == 0.0 && stats.totalFrames == 0
       else stats.totalTime == old(stats.totalTime) && stats.totalFrames == old(stats.totalFrames))
  {
    newResolutionChanged, newBaseWidth := resolutionChanged, baseWidth;
    if AnyDigit(keys) && !input.resolutionChanged {
      if keys.one {
        newBaseWidth := 240;
      } else if keys.two {
        newBaseWidth := 720;
      } else if keys.three {
        newBaseWidth := 1080;
      } else if keys.four {
        newBaseWidth := 1600;
      }
      input.resolutionChanged := true;
      newResolutionChanged := true;
      stats.Reset();
    }
    if !keys.one && !keys.two && !keys.three && !keys.four {
      input.resolutionChanged := false;
    }
  }

  // ------------------------------------------------------------ controlApp

  /** controlApp: mouse, filter, render mode, resolution, then the escape key,
      in that order. Returns whether the window was asked to close. */
  method ControlApp(mode: int, renderMode: int, resolutionChanged: bool, baseWidth: int,
                    stats: FrameStats, input: InputState, keys: KeyState,
                    cursorX: real, cursorY: real, leftButton: bool, rightButton: bool)
    returns (newMode: int, newRenderMode: int, newResolutionChanged: bool, newBaseWidth: int, shouldClose: bool)
    modifies stats, input, input.mouse
    ensures var f := FilterStep(mode, old(input.filterChanged), keys);
      newMode == f.value && input.filterChanged == f.latched
    ensures var m := RenderModeStep(renderMode, old(input.renderChanged), keys);
      newRenderMode == m.value && input.renderChanged == m.latched
    ensures var r := ResolutionStep(baseWidth, old(input.resolutionChanged), resolutionChanged, keys);
      newBaseWidth == r.baseWidth && newResolutionChanged == r.resolutionChanged &&
      input.resolutionChanged == r.latched
    ensures input.mouse.LeftTrack() == TrackButton(old(input.mouse.LeftTrack()), leftButton, cursorX, cursorY)
    ensures input.mouse.RightTrack() == TrackButton(old(input.mouse.RightTrack()), rightButton, cursorX, cursorY)
    ensures input.mouse.xpos == cursorX && input.mouse.ypos == cursorY
    ensures input.mouse.mbleft == leftButton && input.mouse.mbright == rightButton
    ensures input.mouse.scroll == old(input.mouse.scroll)
    ensures var anyFired := FilterStep(mode, old(input.filterChanged), keys).fired
        || RenderModeStep(renderMode, old(input.renderChanged), keys).fired
        || ResolutionStep(baseWidth, old(input.resolutionChanged), resolutionChanged, keys).fired;
      if anyFired then stats.totalTime == 0.0 && stats.totalFrames == 0
      else stats.totalTime == old(stats.totalTime) && stats.totalFrames == old(stats.totalFrames)
    ensures shouldClose == keys.escape
  {
    HandleMouseInput(input.mouse, cursorX, cursorY, leftButton, rightButton);
    newMode := HandleFilterInput(mode, input, stats, keys);
    newRenderMode := HandleRenderModeInput(renderMode, input, stats, keys);
    newResolutionChanged, newBaseWidth := HandleResolutionInput(resolutionChanged, baseWidth, input, stats, keys);
    shouldClose := keys.escape;
  }

  // ------------------------------------------------------------ affine state

  /** The interactive transform: rotation in degrees, translation in pixels, uniform scale. */
  datatype Affine = Affine(rotation: real, translationX: real, translationY: real, scale: real)

  const IDENTITY_AFFINE: Affine := Affine(0.0, 0.0, 0.0, 1.0)

  /** A mouse button's state for the affine handler: held, and the cursor
      offset from the button's press anchor. */
  datatype Drag = Drag(held: bool, dx: real, dy: real)

  /** 1.1 raised to an integer power: the zoom applied for `ticks` wheel ticks. */
  function ZoomFactor(ticks: int): (r: real)
    ensures r > 0.0
    decreases if ticks < 0 then -ticks else ticks
  {
    if ticks == 0 then 1.0
    else if ticks > 0 then 1.1 * ZoomFactor(ticks - 1)
    else ZoomFactor(ticks + 1) / 1.1
  }

  /** Zooming in by k ticks and out by k ticks cancel. */
  lemma {:induction false} ZoomRoundTrip(k: nat)
    ensures ZoomFactor(k) * ZoomFactor(-(k as int)) == 1.0
  {
    if k > 0 {
      ZoomRoundTrip(k - 1);
      var up, down := ZoomFactor(k - 1), ZoomFactor(1 - k);
      assert ZoomFactor(k) == 1.1 * up;
      assert ZoomFactor(-(k as int)) == down / 1.1;
      assert (1.1 * up) * (down / 1.1) == up * down;
    }
  }

  function SquaredLength(dx: real, dy: real): real
  {
    dx * dx + dy * dy
  }

  lemma SquaredLengthFacts(dx: real, dy: real)
    ensures SquaredLength(dx, dy) >= 0.0
    ensures SquaredLength(-dx, -dy) == SquaredLength(dx, dy)
  {}

  /** handleAffineInput as a function of the previous affine state: space
      resets, a held right button sets the rotation to the drag distance
      (`sqrt` is the square root), a held left button sets the translation to
      the drag offset, and a non-zero scroll multiplies the scale by 1.1^scroll,
      clamped below at 0.1. */
  function AffineStep(a: Affine, space: bool, rightDrag: Drag, leftDrag: Drag, scroll: int, sqrt: real -> real): (r: Affine)
    ensures space && !rightDrag.held && !leftDrag.held && scroll == 0 ==> r == IDENTITY_AFFINE
    ensures !rightDrag.held ==> r.rotation == (if space then 0.0 else a.rotation)
    ensures leftDrag.held ==> r.translationX == leftDrag.dx && r.translationY == leftDrag.dy
    ensures !leftDrag.held ==> r.translationX == (if space then 0.0 else a.translationX)
    ensures !leftDrag.held ==> r.translationY == (if space then 0.0 else a.translationY)
    ensures rightDrag.held ==> r.rotation == sqrt(SquaredLength(rightDrag.dx, rightDrag.dy))
    ensures scroll != 0 ==> r.scale >= MIN_SCALE
    ensures scroll != 0 ==>
      var z := (if space then 1.0 else a.scale) * ZoomFactor(scroll);
      r.scale == (if z < MIN_SCALE then MIN_SCALE else z)
    ensures scroll == 0 ==> r.scale == (if space then 1.0 else a.scale)
  {
    var reset := if space then IDENTITY_AFFINE else a;
    var rotation :=
      if rightDrag.held then sqrt(SquaredLength(rightDrag.dx, rightDrag.dy))
      else reset.rotation;
    var tx := if leftDrag.held then leftDrag.dx else reset.translationX;
    var ty := if leftDrag.held then leftDrag.dy else reset.translationY;
    var scale :=
      if scroll != 0 then
        var zoomed := reset.scale * ZoomFactor(scroll);
        if zoomed < MIN_SCALE then MIN_SCALE else zoomed
      else reset.scale;
    Affine(rotation, tx, ty, scale)
  }

  /** The right-drag rotation is a distance: never negative, and the same for
      opposite drag directions. */
  lemma RotationIsUnsignedDistance(a: Affine, space: bool, dx: real, dy: real, leftDrag: Drag, scroll: int, sqrt: real -> real)
    requires forall v :: v >= 0.0 ==> sqrt(v) >= 0.0
    ensures AffineStep(a, space, Drag(true, dx, dy), leftDrag, scroll, sqrt).rotation >= 0.0
    ensures AffineStep(a, space, Drag(true, dx, dy), leftDrag, scroll, sqrt).rotation
         == AffineStep(a, space, Drag(true, -dx, -dy), leftDrag, scroll, sqrt).rotation
  {
    SquaredLengthFacts(dx, dy);
  }

  datatype AffineInput = AffineInput(space: bool, rightDrag: Drag, leftDrag: Drag, scroll: int)

  function AffineRun(a: Affine, inputs: seq<AffineInput>, sqrt: real -> real): Affine
    decreases |inputs|
  {
    if inputs == [] then a
    else
      var i := inputs[0];
      AffineRun(AffineStep(a, i.space, i.rightDrag, i.leftDrag, i.scroll, sqrt), inputs[1..], sqrt)
  }

  /** Starting from a scale of at least 0.1 (the initial scale is 1), no
      sequence of resets, drags and wheel ticks takes the scale below 0.1. */
  lemma {:induction false} ScaleNeverBelowMin(a: Affine, inputs: seq<AffineInput>, sqrt: real -> real)
    requires a.scale >= MIN_SCALE
    ensures AffineRun(a, inputs, sqrt).scale >= MIN_SCALE
    decreases |inputs|
  {
    if inputs != [] {
      var i := inputs[0];
      ScaleNeverBelowMin(AffineStep(a, i.space, i.rightDrag, i.leftDrag, i.scroll, sqrt), inputs[1..], sqrt);
    }
  }

  /** handleAffineInput. `prevFrameRotation` is accepted and ignored, as in
      the handler; the scroll ticks are consumed. */
  method HandleAffineInput(prevFrameRotation: real, frameRotation: real,
                           frameTranslationX: real, frameTranslationY: real, frameScale: real,
                           input: InputState, space: bool, sqrt: real -> real)
    returns (rotation: real, translationX: real, translationY: real, scale: real)
    modifies input.mouse`scroll
    ensures var m := input.mouse;
      Affine(rotation, translationX, translationY, scale) ==
      AffineStep(Affine(frameRotation, frameTranslationX, frameTranslationY, frameScale), space,
                 Drag(m.mbright, m.xpos - m.rightClickX, m.ypos - m.rightClickY),
                 Drag(m.mbleft, m.xpos - m.leftClickX, m.ypos - m.leftClickY),
                 old(m.scroll), sqrt)
    ensures input.mouse.scroll == 0
  {
    rotation, translationX, translationY, scale := frameRotation, frameTranslationX, frameTranslationY, frameScale;
    if space {
      rotation := 0.0;
      translationX := 0.0;
      translationY := 0.0;
      scale := 1.0;
    }
    var m := input.mouse;
    if m.mbright {
      var dx := m.xpos - m.rightClickX;
      var dy := m.ypos - m.rightClickY;
      rotation := sqrt(SquaredLength(dx, dy));
    }
    if m.mbleft {
      translationX := m.xpos - m.leftClickX;
      translationY := m.ypos - m.leftClickY;
    }
    if m.scroll != 0 {
      scale := scale * ZoomFactor(m.scroll);
      if scale < MIN_SCALE { scale := MIN_SCALE; }
      m.scroll := 0;
    }
  }
}
