/** The augmented-reality loop (testGLFW.cpp): a board pose that survives
    short lapses in detection for up to two seconds, and the conversion of
    the pose from the camera's coordinate convention into the column-major
    view matrix of the renderer. Detection, pose solving and the Rodrigues
    conversion are inputs. */
module TestGlfw {

  datatype Vec3 = Vec3(x: real, y: real, z: real)

  datatype Corner = Corner(u: real, v: real)

  /** The board data drawn and used for the cube: detected corners with
      their ids, and the rotation and translation vectors of the pose. */
  datatype Snapshot = Snapshot(corners: seq<Corner>, ids: seq<int>, rvec: Vec3, tvec: Vec3)

  const NO_BOARD: Snapshot := Snapshot([], [], Vec3(0.0, 0.0, 0.0), Vec3(0.0, 0.0, 0.0))

  /** What one frame's detection yields: the board corners and ids, the
      number of object points matched to them, the pose solver's verdict and
      the vectors it writes, and the time since the previous frame. */
  datatype Detection = Detection(
    corners: seq<Corner>, ids: seq<int>, matched: nat,
    solved: bool, rvec: Vec3, tvec: Vec3, deltaTime: real)

  const REMOVE_MODEL_TIMER_MAX: real := 2.0
  const MIN_POINTS: nat := 6

  /** The pose solver runs only with enough corners and enough matched points. */
  predicate Attempted(det: Detection)
  {
    |det.corners| >= MIN_POINTS && det.matched >= MIN_POINTS
  }

  predicate PoseIsValid(det: Detection)
  {
    Attempted(det) && det.solved
  }

  /** The loop state the hold logic carries from frame to frame. */
  datatype HoldState = HoldState(found: bool, timer: real, lastValid: Snapshot, current: Snapshot)

  datatype HoldResult = HoldResult(state: HoldState, valid: bool, drawn: bool)

  /** One frame of the hold logic. */
  function HoldStep(s: HoldState, det: Detection): (r: HoldResult)
    ensures r.valid <==> PoseIsValid(det)
    ensures r.drawn <==> r.valid || r.state.found
    ensures r.valid ==> r.state.found && r.state.timer == REMOVE_MODEL_TIMER_MAX
    ensures r.valid ==>
      r.state.lastValid == r.state.current == Snapshot(det.corners, det.ids, det.rvec, det.tvec)
    ensures !r.valid && s.found ==> r.state.current == s.lastValid && r.state.timer == s.timer - det.deltaTime
    ensures !r.valid ==> r.state.lastValid == s.lastValid
    ensures !r.valid && !s.found ==> r.state.timer == s.timer && !r.state.found
    ensures r.state.found <==> r.valid || (s.found && s.timer - det.deltaTime > 0.0)
  {
    var detected := Snapshot(det.corners, det.ids, s.current.rvec, s.current.tvec);
    var solved := if Attempted(det) then detected.(rvec := det.rvec, tvec := det.tvec) else detected;
    var valid := PoseIsValid(det);
    var afterSolve :=
      if valid then HoldState(true, REMOVE_MODEL_TIMER_MAX, solved, solved)
      else s.(current := solved);
    var afterFallback :=
      if !valid && afterSolve.found then afterSolve.(current := afterSolve.lastValid, timer := afterSolve.timer - det.deltaTime)
      else afterSolve;
    var afterTimer := if afterFallback.timer <= 0.0 then afterFallback.(found := false) else afterFallback;
    HoldResult(afterTimer, valid, valid || afterTimer.found)
  }

  /** The state after a sequence of frames. */
  function HoldRun(s: HoldState, dets: seq<Detection>): HoldState
    decreases |dets|
  {
    if dets == [] then s else HoldRun(HoldStep(s, dets[0]).state, dets[1..])
  }

  /** Total time elapsed over a sequence of frames. */
  function Elapsed(dets: seq<Detection>): real
    decreases |dets|
  {
    if dets == [] then 0.0 else dets[0].deltaTime + Elapsed(dets[1..])
  }

  /** After a valid pose, a run of frames without one keeps showing the last
      valid pose exactly as long as the elapsed time stays below what was
      left on the timer: the pose is still held at the end iff every prefix
      of the run took less than that, and then the timer has run down by the
      elapsed time and the current pose is the snapshot. */
  lemma {:induction false} HoldWhileTimeRemains(s: HoldState, dets: seq<Detection>)
    requires s.found
    requires forall i :: 0 <= i < |dets| ==> !PoseIsValid(dets[i])
    ensures HoldRun(s, dets).found <==> forall k :: 0 < k <= |dets| ==> Elapsed(dets[..k]) < s.timer
    ensures HoldRun(s, dets).lastValid == s.lastValid
    ensures HoldRun(s, dets).found ==>
      HoldRun(s, dets).timer == s.timer - Elapsed(dets) && (dets != [] ==> HoldRun(s, dets).current == s.lastValid)
    decreases |dets|
  {
    if dets != [] {
      var s1 := HoldStep(s, dets[0]).state;
      var rest := dets[1..];
      assert forall k :: 0 < k <= |dets| ==> Elapsed(dets[..k]) == dets[0].deltaTime + Elapsed(rest[..k - 1]) by {
        forall k | 0 < k <= |dets|
          ensures Elapsed(dets[..k]) == dets[0].deltaTime + Elapsed(rest[..k - 1])
        {
          assert dets[..k][1..] == rest[..k - 1];
        }
      }
      assert dets[..1][1..] == [];
      if s1.found {
        HoldWhileTimeRemains(s1, rest);
        if HoldRun(s1, rest).found {
          assert forall k :: 0 < k <= |dets| ==> Elapsed(dets[..k]) < s.timer by {
            forall k | 0 < k <= |dets|
              ensures Elapsed(dets[..k]) < s.timer
            {
              if k > 1 {
                assert Elapsed(rest[..k - 1]) < s1.timer;
              }
            }
          }
        } else {
          var j :| 0 < j <= |rest| && !(Elapsed(rest[..j]) < s1.timer);
          assert !(Elapsed(dets[..j + 1]) < s.timer);
        }
      } else {
        NotFoundStaysLost(s1, rest);
        assert !(Elapsed(dets[..1]) < s.timer);
      }
    }
  }

  /** Once lost, a pose stays lost until a valid one is solved. */
  lemma {:induction false} NotFoundStaysLost(s: HoldState, dets: seq<Detection>)
    requires !s.found
    requires forall i :: 0 <= i < |dets| ==> !PoseIsValid(dets[i])
    ensures !HoldRun(s, dets).found && HoldRun(s, dets).lastValid == s.lastValid
    decreases |dets|
  {
    if dets != [] {
      NotFoundStaysLost(HoldStep(s, dets[0]).state, dets[1..]);
    }
  }

  /** The loop variables of the hold logic. */
  class PoseTracker {
    var poseHasBeenFoundOnce: bool
    var removeModelTimer: real
    var lastValid: Snapshot
    var current: Snapshot

    function State(): HoldState
      reads this
    {
      HoldState(poseHasBeenFoundOnce, removeModelTimer, lastValid, current)
    }

    constructor ()
      ensures State() == HoldState(false, REMOVE_MODEL_TIMER_MAX, NO_BOARD, NO_BOARD)
    {
      poseHasBeenFoundOnce := false;
      removeModelTimer := REMOVE_MODEL_TIMER_MAX;
      lastValid := NO_BOARD;
      current := NO_BOARD;
    }

    /** One pass of the loop body up to the drawing decision: `drawn` says
        whether the overlay and the cube are drawn this frame. */
    method Update(det: Detection) returns (poseIsValid: bool, drawn: bool)
      modifies this
      ensures State() == HoldStep(old(State()), det).state
      ensures poseIsValid == HoldStep(old(State()), det).valid
      ensures drawn == HoldStep(old(State()), det).drawn
    {
      current := Snapshot(det.corners, det.ids, current.rvec, current.tvec);
      poseIsValid := false;
      if |det.corners| >= MIN_POINTS {
        if det.matched >= MIN_POINTS {
          current := current.(rvec := det.rvec, tvec := det.tvec);
          poseIsValid := det.solved;
          if poseIsValid {
            lastValid := current;
            poseHasBeenFoundOnce := true;
            removeModelTimer := REMOVE_MODEL_TIMER_MAX;
          }
        }
      }
      if !poseIsValid && poseHasBeenFoundOnce {
        current := lastValid;
        removeModelTimer := removeModelTimer - det.deltaTime;
      }
      if removeModelTimer <= 0.0 {
        poseHasBeenFoundOnce := false;
      }
      drawn := poseIsValid || poseHasBeenFoundOnce;
    }
  }

  // ------------------------------------------------------------ view matrix

  /** A 3x3 rotation matrix by rows, as the Rodrigues conversion yields it. */
  datatype Mat33 = Mat33(r0: Vec3, r1: Vec3, r2: Vec3)

  function Dot(a: Vec3, b: Vec3): real
  {
    a.x * b.x + a.y * b.y + a.z * b.z
  }

  /** The pose applied to a board point, in camera coordinates: R p + t. */
  function CameraPoint(rot: Mat33, t: Vec3, p: Vec3): Vec3
  {
    Vec3(Dot(rot.r0, p) + t.x, Dot(rot.r1, p) + t.y, Dot(rot.r2, p) + t.z)
  }

  /** The camera looks down +z with y down; the renderer looks down -z with y up. */
  function ToGlCoordinates(p: Vec3): Vec3
  {
    Vec3(p.x, -p.y, -p.z)
  }

  function Neg(v: Vec3): Vec3
  {
    Vec3(-v.x, -v.y, -v.z)
  }

  function Row(v: Vec3, w: real): seq<real>
  {
    [v.x, v.y, v.z, w]
  }

  predicate Is4x4(m: seq<seq<real>>)
  {
    |m| == 4 && forall r :: 0 <= r < 4 ==> |m[r]| == 4
  }

  /** newView: the rotation with rows 1 and 2 negated in the top-left 3x3,
      the translation with components 1 and 2 negated in column 3, and the
      bottom row (0, 0, 0, 1). */
  function NewView(rot: Mat33, t: Vec3): (m: seq<seq<real>>)
    ensures Is4x4(m)
    ensures m[3] == [0.0, 0.0, 0.0, 1.0]
  {
    [Row(rot.r0, t.x), Row(Neg(rot.r1), -t.y), Row(Neg(rot.r2), -t.z), [0.0, 0.0, 0.0, 1.0]]
  }

  /** A 4x4 row-major matrix applied to (p, 1). */
  function ApplyView(m: seq<seq<real>>, p: Vec3): Vec3
    requires Is4x4(m)
  {
    Vec3(m[0][0] * p.x + m[0][1] * p.y + m[0][2] * p.z + m[0][3],
         m[1][0] * p.x + m[1][1] * p.y + m[1][2] * p.z + m[1][3],
         m[2][0] * p.x + m[2][1] * p.y + m[2][2] * p.z + m[2][3])
  }

  /** A negated row applied to a point is the negated dot product. */
  lemma NegDot(v: Vec3, p: Vec3)
    ensures Neg(v).x * p.x + Neg(v).y * p.y + Neg(v).z * p.z == -Dot(v, p)
  {
    assert (-v.x) * p.x == -(v.x * p.x);
    assert (-v.y) * p.y == -(v.y * p.y);
    assert (-v.z) * p.z == -(v.z * p.z);
  }

  /** The view matrix takes a board point to where the pose puts it, in the
      renderer's coordinate convention. */
  lemma ViewConvertsCoordinates(rot: Mat33, t: Vec3, p: Vec3)
    ensures ApplyView(NewView(rot, t), p) == ToGlCoordinates(CameraPoint(rot, t, p))
  {
    var m := NewView(rot, t);
    assert m[1] == Row(Neg(rot.r1), -t.y) && m[2] == Row(Neg(rot.r2), -t.z);
    NegDot(rot.r1, p);
    NegDot(rot.r2, p);
  }

  /** viewAR of one frame, indexed [column, row] as the renderer stores it:
      the identity unless the pose is drawn, and then newView transposed
      into column-major order. */
  method ViewAr(drawn: bool, rot: Mat33, t: Vec3) returns (viewAR: array2<real>)
    ensures fresh(viewAR)
    ensures viewAR.Length0 == 4 && viewAR.Length1 == 4
    ensures drawn ==> forall r, c :: 0 <= r < 4 && 0 <= c < 4 ==> viewAR[c, r] == NewView(rot, t)[r][c]
    ensures !drawn ==> forall r, c :: 0 <= r < 4 && 0 <= c < 4 ==> viewAR[c, r] == if r == c then 1.0 else 0.0
  {
    viewAR := new real[4, 4]((c, r) => if r == c then 1.0 else 0.0);
    if drawn {
      var newView := NewView(rot, t);
      for r := 0 to 4
        invariant forall i, j :: 0 <= i < r && 0 <= j < 4 ==> viewAR[j, i] == newView[i][j]
      {
        for c := 0 to 4
          invariant forall i, j :: 0 <= i < r && 0 <= j < 4 ==> viewAR[j, i] == newView[i][j]
          invariant forall j :: 0 <= j < c ==> viewAR[j, r] == newView[r][j]
        {
          viewAR[c, r] := newView[r][c];
        }
      }
    }
  }
}
