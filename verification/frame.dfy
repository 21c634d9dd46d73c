/** One animation frame (`World.loop`, script.js): the frame delta, the
    loudness reading, the orbiting camera, the edge-triggered finish when
    the song stops, and the shader clocks. Rendering, `lookAt` and the CSS
    variable writes are left to the host; `Math.sin`/`Math.cos` are passed
    in. */
module Frame {
  import opened Common

  /** Upper cap on the frame delta, in milliseconds. */
  const MaxDelta: real := 60.0

  /** `parameters.a` and `parameters.c`: the orbit's x and z radii. */
  const OrbitX: real := 2.0
  const OrbitZ: real := 4.5

  /** Bounds of the camera's z position on a running frame. */
  const MinCameraZ: real := 1.75
  const MaxCameraZ: real := 6.5

  /** The host's trigonometry, left uninterpreted. */
  datatype Trig = Trig(sin: real -> real, cos: real -> real)

  /** The loaded 3D heart's rotation about y and its height. */
  datatype Pose = Pose(rotationY: real, positionY: real)

  /** `this.time`: seconds on the clock, except `delta` in milliseconds. */
  datatype Clock = Clock(current: real, elapsed: real, delta: real, t0: real, t1: real, t: real)

  datatype Frame = Frame(
    hasAnalyser: bool,      // the audio analyser exists (music was loaded)
    isRunning: bool,
    data: real,             // loudness derived from the average frequency
    angleX: real, angleZ: real,
    time: Clock,
    heartTime: real,        // the heart material's uTime
    snowTime: real,         // the snow material's uTime
    model: Option<Pose>,    // absent until heart.glb has loaded
    cameraX: real, cameraZ: real)

  /** What the host supplies to one frame. */
  datatype Inputs = Inputs(
    elapsed: real,          // clock.getElapsedTime()
    avgFrequency: real,     // analyser.getAverageFrequency()
    isPlaying: bool,        // sound.isPlaying
    speed: real,            // config.speed
    heartZoom: real)        // config.heartZoom

  /** The frame after the step, and whether this frame was the one on which
      the song was found to have stopped (which also asks for the camera to
      ease back to `(0, 4.5)` and for the start button and controls to be
      shown again). */
  datatype Tick = Tick(frame: Frame, finished: bool)

  /** The state before the first frame: the camera at `(0, 4.5)`. */
  function InitialFrame(): (f: Frame)
    ensures !f.isRunning && !f.hasAnalyser && f.model.None?
    ensures MinCameraZ <= f.cameraZ <= MaxCameraZ
    ensures f.data == 0.0 && f.heartTime == 0.0 && f.snowTime == 0.0
  {
    Frame(false, false, 0.0, 0.0, 0.0, Clock(0.0, 0.0, 0.0, 0.0, 0.0, 0.0), 0.0, 0.0, None, 0.0, OrbitZ)
  }

  /** `Math.min(60, (current - elapsed) * 1000)`. As written, the clock's
      previous reading comes first, so a clock that has moved forward gives a
      negative delta: the value is capped from above only. */
  function Delta(current: real, elapsed: real): (d: real)
    ensures d <= MaxDelta
    ensures d <= (current - elapsed) * 1000.0
    ensures d == MaxDelta || d == (current - elapsed) * 1000.0
    ensures elapsed >= current ==> d <= 0.0
  {
    var raw := (current - elapsed) * 1000.0;
    if raw < MaxDelta then raw else MaxDelta
  }

  /** `Math.min(Math.max(v, 1.75), 6.5)`. */
  function ClampCameraZ(v: real): (z: real)
    ensures MinCameraZ <= z <= MaxCameraZ
    ensures MinCameraZ <= v <= MaxCameraZ ==> z == v
    ensures v < MinCameraZ ==> z == MinCameraZ
    ensures v > MaxCameraZ ==> z == MaxCameraZ
  {
    var lifted := if v > MinCameraZ then v else MinCameraZ;
    if lifted < MaxCameraZ then lifted else MaxCameraZ
  }

  /** The loudness: the average frequency scaled by itself over 2000. */
  function Loudness(avg: real): (data: real)
    ensures data >= 0.0
    ensures avg == 0.0 ==> data == 0.0
  {
    var data := avg * (avg / 2000.0);
    assert data == (avg * avg) / 2000.0;
    data
  }

  /** The frame is a running one: the analyser exists and `isRunning` is set. */
  predicate Running(f: Frame)
  {
    f.hasAnalyser && f.isRunning
  }

  /** The camera, angle and song-clock part of a running frame. */
  function RunningStep(f: Frame, clock: Clock, i: Inputs, trig: Trig): (r: Tick)
    requires Running(f)
    ensures r.finished <==> !i.isPlaying
    ensures r.frame.isRunning == !r.finished
    ensures r.frame.data == Loudness(i.avgFrequency)
    ensures r.frame.time.t == clock.elapsed - clock.t0 + clock.t1
    ensures r.frame.time.(t := clock.t, t1 := clock.t1) == clock
    ensures r.frame.(data := f.data, isRunning := f.isRunning, angleX := f.angleX, angleZ := f.angleZ,
                     time := f.time, cameraX := f.cameraX, cameraZ := f.cameraZ) == f
    ensures r.finished ==>
      r.frame.angleX == 0.0 && r.frame.angleZ == 0.0 &&
      r.frame.time.t1 == r.frame.time.t &&
      r.frame.cameraX == f.cameraX && r.frame.cameraZ == f.cameraZ
    ensures !r.finished ==>
      r.frame.angleX == f.angleX + clock.delta * 0.001 * 0.63 &&
      r.frame.angleZ == f.angleZ + clock.delta * 0.001 * 0.39 &&
      r.frame.cameraX == trig.sin(r.frame.angleX) * OrbitX &&
      r.frame.cameraZ == ClampCameraZ(trig.cos(r.frame.angleZ) * OrbitZ) &&
      r.frame.time.t1 == clock.t1
  {
    var t := clock.elapsed - clock.t0 + clock.t1;
    var data := Loudness(i.avgFrequency);
    var ax := f.angleX + clock.delta * 0.001 * 0.63;
    var az := f.angleZ + clock.delta * 0.001 * 0.39;
    var justFinished := f.isRunning && !i.isPlaying;
    if justFinished then
      Tick(f.(time := clock.(t := t, t1 := t), data := data, isRunning := false, angleX := 0.0, angleZ := 0.0), true)
    else
      Tick(f.(time := clock.(t := t), data := data, angleX := ax, angleZ := az,
              cameraX := trig.sin(ax) * OrbitX,
              cameraZ := ClampCameraZ(trig.cos(az) * OrbitZ)), false)
  }

  /** The shader clocks and the loaded heart, advanced by `delta` at the
      loudness already stored in `g`. */
  function Advance(g: Frame, delta: real, i: Inputs): (r: Frame)
    ensures r.(heartTime := g.heartTime, snowTime := g.snowTime, model := g.model) == g
    ensures r.heartTime - g.heartTime == delta * i.speed * (1.0 + g.data * 0.2)
    ensures r.snowTime - g.snowTime == delta * 0.0004 * (1.0 + g.data)
    ensures g.data == 0.0 ==>
      r.heartTime - g.heartTime == delta * i.speed &&
      r.snowTime - g.snowTime == delta * 0.0004
    ensures r.model.Some? <==> g.model.Some?
    ensures g.model.Some? ==>
      g.model.value.rotationY - r.model.value.rotationY == 0.0005 * delta * (1.0 + g.data) &&
      r.model.value.positionY == -i.heartZoom * 2.5
  {
    var model := if g.model.Some?
      then Some(Pose(g.model.value.rotationY - 0.0005 * delta * (1.0 + g.data), -i.heartZoom * 2.5))
      else None;
    g.(heartTime := g.heartTime + delta * i.speed * (1.0 + g.data * 0.2),
       snowTime := g.snowTime + delta * 0.0004 * (1.0 + g.data),
       model := model)
  }

  /** One call of `loop`. */
  function FrameStep(f: Frame, i: Inputs, trig: Trig): (r: Tick)
    // the delta and the clock
    ensures r.frame.time.delta <= MaxDelta
    ensures i.elapsed >= f.time.current ==> r.frame.time.delta <= 0.0
    ensures r.frame.time.current == i.elapsed && r.frame.time.elapsed == i.elapsed
    ensures r.frame.time.t0 == f.time.t0
    ensures r.frame.hasAnalyser == f.hasAnalyser
    // the finish is edge-triggered and fires only on a running frame whose song stopped
    ensures r.finished <==> Running(f) && !i.isPlaying
    ensures r.frame.isRunning <==> f.isRunning && !r.finished
    ensures r.finished ==>
      r.frame.angleX == 0.0 && r.frame.angleZ == 0.0 &&
      r.frame.time.t1 == r.frame.time.t &&
      r.frame.cameraX == f.cameraX && r.frame.cameraZ == f.cameraZ
    // a running frame reads the loudness and moves the song clock
    ensures Running(f) ==>
      r.frame.data == Loudness(i.avgFrequency) &&
      r.frame.time.t == i.elapsed - f.time.t0 + f.time.t1
    // a running frame that does not finish advances the angles and orbits the camera
    ensures Running(f) && !r.finished ==>
      var d := r.frame.time.delta;
      r.frame.angleX == f.angleX + d * 0.001 * 0.63 &&
      r.frame.angleZ == f.angleZ + d * 0.001 * 0.39 &&
      r.frame.cameraX == trig.sin(r.frame.angleX) * OrbitX &&
      r.frame.cameraZ == ClampCameraZ(trig.cos(r.frame.angleZ) * OrbitZ) &&
      MinCameraZ <= r.frame.cameraZ <= MaxCameraZ &&
      r.frame.time.t1 == f.time.t1
    // otherwise the loudness, the song clock, the angles and the camera stay put
    ensures !Running(f) ==>
      r.frame.data == f.data &&
      r.frame.time.t == f.time.t && r.frame.time.t1 == f.time.t1 &&
      r.frame.angleX == f.angleX && r.frame.angleZ == f.angleZ &&
      r.frame.cameraX == f.cameraX && r.frame.cameraZ == f.cameraZ
    // the shader clocks advance by the delta scaled by the loudness
    ensures r.frame.heartTime - f.heartTime == r.frame.time.delta * i.speed * (1.0 + r.frame.data * 0.2)
    ensures r.frame.snowTime - f.snowTime == r.frame.time.delta * 0.0004 * (1.0 + r.frame.data)
    ensures r.frame.data == 0.0 ==>
      r.frame.heartTime - f.heartTime == r.frame.time.delta * i.speed &&
      r.frame.snowTime - f.snowTime == r.frame.time.delta * 0.0004
    // the loaded heart spins and follows the zoom
    ensures r.frame.model.Some? <==> f.model.Some?
    ensures f.model.Some? ==>
      f.model.value.rotationY - r.frame.model.value.rotationY == 0.0005 * r.frame.time.delta * (1.0 + r.frame.data) &&
      r.frame.model.value.positionY == -i.heartZoom * 2.5
  {
    var delta := Delta(f.time.current, i.elapsed);
    var clock := f.time.(elapsed := i.elapsed, delta := delta);
    var moved := if Running(f) then RunningStep(f, clock, i, trig) else Tick(f.(time := clock), false);
    var g := Advance(moved.frame, delta, i);
    Tick(g.(time := g.time.(current := i.elapsed)), moved.finished)
  }

  /** A run of frames, one per element of `ins`. */
  function Run(f: Frame, ins: seq<Inputs>, trig: Trig): (r: Frame)
    ensures r.hasAnalyser == f.hasAnalyser
    ensures r.isRunning ==> f.isRunning
    decreases |ins|
  {
    if |ins| == 0 then f else Run(FrameStep(f, ins[0], trig).frame, ins[1..], trig)
  }

  /** How many frames of the run report the finish. */
  function Finishes(f: Frame, ins: seq<Inputs>, trig: Trig): nat
    decreases |ins|
  {
    if |ins| == 0 then 0
    else
      var step := FrameStep(f, ins[0], trig);
      (if step.finished then 1 else 0) + Finishes(step.frame, ins[1..], trig)
  }

  /** A stopped frame never finishes again, whatever the inputs. */
  lemma {:induction false} StoppedNeverFinishes(f: Frame, ins: seq<Inputs>, trig: Trig)
    requires !f.isRunning
    ensures Finishes(f, ins, trig) == 0
    ensures !Run(f, ins, trig).isRunning
    decreases |ins|
  {
    if |ins| > 0 {
      StoppedNeverFinishes(FrameStep(f, ins[0], trig).frame, ins[1..], trig);
    }
  }

  /** Without a start in between, the finish fires at most once in any run
      of frames, from any state. */
  lemma {:induction false} FinishAtMostOnce(f: Frame, ins: seq<Inputs>, trig: Trig)
    ensures Finishes(f, ins, trig) <= 1
    ensures Finishes(f, ins, trig) == 1 ==> !Run(f, ins, trig).isRunning
    decreases |ins|
  {
    if |ins| > 0 {
      var step := FrameStep(f, ins[0], trig);
      if step.finished {
        StoppedNeverFinishes(step.frame, ins[1..], trig);
      } else {
        FinishAtMostOnce(step.frame, ins[1..], trig);
      }
    }
  }

  /** The camera's z position stays in `[1.75, 6.5]` along any run of
      frames that starts with it there, however large the deltas are. */
  lemma {:induction false} CameraZStaysInRange(f: Frame, ins: seq<Inputs>, trig: Trig)
    requires MinCameraZ <= f.cameraZ <= MaxCameraZ
    ensures MinCameraZ <= Run(f, ins, trig).cameraZ <= MaxCameraZ
    decreases |ins|
  {
    if |ins| > 0 {
      CameraZStaysInRange(FrameStep(f, ins[0], trig).frame, ins[1..], trig);
    }
  }

  /** The loudness of a running frame is never negative, and once any frame
      has run it stays non-negative along the whole run. */
  lemma {:induction false} LoudnessStaysNonNegative(f: Frame, ins: seq<Inputs>, trig: Trig)
    requires f.data >= 0.0
    ensures Run(f, ins, trig).data >= 0.0
    decreases |ins|
  {
    if |ins| > 0 {
      LoudnessStaysNonNegative(FrameStep(f, ins[0], trig).frame, ins[1..], trig);
    }
  }
}
