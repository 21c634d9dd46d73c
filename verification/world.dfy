/** The `World` object as a state record and its event handlers
    (script.js): animation frames, the start button, the music load, the
    song ending, interval and timeout callbacks, window resizes and the
    control panel's inputs. Each handler is a pure function of the state and
    the event, and every handler keeps `Inv`: the typewriter's slots track
    its intervals, the custom-image spawner is the only one of its kind and
    is stopped whenever the start button can be pressed, and the heart
    mirrors the configuration. */
module World {
  import opened Common
  import opened ClassList
  import opened Timers
  import opened Typewriter
  import Random
  import Layout
  import Styles
  import Particles
  import Placement
  import Frame

  /** The start button's captions. */
  const StartLabel: string := "Bắt đầu"
  const LoadingLabel: string := "Đang tải nhạc..."
  const FailedLabel: string := "Lỗi tải nhạc"

  /** `Math.random()` as an endless source of values in [0, 1), read from
      index 0 by each handler in the order the source draws them. */
  type Source = nat -> real

  ghost predicate IsSource(rnd: Source)
  {
    forall k: nat :: Random.IsUnit(rnd(k))
  }

  function Take(rnd: Source, n: nat): (rs: seq<real>)
    requires IsSource(rnd)
    ensures |rs| == n && Random.IsRandomStream(rs)
    ensures forall k :: 0 <= k < n ==> rs[k] == rnd(k)
  {
    seq(n, k requires 0 <= k < n => rnd(k))
  }

  /** `this.config`; `borderColorScheme` is absent until its control is used. */
  datatype Config = Config(
    particleCount: nat, particleSize: real, speed: real, colorScheme: string,
    heartZoom: real, floatingHeartColor: string, borderColorScheme: Option<string>)

  /** The heart particle mesh: its `uSize` and `uHeartRadius` uniforms and
      its per-particle attributes. */
  datatype Heart = Heart(size: real, radius: real, particles: seq<Particles.HeartParticle>)

  datatype Button = Button(enabled: bool, visible: bool, caption: string)

  /** A custom image on screen, with the lifetime its removal timeout was
      given. */
  datatype ShownImage = ShownImage(id: nat, image: Placement.CustomImage, lifetime: real)

  datatype World = World(
    config: Config,
    frame: Frame.Frame,
    soundPlaying: bool,
    loading: bool,                  // a music load is in flight
    strayT0: Option<real>,          // `this.t0`, written by the music load
    heart: Heart,
    snow: seq<Particles.SnowParticle>,
    body: Classes,                  // `document.body` classes
    border: Styles.BorderVars,      // `--border-color` / `--border-shadow`
    panels: Reveal,                 // text panels and the interval timers
    spawner: Option<nat>,           // `customImageInterval`
    lastLeft: Placement.Num,        // `lastCustomImageLeft`
    innerWidth: int,
    images: seq<ShownImage>,
    nextImage: nat,
    button: Button,
    controlsVisible: bool,
    easeBacks: nat)                 // camera ease-back tweens requested

  /** One control-panel input, by the configuration key it writes. */
  datatype Change =
    | ColorScheme(scheme: string)
    | ParticleSize(size: real)
    | ParticleCount(count: nat)
    | Speed(speed: real)
    | HeartZoom(zoom: real)
    | BorderColorScheme(scheme: string)
    | FloatingHeartColor(color: string)

  datatype Event =
    | AnimationFrame(elapsed: real, avgFrequency: real, trig: Frame.Trig)
    | StartClicked(rnd: Source)
    | MusicLoaded
    | MusicFailed
    | SongEnded
    | ModelLoaded
    | IntervalFired(handle: nat, rnd: Source)
    | LeftRevealDue
    | RightRevealDue
    | ImageExpired(id: nat)
    | Resized(clientWidth: int, clientHeight: int, innerWidth: int)
    | ControlInput(change: Change, rnd: Source)

  ghost predicate EventOk(e: Event)
  {
    match e
    case StartClicked(rnd) => IsSource(rnd)
    case IntervalFired(_, rnd) => IsSource(rnd)
    case ControlInput(_, rnd) => IsSource(rnd)
    case _ => true
  }

  /** The spawner slot holds the only live custom-image interval. */
  predicate SpawnerTracked(w: World)
  {
    && (w.spawner.Some? ==>
          w.spawner.value in w.panels.timers.live && w.panels.timers.live[w.spawner.value].SpawnImages?)
    && forall h :: h in w.panels.timers.live && w.panels.timers.live[h].SpawnImages? ==> w.spawner == Some(h)
  }

  /** The heart's uniforms and particles follow the configuration. */
  predicate HeartSynced(w: World)
  {
    && w.heart.size == w.config.particleSize
    && w.heart.radius == w.config.heartZoom
    && |w.heart.particles| == w.config.particleCount
    && forall p :: p in w.heart.particles ==> Particles.HeartInRange(p, Particles.Palette(w.config.colorScheme))
  }

  predicate Inv(w: World)
  {
    && Tracked(w.panels)
    && SpawnerTracked(w)
    && HeartSynced(w)
    // a pressable start button means nothing is running, spawning or loading
    && (w.button.enabled ==> w.spawner.None? && !w.frame.isRunning && !w.loading)
    && (w.loading ==> !w.frame.hasAnalyser)
    && Frame.MinCameraZ <= w.frame.cameraZ <= Frame.MaxCameraZ
    && w.frame.data >= 0.0
  }

  /** No live interval of either kind. */
  predicate Quiet(t: Timers)
  {
    t.live == map[]
  }

  function HeartOf(c: Config, rnd: Source): (h: Heart)
    requires IsSource(rnd)
    ensures h.size == c.particleSize && h.radius == c.heartZoom
    ensures |h.particles| == c.particleCount
    ensures forall p :: p in h.particles ==> Particles.HeartInRange(p, Particles.Palette(c.colorScheme))
  {
    var rs := Take(rnd, Particles.Draws * c.particleCount);
    var ps := Particles.HeartField(c.particleCount, c.colorScheme, rs);
    assert forall p :: p in ps ==> Particles.HeartInRange(p, Particles.Palette(c.colorScheme)) by {
      forall p | p in ps
        ensures Particles.HeartInRange(p, Particles.Palette(c.colorScheme))
      {
        var i :| 0 <= i < |ps| && ps[i] == p;
      }
    }
    Heart(c.particleSize, c.heartZoom, ps)
  }

  /** `addSnow`, drawing from `rnd` after the first `skip` values. */
  function SnowOf(rnd: Source, skip: nat): (snow: seq<Particles.SnowParticle>)
    requires IsSource(rnd)
    ensures |snow| == Particles.SnowCount && forall p :: p in snow ==> Particles.SnowInRange(p)
  {
    var later: Source := (k: nat) => rnd(skip + k);
    assert IsSource(later);
    var snow := Particles.SnowField(Take(later, Particles.Draws * Particles.SnowCount));
    assert forall p :: p in snow ==> Particles.SnowInRange(p) by {
      forall p | p in snow
        ensures Particles.SnowInRange(p)
      {
        var i :| 0 <= i < |snow| && snow[i] == p;
      }
    }
    snow
  }

  /** `setupControls`' two initial style calls: the border colour for the
      never-set scheme (read as the key "undefined", so the default pink),
      then the default floating-heart colour. */
  function InitialStyles(body: Classes): (r: Styles.BorderResult)
    ensures Styles.FloatingClass("original") in r.classes
    ensures BorderRainbow !in r.classes
    ensures r.vars == Styles.BorderVars(Some(Styles.DefaultBorder.border), Some(Styles.DefaultBorder.shadow))
  {
    var bordered := Styles.UpdateBorderColor(body, "undefined");
    assert IsToken(Styles.FloatingClass("original"));
    var coloured := Styles.UpdateFloatingHeartColor(bordered.classes, "original");
    assert BorderRainbow != Styles.FloatingClass("original");
    assert BorderRainbow !in Styles.KnownFloatingClasses();
    Styles.BorderResult(coloured, bordered.vars)
  }

  /** The constructor up to its layout call: the configuration (particle
      count from the window's inner size), the heart and the snow, the
      initial styles, both typing slots empty and no reveal pending,
      whatever `text` carried. */
  function Constructed(innerWidth: int, innerHeight: int, text: Text, body: Classes, caption: string,
                       rnd: Source): (w: World)
    requires IsSource(rnd)
    ensures Inv(w)
    ensures w.panels.text == text.(leftSlot := None, rightSlot := None, leftDue := 0, rightDue := 0)
    ensures w.config.particleCount == Layout.InitialParticleCount(innerWidth, innerHeight)
    ensures w.config.colorScheme == "tim1_original" && w.config.speed == 0.0005
    ensures |w.snow| == Particles.SnowCount && forall p :: p in w.snow ==> Particles.SnowInRange(p)
    ensures Layout.IsFloatingToken(Styles.FloatingClass("original")) && Styles.FloatingClass("original") in w.body
    ensures w.border == Styles.BorderVars(Some(Styles.DefaultBorder.border), Some(Styles.DefaultBorder.shadow))
    ensures w.button.enabled && Quiet(w.panels.timers) && w.images == [] && !w.frame.isRunning
  {
    var config := Config(Layout.InitialParticleCount(innerWidth, innerHeight), 0.2, 0.0005, "tim1_original",
                         0.08, "original", None);
    var styled := InitialStyles(body);
    var cleared := text.(leftSlot := None, rightSlot := None, leftDue := 0, rightDue := 0);
    assert Layout.IsFloatingToken(Styles.FloatingClass("original"));
    World(config, Frame.InitialFrame(), false, false, None, HeartOf(config, rnd),
          SnowOf(rnd, Particles.Draws * config.particleCount), styled.classes, styled.vars,
          Reveal(cleared, NoTimers()), None, Placement.Finite(Placement.Unset), innerWidth, [], 0,
          Button(true, true, caption), true, 0)
  }

  /** The constructor: the constructed state, laid out for the document's
      client size. */
  function InitialWorld(clientWidth: int, clientHeight: int, innerWidth: int, innerHeight: int,
                        text: Text, body: Classes, caption: string, rnd: Source): (w: World)
    requires IsSource(rnd)
    ensures Inv(w)
    ensures w.panels.text == text.(leftSlot := None, rightSlot := None, leftDue := 0, rightDue := 0)
    ensures w.config.particleCount == Layout.InitialParticleCount(innerWidth, innerHeight)
    ensures w.config.heartZoom == Layout.LayoutProfile(clientWidth, clientHeight).heartZoom
    ensures w.config.particleSize == Layout.LayoutProfile(clientWidth, clientHeight).particleSize
    ensures w.config.colorScheme == "tim1_original" && w.config.speed == 0.0005
    ensures |w.snow| == Particles.SnowCount && forall p :: p in w.snow ==> Particles.SnowInRange(p)
    ensures Styles.FloatingClass("original") in w.body
    ensures w.border == Styles.BorderVars(Some(Styles.DefaultBorder.border), Some(Styles.DefaultBorder.shadow))
    ensures w.button.enabled && Quiet(w.panels.timers) && w.images == [] && !w.frame.isRunning
  {
    Relayout(Constructed(innerWidth, innerHeight, text, body, caption, rnd), clientWidth, clientHeight, innerWidth)
  }

  /** `updateLayoutBasedOnScreen` after a resize: the layout class decides
      the zoom and the particle size, which go to both the configuration and
      the heart's uniforms, and the body classes are rebuilt around the
      layout tokens. */
  function Relayout(w: World, clientWidth: int, clientHeight: int, innerWidth: int): (r: World)
    requires Inv(w)
    ensures Inv(r)
    ensures var p := Layout.LayoutProfile(clientWidth, clientHeight);
      r.config == w.config.(heartZoom := p.heartZoom, particleSize := p.particleSize) &&
      r.heart == w.heart.(size := p.particleSize, radius := p.heartZoom)
    ensures r.body == Layout.Relayout(Layout.Classify(clientWidth, clientHeight), w.body)
    ensures forall t :: t in w.body && Layout.IsFloatingToken(t) ==> t in r.body
    ensures r.(config := w.config, heart := w.heart, body := w.body, innerWidth := w.innerWidth) == w
  {
    var c := Layout.Classify(clientWidth, clientHeight);
    var p := Layout.LayoutProfile(clientWidth, clientHeight);
    w.(config := w.config.(heartZoom := p.heartZoom, particleSize := p.particleSize),
       heart := w.heart.(size := p.particleSize, radius := p.heartZoom),
       body := Layout.Relayout(c, w.body),
       innerWidth := innerWidth)
  }

  /** `spawnCustomImage`: source, offset and width from three draws, the
      removal timeout's lifetime from the fourth; the offset is remembered
      for the next image. */
  function SpawnImage(w: World, rnd: Source): (r: World)
    requires IsSource(rnd)
    ensures |r.images| == |w.images| + 1 && r.images[..|w.images|] == w.images
    ensures var shown := r.images[|w.images|];
      && shown.id == w.nextImage
      && 0 <= shown.image.source < Placement.ImageSources
      && 100.0 <= shown.image.width < 150.0
      && 12000.0 <= shown.lifetime < 14000.0
      && shown.image.left == Placement.PlaceImage(w.lastLeft, w.innerWidth, rnd(1))
      && r.lastLeft == shown.image.left
    ensures r.(images := w.images, lastLeft := w.lastLeft, nextImage := w.nextImage) == w
  {
    var image := Placement.Spawn(w.lastLeft, w.innerWidth, Take(rnd, 3));
    var shown := ShownImage(w.nextImage, image, 12000.0 + rnd(3) * 2000.0);
    w.(images := w.images + [shown], lastLeft := image.left, nextImage := w.nextImage + 1)
  }

  /** The finish side effects of a frame: the reveal is reset, the spawner
      is stopped and forgotten, every custom image is removed, the start
      button and the controls come back, and the camera eases back. */
  function Finish(w: World): (r: World)
    requires Tracked(w.panels) && SpawnerTracked(w)
    ensures Tracked(r.panels) && SpawnerTracked(r)
    ensures r.spawner.None?
    ensures forall h :: h in r.panels.timers.live ==> !r.panels.timers.live[h].Typing? && !r.panels.timers.live[h].SpawnImages?
    ensures r.panels.text.leftDue == w.panels.text.leftDue && r.panels.text.rightDue == w.panels.text.rightDue
    ensures r.images == [] && r.button == Button(true, true, StartLabel) && r.controlsVisible
    ensures r.easeBacks == w.easeBacks + 1
    ensures r.(panels := w.panels, spawner := w.spawner, images := w.images, button := w.button,
               controlsVisible := w.controlsVisible, easeBacks := w.easeBacks) == w
  {
    var reset := ResetText(w.panels);
    var timers := ClearInterval(reset.timers, w.spawner);
    TrackedOtherTimers(reset, timers);
    w.(panels := Reveal(reset.text, timers), spawner := None, images := [],
       button := Button(true, true, StartLabel), controlsVisible := true, easeBacks := w.easeBacks + 1)
  }

  /** One animation frame: the frame step reads whether the song is still
      playing; the frame on which it has stopped runs the finish. */
  function OnFrame(w: World, elapsed: real, avgFrequency: real, trig: Frame.Trig): (r: World)
    requires Inv(w)
    ensures Inv(r)
    ensures var tick := Frame.FrameStep(w.frame, Frame.Inputs(elapsed, avgFrequency, w.soundPlaying, w.config.speed, w.config.heartZoom), trig);
      && r.frame == tick.frame
      && (tick.finished <==> Frame.Running(w.frame) && !w.soundPlaying)
      && (!tick.finished ==> r == w.(frame := tick.frame))
      && (tick.finished ==>
            && r.spawner.None? && r.images == [] && !r.frame.isRunning
            && r.button == Button(true, true, StartLabel) && r.controlsVisible
            && r.easeBacks == w.easeBacks + 1
            && forall h :: h in r.panels.timers.live ==> !r.panels.timers.live[h].Typing? && !r.panels.timers.live[h].SpawnImages?)
  {
    var tick := Frame.FrameStep(w.frame, Frame.Inputs(elapsed, avgFrequency, w.soundPlaying, w.config.speed, w.config.heartZoom), trig);
    var w1 := w.(frame := tick.frame);
    if tick.finished then Finish(w1) else w1
  }

  /** The start button's click handler. A disabled button ignores the click.
      Otherwise the button and the controls fade out, the text reveal is
      scheduled, one custom image appears at once and the spawner starts
      with a period in [1000, 1500) ms. With the music already loaded the
      song restarts from a new `t0` with zero loudness; without it the
      music load begins. */
  function Start(w: World, rnd: Source): (r: World)
    requires Inv(w) && IsSource(rnd)
    ensures Inv(r)
    ensures !w.button.enabled ==> r == w
    ensures w.button.enabled ==>
      && !r.button.enabled && !r.button.visible && !r.controlsVisible
      && r.panels.text == StartText(w.panels.text)
      && r.spawner.Some? && r.panels.timers.live[r.spawner.value] == SpawnImages(1000.0 + rnd(4) * 500.0)
      && 1000.0 <= r.panels.timers.live[r.spawner.value].period < 1500.0
      && |r.images| == |w.images| + 1
      && r.lastLeft == Placement.PlaceImage(w.lastLeft, w.innerWidth, rnd(1))
      && (w.frame.hasAnalyser ==>
            && r.frame == w.frame.(isRunning := true, data := 0.0, time := w.frame.time.(t0 := w.frame.time.elapsed))
            && r.soundPlaying && !r.loading && r.button.caption == w.button.caption)
      && (!w.frame.hasAnalyser ==>
            r.frame == w.frame && r.loading && r.button.caption == LoadingLabel && r.soundPlaying == w.soundPlaying)
  {
    if !w.button.enabled then w
    else
      var w1 := w.(button := w.button.(enabled := false, visible := false), controlsVisible := false,
                   panels := w.panels.(text := StartText(w.panels.text)));
      var w2 := SpawnImage(w1, rnd);
      var started := SetInterval(w2.panels.timers, SpawnImages(1000.0 + rnd(4) * 500.0));
      assert Random.IsUnit(rnd(4));
      TrackedOtherTimers(w2.panels, started.timers);
      var w3 := w2.(panels := w2.panels.(timers := started.timers), spawner := Some(started.handle));
      if w.frame.hasAnalyser then
        w3.(soundPlaying := true,
            frame := w.frame.(isRunning := true, data := 0.0, time := w.frame.time.(t0 := w.frame.time.elapsed)))
      else
        w3.(button := w3.button.(caption := LoadingLabel), loading := true)
  }

  /** The music load succeeded: the song plays, the analyser exists and the
      frame is running. As written, the load stores the clock in a stray
      `t0` field rather than `time.t0`, so the song clock keeps its old
      origin. The button only changes its caption; it stays disabled. */
  function OnMusicLoaded(w: World): (r: World)
    requires Inv(w)
    ensures Inv(r)
    ensures !w.loading ==> r == w
    ensures w.loading ==>
      && r.frame == w.frame.(hasAnalyser := true, isRunning := true)
      && r.frame.time.t0 == w.frame.time.t0
      && r.strayT0 == Some(w.frame.time.elapsed)
      && r.soundPlaying && !r.loading
      && r.button == w.button.(caption := StartLabel) && !r.button.enabled
  {
    if !w.loading then w
    else
      w.(frame := w.frame.(hasAnalyser := true, isRunning := true), soundPlaying := true,
         strayT0 := Some(w.frame.time.elapsed), loading := false, button := w.button.(caption := StartLabel))
  }

  /** The music load failed: only the caption changes. */
  function OnMusicFailed(w: World): (r: World)
    requires Inv(w)
    ensures Inv(r)
    ensures !w.loading ==> r == w
    ensures w.loading ==> r == w.(loading := false, button := w.button.(caption := FailedLabel)) && !r.button.enabled
  {
    if !w.loading then w
    else w.(loading := false, button := w.button.(caption := FailedLabel))
  }

  /** A live interval fired: a typing interval takes one reveal tick, the
      spawner adds an image; a stopped interval does nothing. */
  function OnInterval(w: World, h: nat, rnd: Source): (r: World)
    requires Inv(w) && IsSource(rnd)
    ensures Inv(r)
    ensures h !in w.panels.timers.live ==> r == w
    ensures h in w.panels.timers.live && w.panels.timers.live[h].SpawnImages? ==>
      && w.spawner == Some(h)
      && |r.images| == |w.images| + 1
      && r.lastLeft == Placement.PlaceImage(w.lastLeft, w.innerWidth, rnd(1))
      && r.panels == w.panels
    ensures h in w.panels.timers.live && w.panels.timers.live[h].Typing? ==>
      r == w.(panels := TypingTick(w.panels, h))
  {
    if h !in w.panels.timers.live then w
    else if w.panels.timers.live[h].SpawnImages? then SpawnImage(w, rnd)
    else
      var ticked := TypingTick(w.panels, h);
      TypingTickKeepsSpawner(w, h);
      w.(panels := ticked)
  }

  /** A typing tick leaves the spawner's interval alone. */
  lemma TypingTickKeepsSpawner(w: World, h: nat)
    requires Inv(w) && h in w.panels.timers.live && w.panels.timers.live[h].Typing?
    ensures SpawnerTracked(w.(panels := TypingTick(w.panels, h)))
  {
    TickLeavesOthers(w.panels, h);
  }

  /** A pending delayed start of one panel's reveal runs. */
  function OnRevealDue(w: World, p: Panel): (r: World)
    requires Inv(w)
    ensures Inv(r)
    ensures p == Left ==> r == w.(panels := LeftDueFires(w.panels))
    ensures p == Right ==> r == w.(panels := RightDueFires(w.panels))
  {
    RevealDueKeepsSpawner(w.panels, p);
    w.(panels := if p == Left then LeftDueFires(w.panels) else RightDueFires(w.panels))
  }

  /** A delayed reveal start keeps every live non-typing interval and adds
      none. */
  lemma RevealDueKeepsSpawner(s: Reveal, p: Panel)
    requires Tracked(s)
    ensures var r := if p == Left then LeftDueFires(s) else RightDueFires(s);
      forall h :: (h in r.timers.live && !r.timers.live[h].Typing? <==> h in s.timers.live && !s.timers.live[h].Typing?)
    ensures var r := if p == Left then LeftDueFires(s) else RightDueFires(s);
      forall h :: h in r.timers.live && !r.timers.live[h].Typing? ==> r.timers.live[h] == s.timers.live[h]
  {
    if p == Left && s.text.leftDue > 0 {
      var s1 := s.(text := s.text.(leftDue := s.text.leftDue - 1));
      assert LeftDueFires(s) == Typewrite(s1, Left, s.text.leftText, LeftDuration, ScheduleRight);
      TypewriteKeepsOthers(s1, Left, s.text.leftText, LeftDuration, ScheduleRight);
    } else if p == Right && s.text.rightDue > 0 {
      var s1 := s.(text := s.text.(rightDue := s.text.rightDue - 1, right := s.text.right.(shown := true)));
      assert RightDueFires(s) == Typewrite(s1, Right, s.text.rightText, RightDuration, NoCallback);
      TypewriteKeepsOthers(s1, Right, s.text.rightText, RightDuration, NoCallback);
    }
  }

  /** `typewriter` touches typing intervals only. */
  lemma TypewriteKeepsOthers(s: Reveal, p: Panel, text: string, duration: real, onDone: Completion)
    requires Tracked(s)
    ensures var r := Typewrite(s, p, text, duration, onDone);
      forall h :: (h in r.timers.live && !r.timers.live[h].Typing? <==> h in s.timers.live && !s.timers.live[h].Typing?)
    ensures var r := Typewrite(s, p, text, duration, onDone);
      forall h :: h in r.timers.live && !r.timers.live[h].Typing? ==> r.timers.live[h] == s.timers.live[h]
  {
  }

  /** The images other than the one whose removal timeout fired. */
  function Expire(images: seq<ShownImage>, id: nat): (r: seq<ShownImage>)
    ensures forall x :: x in r <==> x in images && x.id != id
    ensures |r| <= |images|
  {
    if |images| == 0 then []
    else if images[0].id == id then Expire(images[1..], id)
    else [images[0]] + Expire(images[1..], id)
  }

  /** A new colour scheme or particle count rebuilds the heart from the
      configuration and restarts its animation clock. */
  function Rebuild(w: World, config: Config, rnd: Source): (r: World)
    requires Inv(w) && IsSource(rnd)
    ensures Inv(r)
    ensures r.config == config && r.heart == HeartOf(config, rnd) && r.frame == w.frame.(heartTime := 0.0)
    ensures r.(config := w.config, heart := w.heart, frame := w.frame) == w
  {
    w.(config := config, heart := HeartOf(config, rnd), frame := w.frame.(heartTime := 0.0))
  }

  /** The controls that write the heart's configuration. */
  predicate TunesHeart(change: Change)
  {
    !change.BorderColorScheme? && !change.FloatingHeartColor?
  }

  /** The heart-side keys of `updateControl`. */
  function Retune(w: World, change: Change, rnd: Source): (r: World)
    requires Inv(w) && IsSource(rnd) && TunesHeart(change)
    ensures Inv(r)
    ensures change.ColorScheme? ==> r == Rebuild(w, w.config.(colorScheme := change.scheme), rnd)
    ensures change.ParticleCount? ==> r == Rebuild(w, w.config.(particleCount := change.count), rnd)
    ensures change.ParticleSize? ==>
      r == w.(config := w.config.(particleSize := change.size), heart := w.heart.(size := change.size))
    ensures change.Speed? ==> r == w.(config := w.config.(speed := change.speed))
    ensures change.HeartZoom? ==>
      r == w.(config := w.config.(heartZoom := change.zoom), heart := w.heart.(radius := change.zoom))
  {
    match change
    case ColorScheme(scheme) => Rebuild(w, w.config.(colorScheme := scheme), rnd)
    case ParticleCount(count) => Rebuild(w, w.config.(particleCount := count), rnd)
    case ParticleSize(size) =>
      w.(config := w.config.(particleSize := size), heart := w.heart.(size := size))
    case Speed(speed) =>
      w.(config := w.config.(speed := speed))
    case HeartZoom(zoom) =>
      w.(config := w.config.(heartZoom := zoom), heart := w.heart.(radius := zoom))
  }

  /** The page-style keys of `updateControl`: they touch the body classes
      and the border variables only. */
  function Restyle(w: World, change: Change): (r: World)
    requires Inv(w) && !TunesHeart(change)
    ensures Inv(r)
    ensures change.BorderColorScheme? ==>
      && r.config == w.config.(borderColorScheme := Some(change.scheme))
      && (BorderRainbow in r.body <==> change.scheme == "rainbow")
      && r.border == Styles.UpdateBorderColor(w.body, change.scheme).vars
    ensures change.FloatingHeartColor? ==>
      && r.config == w.config.(floatingHeartColor := change.color)
      && (IsToken(Styles.FloatingClass(change.color)) ==> Styles.FloatingClass(change.color) in r.body)
      && (forall c :: c in Styles.FloatingColors && c != change.color ==> Styles.FloatingClass(c) !in r.body)
      && r.border == w.border
    ensures r.(config := w.config, body := w.body, border := w.border) == w
  {
    match change
    case BorderColorScheme(scheme) =>
      var b := Styles.UpdateBorderColor(w.body, scheme);
      w.(config := w.config.(borderColorScheme := Some(scheme)), body := b.classes, border := b.vars)
    case FloatingHeartColor(color) =>
      w.(config := w.config.(floatingHeartColor := color), body := Styles.UpdateFloatingHeartColor(w.body, color))
  }

  /** `updateControl`'s input handler: the key is written to the
      configuration, then the key's side effect runs. */
  function Dispatch(w: World, change: Change, rnd: Source): (r: World)
    requires Inv(w) && IsSource(rnd)
    ensures Inv(r)
    ensures change.ColorScheme? ==>
      && r.config == w.config.(colorScheme := change.scheme)
      && r.heart == HeartOf(r.config, rnd) && r.frame == w.frame.(heartTime := 0.0)
    ensures change.ParticleCount? ==>
      && r.config == w.config.(particleCount := change.count)
      && r.heart == HeartOf(r.config, rnd) && r.frame == w.frame.(heartTime := 0.0)
    ensures change.ParticleSize? ==>
      r == w.(config := w.config.(particleSize := change.size), heart := w.heart.(size := change.size))
    ensures change.Speed? ==> r == w.(config := w.config.(speed := change.speed))
    ensures change.HeartZoom? ==>
      r == w.(config := w.config.(heartZoom := change.zoom), heart := w.heart.(radius := change.zoom))
    ensures change.BorderColorScheme? ==>
      && r.config == w.config.(borderColorScheme := Some(change.scheme))
      && (BorderRainbow in r.body <==> change.scheme == "rainbow")
      && r.border == Styles.UpdateBorderColor(w.body, change.scheme).vars
    ensures change.FloatingHeartColor? ==>
      && r.config == w.config.(floatingHeartColor := change.color)
      && (IsToken(Styles.FloatingClass(change.color)) ==> Styles.FloatingClass(change.color) in r.body)
      && (forall c :: c in Styles.FloatingColors && c != change.color ==> Styles.FloatingClass(c) !in r.body)
      && r.border == w.border
    ensures r.frame.isRunning == w.frame.isRunning
  {
    if TunesHeart(change) then Retune(w, change, rnd) else Restyle(w, change)
  }

  /** The frame on which `e` arrives is the one that finishes the song. */
  predicate Finishes(w: World, e: Event)
  {
    e.AnimationFrame? && Frame.Running(w.frame) && !w.soundPlaying
  }

  /** Only the start button and the music load make the frame run. */
  predicate Starts(e: Event)
  {
    e.StartClicked? || e.MusicLoaded?
  }

  /** The events that belong to the song's life cycle. */
  predicate Lifecycle(e: Event)
  {
    e.AnimationFrame? || e.StartClicked? || e.MusicLoaded? || e.MusicFailed? || e.SongEnded?
  }

  /** The song's life cycle: frames, the start button, the music load and
      the song's end. */
  function LifecycleStep(w: World, e: Event): (r: World)
    requires Inv(w) && EventOk(e) && Lifecycle(e)
    ensures Inv(r)
    ensures !Starts(e) && r.frame.isRunning ==> w.frame.isRunning
    ensures Finishes(w, e) ==> !r.frame.isRunning && r.spawner.None? && r.images == [] && r.button.enabled
    ensures e.AnimationFrame? && !Finishes(w, e) ==> r.frame.isRunning == w.frame.isRunning
  {
    match e
    case AnimationFrame(elapsed, avg, trig) => OnFrame(w, elapsed, avg, trig)
    case StartClicked(rnd) => Start(w, rnd)
    case MusicLoaded => OnMusicLoaded(w)
    case MusicFailed => OnMusicFailed(w)
    case SongEnded => w.(soundPlaying := false)
  }

  /** Every other event: the model load, timer callbacks, resizes and the
      controls. None of them starts or stops the frame. */
  function AmbientStep(w: World, e: Event): (r: World)
    requires Inv(w) && EventOk(e) && !Lifecycle(e)
    ensures Inv(r)
    ensures r.frame.isRunning == w.frame.isRunning
  {
    match e
    case ModelLoaded =>
      if w.frame.model.Some? then w else w.(frame := w.frame.(model := Some(Frame.Pose(0.0, 0.0))))
    case IntervalFired(h, rnd) => OnInterval(w, h, rnd)
    case LeftRevealDue => OnRevealDue(w, Left)
    case RightRevealDue => OnRevealDue(w, Right)
    case ImageExpired(id) => w.(images := Expire(w.images, id))
    case Resized(cw, ch, iw) => Relayout(w, cw, ch, iw)
    case ControlInput(change, rnd) => Dispatch(w, change, rnd)
  }

  /** Every event handler. Only the start button and the music load set the
      frame running; the finishing frame stops it and leaves the start
      button pressable. */
  function Step(w: World, e: Event): (r: World)
    requires Inv(w) && EventOk(e)
    ensures Inv(r)
    ensures !Starts(e) && r.frame.isRunning ==> w.frame.isRunning
    ensures Finishes(w, e) ==> !r.frame.isRunning && r.spawner.None? && r.images == [] && r.button.enabled
    ensures e.AnimationFrame? && !Finishes(w, e) ==> r.frame.isRunning == w.frame.isRunning
  {
    if Lifecycle(e) then LifecycleStep(w, e) else AmbientStep(w, e)
  }

  ghost predicate AllOk(es: seq<Event>)
  {
    forall k :: 0 <= k < |es| ==> EventOk(es[k])
  }

  /** A sequence of events, handled in order. */
  function Run(w: World, es: seq<Event>): (r: World)
    requires Inv(w) && AllOk(es)
    ensures Inv(r)
    decreases |es|
  {
    if |es| == 0 then w else Run(Step(w, es[0]), es[1..])
  }

  /** How many of the events finish the song. */
  function FinishCount(w: World, es: seq<Event>): nat
    requires Inv(w) && AllOk(es)
    decreases |es|
  {
    if |es| == 0 then 0
    else (if Finishes(w, es[0]) then 1 else 0) + FinishCount(Step(w, es[0]), es[1..])
  }

  predicate NoStarts(es: seq<Event>)
  {
    forall k :: 0 <= k < |es| ==> !Starts(es[k])
  }

  /** A stopped world stays stopped, and never finishes, until the start
      button or the music load runs it again. */
  lemma {:induction false} StoppedStaysStopped(w: World, es: seq<Event>)
    requires Inv(w) && AllOk(es) && NoStarts(es) && !w.frame.isRunning
    ensures FinishCount(w, es) == 0
    ensures !Run(w, es).frame.isRunning
    decreases |es|
  {
    if |es| > 0 {
      assert !Starts(es[0]) && EventOk(es[0]);
      assert AllOk(es[1..]) && NoStarts(es[1..]) by {
        forall k | 0 <= k < |es[1..]|
          ensures EventOk(es[1..][k]) && !Starts(es[1..][k])
        {
          assert es[1..][k] == es[k + 1];
        }
      }
      StoppedStaysStopped(Step(w, es[0]), es[1..]);
    }
  }

  /** Between two starts the song finishes at most once, and after it has
      finished nothing is running. */
  lemma {:induction false} FinishAtMostOnceBetweenStarts(w: World, es: seq<Event>)
    requires Inv(w) && AllOk(es) && NoStarts(es)
    ensures FinishCount(w, es) <= 1
    ensures FinishCount(w, es) == 1 ==> !Run(w, es).frame.isRunning
    decreases |es|
  {
    if |es| > 0 {
      assert EventOk(es[0]);
      assert AllOk(es[1..]) && NoStarts(es[1..]) by {
        forall k | 0 <= k < |es[1..]|
          ensures EventOk(es[1..][k]) && !Starts(es[1..][k])
        {
          assert es[1..][k] == es[k + 1];
        }
      }
      if Finishes(w, es[0]) {
        StoppedStaysStopped(Step(w, es[0]), es[1..]);
      } else {
        FinishAtMostOnceBetweenStarts(Step(w, es[0]), es[1..]);
      }
    }
  }
}
