/** The white theme's background: a cloud of 1000 points that turns slowly and
    cycles its colour while the assistant is typing. The state of one instance
    is the value `Ambient`; the functions below say what each method does to
    it, and the class `BackgroundAnimation` is proved to do exactly that. */
module AmbientAnimation {
  import opened Host

  const PARTICLE_COUNT: nat := 1000
  const PARTICLE_COLOR: int := 0x007bff
  /** The cube the particles start in has this side, centred on the origin. */
  const SPREAD: real := 5.0
  const ROTATION_STEP: real := 0.0005
  const COLOR_STEP: real := 0.03

  /** The particle material's colour: a hex constant, or `hsl(hue, 100%, 50%)`. */
  datatype Color = Hex(rgb: int) | Hsl(hue: real, saturation: nat, lightness: nat)

  /** One instance's state. */
  datatype Ambient = Ambient(
    isDestroyed: bool,
    isAgentTyping: bool,
    colorPhase: real,
    stage: Stage,
    mesh: Resource,
    rotationX: real,
    rotationY: real,
    color: Color,
    positions: seq<real>)

  /** The fields the constructor sets before it builds anything. */
  const Unbuilt := Ambient(false, false, 0.0, NoStage, Absent, 0.0, 0.0, Hex(PARTICLE_COLOR), [])

  /** `(Math.random() - 0.5) * spread`: a coordinate in [-spread/2, spread/2). */
  function Coordinate(r: real, spread: real): (c: real)
    requires 0.0 <= r < 1.0 && spread > 0.0
    ensures -spread / 2.0 <= c < spread / 2.0
  {
    (r - 0.5) * spread
  }

  /** The 3000 coordinates `createParticles` writes, one random draw each. */
  function InitialPositions(random: Draws): (p: seq<real>)
    ensures |p| == PARTICLE_COUNT * 3
    ensures forall i :: 0 <= i < |p| ==> p[i] == Coordinate(random(i), SPREAD)
    ensures forall i :: 0 <= i < |p| ==> -2.5 <= p[i] < 2.5
  {
    var p := seq(PARTICLE_COUNT * 3, i requires 0 <= i => Coordinate(random(i), SPREAD));
    assert forall i :: 0 <= i < |p| ==> p[i] == Coordinate(random(i), SPREAD);
    p
  }

  /** The loop of `createParticles` that fills a new position buffer. */
  method NewPositions(random: Draws) returns (a: array<real>)
    ensures fresh(a)
    ensures a[..] == InitialPositions(random)
  {
    a := new real[PARTICLE_COUNT * 3];
    var i := 0;
    while i < a.Length
      invariant 0 <= i <= a.Length
      invariant forall j :: 0 <= j < i ==> a[j] == Coordinate(random(j), SPREAD)
    {
      a[i] := Coordinate(random(i), SPREAD);
      i := i + 1;
    }
  }

  /** `(Math.sin(phase) * 0.5 + 0.5) * 360`, given the sine's value. */
  function Hue(sine: real): (h: real)
    requires -1.0 <= sine <= 1.0
    ensures 0.0 <= h <= 360.0
    ensures sine == 0.0 ==> h == 180.0
  {
    (sine * 0.5 + 0.5) * 360.0
  }

  /** `initializeScene`: the camera takes the container's aspect ratio; unless
      creating the renderer throws, a renderer sized to the window is attached
      to the container and the resize listener registered. */
  function SceneInitialized(s: Ambient, host: SceneHost): Ambient {
    var s := s.(stage := s.stage.(camera := Perspective(AspectOf(host.container.width, host.container.height))));
    if host.fault == RendererFault then s
    else s.(stage := s.stage.(renderer := WebGL(host.window.innerWidth, host.window.innerHeight, 1.0, false),
                              canvasAttached := true, listening := true))
  }

  /** `createParticles`: a new live mesh at rest, in the base colour. */
  function ParticlesCreated(s: Ambient, host: SceneHost): Ambient {
    if host.fault == FieldFault(0) then s
    else s.(mesh := Live, positions := InitialPositions(host.random),
            rotationX := 0.0, rotationY := 0.0, color := Hex(PARTICLE_COLOR))
  }

  /** Whether `initializeScene` and `createParticles` both complete. */
  predicate Builds(host: SceneHost) {
    host.fault != RendererFault && host.fault != FieldFault(0)
  }

  /** Both build steps; when one throws, `handleInitializationError` shows the fallback. */
  function Built(s: Ambient, host: SceneHost): Ambient {
    var s := SceneInitialized(s, host);
    if host.fault == RendererFault then s.(stage := s.stage.(fallback := true))
    else
      var s := ParticlesCreated(s, host);
      if host.fault == FieldFault(0) then s.(stage := s.stage.(fallback := true)) else s
  }

  /** The constructor: build, then start the loop with a first `animate`. */
  function Constructed(host: SceneHost, first: Tick, sin: Wave): Ambient {
    if Builds(host) then Animated(Built(Unbuilt, host), sin, first) else Built(Unbuilt, host)
  }

  /** The updates of one live `animate`: request the next frame, turn the
      mesh, and either advance the colour phase and recolour, or reset both. */
  function Advance(s: Ambient, sin: Wave): Ambient {
    var s := s.(stage := s.stage.(framePending := true));
    if s.mesh == Absent then s
    else
      var s := s.(rotationX := s.rotationX + ROTATION_STEP, rotationY := s.rotationY + ROTATION_STEP);
      if s.isAgentTyping then
        var phase := s.colorPhase + COLOR_STEP;
        s.(colorPhase := phase, color := Hsl(Hue(sin(phase)), 100, 50))
      else
        s.(color := Hex(PARTICLE_COLOR), colorPhase := 0.0)
  }

  /** `animate` when nothing throws: a destroyed instance returns at once. */
  function Step(s: Ambient, sin: Wave): Ambient {
    if s.isDestroyed then s else Advance(s, sin)
  }

  /** `animate`: when the step throws, `recoverFromError` follows. */
  function Animated(s: Ambient, sin: Wave, tick: Tick): Ambient {
    if !s.isDestroyed && tick.throws then Recovered(Advance(s, sin), tick.recovery)
    else Step(s, sin)
  }

  /** `cleanup`: destroyed, frame cancelled, renderer disposed and its canvas
      removed, the mesh disposed, the listener removed. */
  function CleanedUp(s: Ambient): Ambient {
    s.(isDestroyed := true,
       stage := s.stage.(framePending := false, renderer := s.stage.renderer.Disposed(),
                         canvasAttached := false, listening := false),
       mesh := s.mesh.Dispose())
  }

  /** `recoverFromError`: clean up, build again, then `animate`, which returns
      at once because nothing clears `isDestroyed`. */
  function Recovered(s: Ambient, host: SceneHost): Ambient {
    Built(CleanedUp(s), host)
  }

  /** `handleResize`: nothing once destroyed; otherwise the camera takes the
      window's aspect ratio and the renderer its size. */
  function Resized(s: Ambient, window: Window): Ambient {
    if s.isDestroyed || s.stage.camera == NoCamera then s
    else s.(stage := s.stage.(camera := Perspective(AspectOf(window.innerWidth, window.innerHeight)),
                              renderer := s.stage.renderer.Sized(window.innerWidth, window.innerHeight)))
  }

  /** `n` frames in which nothing throws. */
  function Run(s: Ambient, sin: Wave, n: nat): Ambient {
    if n == 0 then s else Step(Run(s, sin, n - 1), sin)
  }

  /** Frames driven by `ticks`, in order. */
  function Frames(s: Ambient, sin: Wave, ticks: seq<Tick>): Ambient
    decreases |ticks|
  {
    if ticks == [] then s else Frames(Animated(s, sin, ticks[0]), sin, ticks[1..])
  }

  /** The mesh exists exactly when the position buffer holds 3000 coordinates. */
  predicate Shaped(s: Ambient) {
    (s.mesh != Absent ==> |s.positions| == PARTICLE_COUNT * 3)
    && (s.mesh == Absent ==> s.positions == [])
    && (s.isDestroyed ==> !s.stage.framePending)
  }

  lemma ConstructedShaped(host: SceneHost, first: Tick, sin: Wave)
    ensures Shaped(Constructed(host, first, sin))
    ensures !Builds(host) ==> Constructed(host, first, sin).stage.fallback && !Constructed(host, first, sin).stage.framePending
  {
  }

  /** A complete build starts the loop. If its first frame does not throw,
      the instance is live: a frame pending, the listener registered, the
      canvas attached, the mesh turned once, not typing, and in the base
      colour at phase 0. If that frame throws, the instance ends destroyed
      with no frame pending. */
  lemma ConstructedLive(host: SceneHost, first: Tick, sin: Wave)
    requires Builds(host)
    ensures var s := Constructed(host, first, sin);
      && (s.isDestroyed <==> first.throws)
      && (first.throws ==> !s.stage.framePending)
      && (!first.throws ==>
            && s.stage.framePending && s.stage.listening && s.stage.canvasAttached
            && s.mesh == Live && s.rotationX == ROTATION_STEP && s.rotationY == ROTATION_STEP
            && !s.isAgentTyping && s.colorPhase == 0.0 && s.color == Hex(PARTICLE_COLOR))
  {
  }

  /** `handleResize` changes nothing once the instance is destroyed. */
  lemma DestroyedIgnoresResize(s: Ambient, window: Window)
    requires s.isDestroyed
    ensures Resized(s, window) == s
  {
  }

  /** No frame changes the buffer's length, and a frame never leaves a
      destroyed instance with a frame pending. */
  lemma FrameShaped(s: Ambient, sin: Wave, tick: Tick)
    requires Shaped(s)
    ensures Shaped(Animated(s, sin, tick))
  {
    if !s.isDestroyed && tick.throws {
      RecoveryShaped(Advance(s, sin), tick.recovery);
    }
  }

  /** Recovery leaves a destroyed instance, with no frame pending, whose
      buffer is empty or full. */
  lemma RecoveryShaped(s: Ambient, host: SceneHost)
    requires Shaped(s)
    ensures Shaped(Recovered(s, host))
    ensures Recovered(s, host).isDestroyed
  {
  }

  /** Neither a resize, a typing change nor cleanup changes the buffer's
      length, and a destroyed instance never has a frame pending. */
  lemma ShapePreserved(s: Ambient, window: Window, typing: bool)
    requires Shaped(s)
    ensures Shaped(Resized(s, window))
    ensures Shaped(s.(isAgentTyping := typing))
    ensures Shaped(CleanedUp(s))
  {
  }

  /** Each live frame without a fault turns the mesh by 0.0005 rad about x and y. */
  lemma {:induction false} RotationAfter(s: Ambient, sin: Wave, n: nat)
    requires !s.isDestroyed && s.mesh != Absent
    ensures Run(s, sin, n).rotationX == s.rotationX + ROTATION_STEP * n as real
    ensures Run(s, sin, n).rotationY == s.rotationY + ROTATION_STEP * n as real
    ensures !Run(s, sin, n).isDestroyed && Run(s, sin, n).mesh == s.mesh
  {
    if n > 0 {
      RotationAfter(s, sin, n - 1);
    }
  }

  /** While the assistant is typing the phase grows by exactly 0.03 per frame
      and the colour is an hsl hue in [0, 360]. */
  lemma {:induction false} PhaseWhileTyping(s: Ambient, sin: Wave, n: nat)
    requires !s.isDestroyed && s.mesh != Absent && s.isAgentTyping
    ensures Run(s, sin, n).colorPhase == s.colorPhase + COLOR_STEP * n as real
    ensures n > 0 ==> Run(s, sin, n).color.Hsl? && 0.0 <= Run(s, sin, n).color.hue <= 360.0
    ensures !Run(s, sin, n).isDestroyed && Run(s, sin, n).mesh == s.mesh && Run(s, sin, n).isAgentTyping
  {
    if n > 0 {
      PhaseWhileTyping(s, sin, n - 1);
    }
  }

  /** Under constant typing the phase strictly increases from frame to frame. */
  lemma PhaseStrictlyIncreases(s: Ambient, sin: Wave, m: nat, n: nat)
    requires !s.isDestroyed && s.mesh != Absent && s.isAgentTyping
    requires m < n
    ensures Run(s, sin, m).colorPhase < Run(s, sin, n).colorPhase
  {
    PhaseWhileTyping(s, sin, m);
    PhaseWhileTyping(s, sin, n);
  }

  /** While nobody types, every frame leaves the phase at exactly 0 and the
      colour at `PARTICLE_COLOR`: a hard reset, not a fade. */
  lemma {:induction false} PhaseWhileIdle(s: Ambient, sin: Wave, n: nat)
    requires !s.isDestroyed && s.mesh != Absent && !s.isAgentTyping
    requires n > 0
    ensures Run(s, sin, n).colorPhase == 0.0 && Run(s, sin, n).color == Hex(PARTICLE_COLOR)
    ensures !Run(s, sin, n).isDestroyed && Run(s, sin, n).mesh == s.mesh && !Run(s, sin, n).isAgentTyping
  {
    if n > 1 {
      PhaseWhileIdle(s, sin, n - 1);
    }
  }

  /** `setTyping` changes only the flag; the colour follows on the next frame. */
  lemma TypingTakesEffectNextFrame(s: Ambient, sin: Wave)
    requires !s.isDestroyed && s.mesh != Absent && !s.isAgentTyping && s.color == Hex(PARTICLE_COLOR)
    ensures var r := Step(s.(isAgentTyping := true), sin);
      && r.colorPhase == s.colorPhase + COLOR_STEP
      && r.color == Hsl(Hue(sin(r.colorPhase)), 100, 50) && r.color != s.color
  {
  }

  /** Once destroyed, any number of frames, faulty or not, change nothing. */
  lemma {:induction false} DestroyedIsQuiet(s: Ambient, sin: Wave, ticks: seq<Tick>)
    requires s.isDestroyed
    ensures Frames(s, sin, ticks) == s
    decreases |ticks|
  {
    if ticks != [] {
      DestroyedIsQuiet(s, sin, ticks[1..]);
    }
  }

  /** A fault in a live frame ends the loop for good: `recoverFromError`
      leaves the instance destroyed with no frame pending, later frames change
      nothing, and only a complete rebuild leaves a listener registered and a
      canvas attached (released by the next `cleanup`). */
  lemma FaultEndsTheLoop(s: Ambient, sin: Wave, tick: Tick, later: seq<Tick>)
    requires !s.isDestroyed && tick.throws
    ensures var r := Animated(s, sin, tick);
      && r.isDestroyed && !r.stage.framePending
      && Frames(r, sin, later) == r
      && r.stage.listening == (tick.recovery.fault != RendererFault)
      && (!Builds(tick.recovery) ==> r.stage.fallback)
  {
    DestroyedIsQuiet(Animated(s, sin, tick), sin, later);
  }

  /** `cleanup` twice leaves the same state as once. */
  lemma CleanupIdempotent(s: Ambient)
    ensures CleanedUp(CleanedUp(s)) == CleanedUp(s)
    ensures var t := CleanedUp(s).stage; !t.framePending && !t.listening && !t.canvasAttached
  {
  }

  /** Resizing a live instance with a camera sets the aspect ratio to the window's. */
  lemma ResizeSetsAspect(s: Ambient, window: Window)
    requires !s.isDestroyed && s.stage.camera.Perspective?
    ensures Resized(s, window).stage.camera.aspect * window.innerHeight as real == window.innerWidth as real
  {
  }

  /** The white theme's background animation. */
  class BackgroundAnimation {
    const sin: Wave
    var isDestroyed: bool
    var isAgentTyping: bool
    var colorPhase: real
    /** The frame token, the resize listener, the canvas, the fallback, the
        camera and the renderer. */
    var stage: Stage
    var mesh: Resource
    var rotationX: real
    var rotationY: real
    var color: Color
    /** The mesh geometry's position buffer. */
    var positions: seq<real>

    function State(): Ambient
      reads this
    {
      Ambient(isDestroyed, isAgentTyping, colorPhase, stage, mesh, rotationX, rotationY, color, positions)
    }

    constructor (host: SceneHost, first: Tick, sin: Wave)
      ensures this.sin == sin
      ensures State() == Constructed(host, first, sin)
    {
      this.sin := sin;
      isAgentTyping := false;
      colorPhase := 0.0;
      isDestroyed := false;
      stage, mesh := NoStage, Absent;
      rotationX, rotationY, color := 0.0, 0.0, Hex(PARTICLE_COLOR);
      positions := [];
      new;
      assert State() == Unbuilt;
      var ok := InitializeScene(host);
      if ok {
        ok := CreateParticles(host);
      }
      if ok {
        Animate(first);
      } else {
        HandleInitializationError();
      }
    }

    method HandleInitializationError()
      modifies this`stage
      ensures State() == old(State()).(stage := old(stage).(fallback := true))
    {
      stage := stage.(fallback := true);
    }

    method InitializeScene(host: SceneHost) returns (ok: bool)
      modifies this
      ensures ok == (host.fault != RendererFault)
      ensures State() == SceneInitialized(old(State()), host)
    {
      stage := stage.(camera := Perspective(AspectOf(host.container.width, host.container.height)));
      if host.fault == RendererFault {
        return false;
      }
      stage := stage.(renderer := WebGL(host.window.innerWidth, host.window.innerHeight, 1.0, false),
                      canvasAttached := true, listening := true);
      ok := true;
    }

    method HandleResize(window: Window)
      modifies this
      ensures State() == Resized(old(State()), window)
    {
      if isDestroyed {
        return;
      }
      if stage.camera == NoCamera {
        return;
      }
      stage := stage.(camera := Perspective(AspectOf(window.innerWidth, window.innerHeight)),
                      renderer := stage.renderer.Sized(window.innerWidth, window.innerHeight));
    }

    method CreateParticles(host: SceneHost) returns (ok: bool)
      modifies this
      ensures ok == (host.fault != FieldFault(0))
      ensures State() == ParticlesCreated(old(State()), host)
    {
      if host.fault == FieldFault(0) {
        return false;
      }
      var buffer := NewPositions(host.random);
      positions := buffer[..];
      mesh := Live;
      rotationX, rotationY := 0.0, 0.0;
      color := Hex(PARTICLE_COLOR);
      ok := true;
    }

    method Animate(tick: Tick)
      modifies this
      ensures State() == Animated(old(State()), sin, tick)
      decreases if isDestroyed then 0 else 2
    {
      if isDestroyed {
        return;
      }
      ghost var before := State();
      stage := stage.(framePending := true);
      if mesh != Absent {
        rotationX := rotationX + ROTATION_STEP;
        rotationY := rotationY + ROTATION_STEP;
        if isAgentTyping {
          colorPhase := colorPhase + COLOR_STEP;
          color := Hsl(Hue(sin(colorPhase)), 100, 50);
        } else {
          color := Hex(PARTICLE_COLOR);
          colorPhase := 0.0;
        }
      }
      assert State() == Advance(before, sin);
      if tick.throws {
        RecoverFromError(tick);
      }
    }

    method RecoverFromError(tick: Tick)
      modifies this
      ensures State() == Recovered(old(State()), tick.recovery)
      decreases 1
    {
      Cleanup();
      var ok := InitializeScene(tick.recovery);
      if ok {
        ok := CreateParticles(tick.recovery);
      }
      if ok {
        Animate(tick);
      } else {
        HandleInitializationError();
      }
    }

    method SetTyping(typing: bool)
      modifies this`isAgentTyping
      ensures State() == old(State()).(isAgentTyping := typing)
    {
      isAgentTyping := typing;
    }

    method Cleanup()
      modifies this
      ensures State() == CleanedUp(old(State()))
    {
      isDestroyed := true;
      stage := stage.(framePending := false, renderer := stage.renderer.Disposed(), canvasAttached := false);
      mesh := mesh.Dispose();
      stage := stage.(listening := false);
    }
  }
}
