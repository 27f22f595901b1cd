/** The dark theme's background: 3000 twinkling stars and a nebula of 1000
    deep-blue points that drift slowly, both turning as a clock advances. The
    state of one instance is the value `Starfield`; the functions below say
    what each method does to it, and the class `BackgroundAnimation` is
    proved to do exactly that. */
module StarfieldAnimation {
  import opened Host

  const STAR_COUNT: nat := 3000
  const NEBULA_COUNT: nat := 1000
  const STAR_SPREAD: real := 15.0
  const NEBULA_SPREAD: real := 12.0
  const STAR_SIZE_SCALE: real := 1.5
  const NEBULA_COLORS: seq<nat> := [0x1a237e, 0x0d47a1, 0x01579b]
  /** Each nebula colour channel is the palette channel dimmed to this share. */
  const NEBULA_DIMMING: real := 0.7
  const TIME_STEP: real := 0.0005
  const DRIFT: real := 0.0005
  const NEBULA_OPACITY: real := 0.3
  const NEBULA_TYPING_OPACITY: real := 0.4
  /** `createStars` draws four random numbers per star (x, y, z, size), so the
      nebula's draws start after these. */
  const NEBULA_FIRST_DRAW: nat := 4 * STAR_COUNT

  /** A Three.js points object: its state, its turn about x and y, its
      position buffer and its second buffer (sizes for the stars, colours for
      the nebula). */
  datatype Points = Points(
    status: Resource,
    rotationX: real,
    rotationY: real,
    positions: seq<real>,
    attribute: seq<real>)

  /** One instance's state. */
  datatype Starfield = Starfield(
    isDestroyed: bool,
    isAgentTyping: bool,
    time: real,
    stage: Stage,
    stars: Points,
    nebula: Points,
    nebulaOpacity: real)

  const NoPoints := Points(Absent, 0.0, 0.0, [], [])

  /** The fields the constructor sets before it builds anything. */
  const Unbuilt := Starfield(false, false, 0.0, NoStage,
                           NoPoints, NoPoints, NEBULA_OPACITY)

  /** `(Math.random() - 0.5) * spread`: a coordinate in [-spread/2, spread/2). */
  function Coordinate(r: Unit, spread: real): (c: real)
    requires spread > 0.0
    ensures -spread / 2.0 <= c < spread / 2.0
  {
    (r - 0.5) * spread
  }

  /** The draw that gives coordinate `j` of a buffer whose points take four
      draws each, the first three being x, y and z. */
  function PointDraw(first: nat, j: nat): nat {
    first + 4 * (j / 3) + j % 3
  }

  function StarCoordinate(random: Draws, j: nat): real {
    Coordinate(random(PointDraw(0, j)), STAR_SPREAD)
  }

  /** `Math.random() * 1.5`, the fourth draw of star `i`. */
  function StarSize(random: Draws, i: nat): (z: real)
    ensures 0.0 <= z < STAR_SIZE_SCALE
  {
    random(4 * i + 3) * STAR_SIZE_SCALE
  }

  /** The star positions `createStars` writes: 9000 coordinates in [-7.5, 7.5). */
  function InitialStarPositions(random: Draws): (p: seq<real>)
    ensures |p| == STAR_COUNT * 3
    ensures forall j :: 0 <= j < |p| ==> p[j] == StarCoordinate(random, j)
    ensures forall j :: 0 <= j < |p| ==> -7.5 <= p[j] < 7.5
  {
    var p := seq(STAR_COUNT * 3, j requires 0 <= j => StarCoordinate(random, j));
    assert forall j :: 0 <= j < |p| ==> p[j] == StarCoordinate(random, j);
    p
  }

  /** The star sizes `createStars` writes: 3000 sizes in [0, 1.5). */
  function InitialStarSizes(random: Draws): (z: seq<real>)
    ensures |z| == STAR_COUNT
    ensures forall i :: 0 <= i < |z| ==> z[i] == StarSize(random, i)
  {
    var z := seq(STAR_COUNT, i requires 0 <= i => StarSize(random, i));
    assert forall i :: 0 <= i < |z| ==> z[i] == StarSize(random, i);
    z
  }

  function NebulaCoordinate(random: Draws, j: nat): real {
    Coordinate(random(PointDraw(NEBULA_FIRST_DRAW, j)), NEBULA_SPREAD)
  }

  /** The nebula positions `createNebula` writes: 3000 coordinates in [-6, 6). */
  function InitialNebulaPositions(random: Draws): (p: seq<real>)
    ensures |p| == NEBULA_COUNT * 3
    ensures forall j :: 0 <= j < |p| ==> p[j] == NebulaCoordinate(random, j)
    ensures forall j :: 0 <= j < |p| ==> -6.0 <= p[j] < 6.0
  {
    var p := seq(NEBULA_COUNT * 3, j requires 0 <= j => NebulaCoordinate(random, j));
    assert forall j :: 0 <= j < |p| ==> p[j] == NebulaCoordinate(random, j);
    p
  }

  /** `Math.floor(Math.random() * NEBULA_COLORS.length)`: a palette index, the
      interval of [0, 1) the draw falls in. */
  function PaletteIndex(r: Unit): (k: nat)
    ensures k < |NEBULA_COLORS|
    ensures k as real <= r * |NEBULA_COLORS| as real < k as real + 1.0
  {
    (r * |NEBULA_COLORS| as real).Floor
  }

  /** Channel `k` (0 red, 1 green, 2 blue) of a 24-bit colour, as a fraction of 255. */
  function Channel(rgb: nat, k: nat): (c: real)
    requires k < 3
    ensures 0.0 <= c <= 1.0
  {
    var byte := if k == 0 then rgb / 0x10000 % 0x100 else if k == 1 then rgb / 0x100 % 0x100 else rgb % 0x100;
    byte as real / 255.0
  }

  /** Component `k` of a palette colour as `createNebula` stores it: the
      channel dimmed to 70 %. */
  function Tint(rgb: nat, k: nat): (c: real)
    requires k < 3
    ensures 0.0 <= c <= NEBULA_DIMMING
  {
    NEBULA_DIMMING * Channel(rgb, k)
  }

  /** The palette entry the fourth draw of nebula point `i` picks. */
  function PaletteColor(random: Draws, i: nat): nat {
    NEBULA_COLORS[PaletteIndex(random(NEBULA_FIRST_DRAW + 4 * i + 3))]
  }

  /** Colour component `j` of the nebula: channel `j % 3` of point `j / 3`'s
      palette entry, dimmed. */
  function NebulaTint(random: Draws, j: nat): real {
    Tint(PaletteColor(random, j / 3), j % 3)
  }

  /** The nebula colours `createNebula` writes. */
  function InitialNebulaColors(random: Draws): (c: seq<real>)
    ensures |c| == NEBULA_COUNT * 3
    ensures forall j :: 0 <= j < |c| ==> c[j] == NebulaTint(random, j)
  {
    var c := seq(NEBULA_COUNT * 3, j requires 0 <= j => NebulaTint(random, j));
    assert forall j :: 0 <= j < |c| ==> c[j] == NebulaTint(random, j);
    c
  }

  /** Coordinate `3i + k` belongs to point `i` and is its axis `k`. */
  lemma PointIndices(i: nat)
    ensures (3 * i) / 3 == i && (3 * i + 1) / 3 == i && (3 * i + 2) / 3 == i
    ensures (3 * i) % 3 == 0 && (3 * i + 1) % 3 == 1 && (3 * i + 2) % 3 == 2
  {
  }

  /** The coordinates of star `i`: draws `4i`, `4i + 1` and `4i + 2`. */
  lemma StarPointEntries(random: Draws, i: nat)
    ensures StarCoordinate(random, 3 * i) == Coordinate(random(4 * i), STAR_SPREAD)
    ensures StarCoordinate(random, 3 * i + 1) == Coordinate(random(4 * i + 1), STAR_SPREAD)
    ensures StarCoordinate(random, 3 * i + 2) == Coordinate(random(4 * i + 2), STAR_SPREAD)
  {
    PointIndices(i);
  }

  /** The entries of nebula point `i`: its three coordinates from draws
      `4i`, `4i + 1`, `4i + 2` after the stars' draws, its colour from draw `4i + 3`. */
  lemma NebulaPointEntries(random: Draws, i: nat)
    ensures NebulaCoordinate(random, 3 * i) == Coordinate(random(NEBULA_FIRST_DRAW + 4 * i), NEBULA_SPREAD)
    ensures NebulaCoordinate(random, 3 * i + 1) == Coordinate(random(NEBULA_FIRST_DRAW + 4 * i + 1), NEBULA_SPREAD)
    ensures NebulaCoordinate(random, 3 * i + 2) == Coordinate(random(NEBULA_FIRST_DRAW + 4 * i + 2), NEBULA_SPREAD)
    ensures NebulaTint(random, 3 * i) == Tint(PaletteColor(random, i), 0)
    ensures NebulaTint(random, 3 * i + 1) == Tint(PaletteColor(random, i), 1)
    ensures NebulaTint(random, 3 * i + 2) == Tint(PaletteColor(random, i), 2)
  {
    PointIndices(i);
  }

  /** Every palette entry has more blue than red or green. */
  lemma PaletteIsBlue(k: nat)
    requires k < |NEBULA_COLORS|
    ensures Channel(NEBULA_COLORS[k], 2) > Channel(NEBULA_COLORS[k], 0)
    ensures Channel(NEBULA_COLORS[k], 2) > Channel(NEBULA_COLORS[k], 1)
  {
  }

  /** Every nebula point is a deep blue: its blue component exceeds its red and
      green ones, and no component exceeds 0.7. */
  lemma NebulaIsDeepBlue(random: Draws, i: nat)
    requires i < NEBULA_COUNT
    ensures var c := InitialNebulaColors(random);
      && c[3 * i + 2] > c[3 * i] && c[3 * i + 2] > c[3 * i + 1]
      && 0.0 <= c[3 * i] <= NEBULA_DIMMING && 0.0 <= c[3 * i + 1] <= NEBULA_DIMMING
      && 0.0 <= c[3 * i + 2] <= NEBULA_DIMMING
  {
    var c := InitialNebulaColors(random);
    PointIndices(i);
    var rgb := PaletteColor(random, i);
    assert c[3 * i] == Tint(rgb, 0) && c[3 * i + 1] == Tint(rgb, 1) && c[3 * i + 2] == Tint(rgb, 2);
    PaletteIsBlue(PaletteIndex(random(NEBULA_FIRST_DRAW + 4 * i + 3)));
  }

  /** The twinkle: size `i` becomes `Math.sin(time + i) * 0.3 + 1.2`. */
  function Twinkled(n: nat, time: real, sin: Wave): (z: seq<real>)
    ensures |z| == n
    ensures forall i :: 0 <= i < n ==> 0.9 <= z[i] <= 1.5
  {
    var z := seq(n, i requires 0 <= i => sin(time + i as real) * 0.3 + 1.2);
    assert forall i :: 0 <= i < n ==> z[i] == sin(time + i as real) * 0.3 + 1.2;
    z
  }

  /** Coordinate `j` after the nebula drift: for each point starting at index
      `i` (a multiple of 3), x moves by `sin(time + i) * 0.0005` and y by
      `cos(time + i) * 0.0005`; a y index past the end is never written, and z
      never moves. */
  function DriftedAt(p: seq<real>, time: real, sin: Wave, cos: Wave, j: nat): real
    requires j < |p|
  {
    if j % 3 == 0 then p[j] + sin(time + j as real) * DRIFT
    else if j % 3 == 1 then p[j] + cos(time + (j - 1) as real) * DRIFT
    else p[j]
  }

  /** The nebula's position buffer after one drift. */
  function Drifted(p: seq<real>, time: real, sin: Wave, cos: Wave): (r: seq<real>)
    ensures |r| == |p|
    ensures forall j :: 0 <= j < |p| && j % 3 == 2 ==> r[j] == p[j]
  {
    var r := seq(|p|, j requires 0 <= j < |p| => DriftedAt(p, time, sin, cos, j));
    assert forall j :: 0 <= j < |p| ==> r[j] == DriftedAt(p, time, sin, cos, j);
    r
  }

  /** One drift moves each coordinate by at most 0.0005. */
  lemma DriftIsSmall(p: seq<real>, time: real, sin: Wave, cos: Wave)
    ensures forall j :: 0 <= j < |p| ==> -DRIFT <= Drifted(p, time, sin, cos)[j] - p[j] <= DRIFT
  {
    var r := Drifted(p, time, sin, cos);
    forall j | 0 <= j < |p|
      ensures -DRIFT <= r[j] - p[j] <= DRIFT
    {
      assert r[j] == DriftedAt(p, time, sin, cos, j);
      if j % 3 == 0 {
        var w := sin(time + j as real);
        assert r[j] - p[j] == w * DRIFT;
      } else if j % 3 == 1 {
        var w := cos(time + (j - 1) as real);
        assert r[j] - p[j] == w * DRIFT;
      }
    }
  }

  /** `initializeScene`: the camera takes the container's aspect ratio; unless
      creating the renderer throws, a renderer sized to the window, with its
      pixel ratio capped at 2, is attached and the resize listener registered. */
  function SceneInitialized(s: Starfield, host: SceneHost): Starfield {
    var g := s.stage.(camera := Perspective(AspectOf(host.container.width, host.container.height)));
    if host.fault == RendererFault then s.(stage := g)
    else s.(stage := g.(renderer := WebGL(host.window.innerWidth, host.window.innerHeight,
                                          PixelRatioCap(host.window.devicePixelRatio), false),
                        canvasAttached := true, listening := true))
  }

  /** `createStars`: a new live, unturned star field. */
  function StarsCreated(s: Starfield, host: SceneHost): Starfield {
    if host.fault == FieldFault(0) then s
    else s.(stars := Points(Live, 0.0, 0.0, InitialStarPositions(host.random), InitialStarSizes(host.random)))
  }

  /** `createNebula`: a new live, unturned nebula at its resting opacity. */
  function NebulaCreated(s: Starfield, host: SceneHost): Starfield {
    if host.fault == FieldFault(1) then s
    else s.(nebula := Points(Live, 0.0, 0.0, InitialNebulaPositions(host.random), InitialNebulaColors(host.random)),
            nebulaOpacity := NEBULA_OPACITY)
  }

  /** Whether `initializeScene`, `createStars` and `createNebula` all complete. */
  predicate Builds(host: SceneHost) {
    host.fault != RendererFault && host.fault != FieldFault(0) && host.fault != FieldFault(1)
  }

  function ShowFallback(s: Starfield): Starfield {
    s.(stage := s.stage.(fallback := true))
  }

  /** The three build steps; when one throws, the later ones are skipped and
      `handleInitializationError` shows the fallback. */
  function Built(s: Starfield, host: SceneHost): Starfield {
    var s := SceneInitialized(s, host);
    if host.fault == RendererFault then ShowFallback(s)
    else
      var s := StarsCreated(s, host);
      if host.fault == FieldFault(0) then ShowFallback(s)
      else
        var s := NebulaCreated(s, host);
        if host.fault == FieldFault(1) then ShowFallback(s) else s
  }

  /** The constructor: build, then start the loop with a first `animate`. */
  function Constructed(host: SceneHost, first: Tick, sin: Wave, cos: Wave): Starfield {
    if Builds(host) then Animated(Built(Unbuilt, host), sin, cos, first) else Built(Unbuilt, host)
  }

  /** The star field in a frame at clock `t`: its turn is a function of the
      clock and its sizes twinkle. */
  function StarsAt(p: Points, t: real, sin: Wave): Points {
    if p.status == Absent then p
    else p.(rotationY := t * 0.05, rotationX := sin(t * 0.1) * 0.05,
            attribute := Twinkled(|p.attribute|, t, sin))
  }

  /** The nebula in a frame at clock `t`: its turn is a function of the clock
      and its points drift. */
  function NebulaAt(p: Points, t: real, sin: Wave, cos: Wave): Points {
    if p.status == Absent then p
    else p.(rotationY := t * 0.02, rotationX := sin(t * 0.05) * 0.05,
            positions := Drifted(p.positions, t, sin, cos))
  }

  /** The updates of one live `animate`: request the next frame, advance the
      clock, then move the star field and the nebula. */
  function Advance(s: Starfield, sin: Wave, cos: Wave): Starfield {
    var t := s.time + TIME_STEP;
    s.(time := t, stage := s.stage.(framePending := true),
       stars := StarsAt(s.stars, t, sin), nebula := NebulaAt(s.nebula, t, sin, cos))
  }

  /** `animate` when nothing throws: a destroyed instance returns at once. */
  function Step(s: Starfield, sin: Wave, cos: Wave): Starfield {
    if s.isDestroyed then s else Advance(s, sin, cos)
  }

  /** `animate`: when the step throws (at `renderer.render`, after its
      updates), `recoverFromError` follows. */
  function Animated(s: Starfield, sin: Wave, cos: Wave, tick: Tick): Starfield {
    if !s.isDestroyed && tick.throws then Recovered(Advance(s, sin, cos), tick.recovery)
    else Step(s, sin, cos)
  }

  /** `cleanup`: destroyed, frame cancelled, renderer disposed and its canvas
      removed, both point sets disposed, the listener removed. */
  function CleanedUp(s: Starfield): Starfield {
    s.(isDestroyed := true,
       stage := s.stage.(framePending := false, renderer := s.stage.renderer.Disposed(),
                         canvasAttached := false, listening := false),
       stars := s.stars.(status := s.stars.status.Dispose()),
       nebula := s.nebula.(status := s.nebula.status.Dispose()))
  }

  /** `recoverFromError`: clean up, build again, then `animate`, which returns
      at once because nothing clears `isDestroyed`. */
  function Recovered(s: Starfield, host: SceneHost): Starfield {
    Built(CleanedUp(s), host)
  }

  /** `setTyping`: the flag, and the nebula's opacity when a nebula exists. */
  function TypingSet(s: Starfield, typing: bool): Starfield {
    var s := s.(isAgentTyping := typing);
    if s.nebula.status == Absent then s
    else s.(nebulaOpacity := if typing then NEBULA_TYPING_OPACITY else NEBULA_OPACITY)
  }

  /** `handleResize`: nothing once destroyed or without a camera; otherwise
      the camera takes the window's aspect ratio and, when a renderer exists,
      the renderer the window's size and the capped pixel ratio. */
  function Resized(s: Starfield, window: Window): Starfield {
    if s.isDestroyed || s.stage.camera == NoCamera then s
    else s.(stage := s.stage.(camera := Perspective(AspectOf(window.innerWidth, window.innerHeight)),
                              renderer := s.stage.renderer.Sized(window.innerWidth, window.innerHeight)
                                            .WithPixelRatio(PixelRatioCap(window.devicePixelRatio))))
  }

  /** `n` frames in which nothing throws. */
  function Run(s: Starfield, sin: Wave, cos: Wave, n: nat): Starfield {
    if n == 0 then s else Step(Run(s, sin, cos, n - 1), sin, cos)
  }

  /** Frames driven by `ticks`, in order. */
  function Frames(s: Starfield, sin: Wave, cos: Wave, ticks: seq<Tick>): Starfield
    decreases |ticks|
  {
    if ticks == [] then s else Frames(Animated(s, sin, cos, ticks[0]), sin, cos, ticks[1..])
  }

  /** A point set's buffers exist exactly when it does, with their full lengths. */
  predicate Sized(p: Points, positions: nat, attribute: nat) {
    if p.status == Absent then p.positions == [] && p.attribute == []
    else |p.positions| == positions && |p.attribute| == attribute
  }

  predicate Shaped(s: Starfield) {
    && Sized(s.stars, STAR_COUNT * 3, STAR_COUNT)
    && Sized(s.nebula, NEBULA_COUNT * 3, NEBULA_COUNT * 3)
    && (s.isDestroyed ==> !s.stage.framePending)
  }

  lemma ConstructedShaped(host: SceneHost, first: Tick, sin: Wave, cos: Wave)
    ensures Shaped(Constructed(host, first, sin, cos))
    ensures !Builds(host) ==> Constructed(host, first, sin, cos).stage.fallback && !Constructed(host, first, sin, cos).stage.framePending
    ensures host.fault == FieldFault(1) ==> Constructed(host, first, sin, cos).stars.status == Live
  {
  }

  /** A complete build starts the loop, whose first frame advances the clock
      by one step. If that frame does not throw, the instance is live: a
      frame pending, the listener registered, the canvas attached, both meshes
      live, not typing, and the nebula at its resting opacity. If it throws,
      the instance ends destroyed with no frame pending. */
  lemma ConstructedLive(host: SceneHost, first: Tick, sin: Wave, cos: Wave)
    requires Builds(host)
    ensures var s := Constructed(host, first, sin, cos);
      && s.time == TIME_STEP
      && (s.isDestroyed <==> first.throws)
      && (first.throws ==> !s.stage.framePending)
      && (!first.throws ==>
            && s.stage.framePending && s.stage.listening && s.stage.canvasAttached
            && s.stars.status == Live && s.nebula.status == Live
            && !s.isAgentTyping && s.nebulaOpacity == NEBULA_OPACITY)
  {
  }

  /** `handleResize` changes nothing once the instance is destroyed. */
  lemma DestroyedIgnoresResize(s: Starfield, window: Window)
    requires s.isDestroyed
    ensures Resized(s, window) == s
  {
  }

  /** No frame changes a buffer's length, and a frame never leaves a
      destroyed instance with a frame pending. */
  lemma FrameShaped(s: Starfield, sin: Wave, cos: Wave, tick: Tick)
    requires Shaped(s)
    ensures Shaped(Animated(s, sin, cos, tick))
  {
    if s.isDestroyed {
    } else if tick.throws {
      AdvanceShaped(s, sin, cos);
      RecoveryShaped(Advance(s, sin, cos), tick.recovery);
    } else {
      AdvanceShaped(s, sin, cos);
    }
  }

  /** A live frame keeps both buffers' lengths. */
  lemma AdvanceShaped(s: Starfield, sin: Wave, cos: Wave)
    requires Shaped(s) && !s.isDestroyed
    ensures Shaped(Advance(s, sin, cos))
  {
  }

  /** Recovery leaves a destroyed instance, with no frame pending, whose
      buffers are empty or full. */
  lemma RecoveryShaped(s: Starfield, host: SceneHost)
    requires Shaped(s)
    ensures Shaped(Recovered(s, host))
    ensures Recovered(s, host).isDestroyed
  {
  }

  /** Neither a resize, a typing change nor cleanup changes a buffer's
      length, and a destroyed instance never has a frame pending. */
  lemma ShapePreserved(s: Starfield, window: Window, typing: bool)
    requires Shaped(s)
    ensures Shaped(Resized(s, window))
    ensures Shaped(TypingSet(s, typing))
    ensures Shaped(CleanedUp(s))
  {
  }

  /** Each live frame without a fault advances the clock by 0.0005. */
  lemma {:induction false} TimeAfter(s: Starfield, sin: Wave, cos: Wave, n: nat)
    requires !s.isDestroyed
    ensures Run(s, sin, cos, n).time == s.time + TIME_STEP * n as real
    ensures !Run(s, sin, cos, n).isDestroyed
    ensures Run(s, sin, cos, n).stars.status == s.stars.status
    ensures Run(s, sin, cos, n).nebula.status == s.nebula.status
  {
    if n > 0 {
      TimeAfter(s, sin, cos, n - 1);
    }
  }

  /** The turns are functions of the clock, not accumulated: after any live
      frame the star field has turned `time * 0.05` about y and the nebula
      `time * 0.02`, and both tilts about x stay within 0.05 rad. */
  lemma TurnFollowsClock(s: Starfield, sin: Wave, cos: Wave, n: nat)
    requires !s.isDestroyed && s.stars.status != Absent && s.nebula.status != Absent && n > 0
    ensures var r := Run(s, sin, cos, n);
      && r.stars.rotationY == (s.time + TIME_STEP * n as real) * 0.05
      && r.nebula.rotationY == (s.time + TIME_STEP * n as real) * 0.02
      && -0.05 <= r.stars.rotationX <= 0.05 && -0.05 <= r.nebula.rotationX <= 0.05
  {
    TimeAfter(s, sin, cos, n - 1);
    var before := Run(s, sin, cos, n - 1);
    var t := before.time + TIME_STEP;
    var x1, x2 := sin(t * 0.1), sin(t * 0.05);
    assert Run(s, sin, cos, n).stars.rotationX == x1 * 0.05;
    assert Run(s, sin, cos, n).nebula.rotationX == x2 * 0.05;
  }

  /** After a live frame every star size lies in [0.9, 1.5], whatever the
      random sizes `createStars` gave: the twinkle overwrites them. */
  lemma TwinkleOverwritesSizes(s: Starfield, sin: Wave, cos: Wave, sizes: seq<real>)
    requires !s.isDestroyed && s.stars.status != Absent && |sizes| == |s.stars.attribute|
    ensures Step(s, sin, cos).stars.attribute == Step(s.(stars := s.stars.(attribute := sizes)), sin, cos).stars.attribute
    ensures forall i :: 0 <= i < |s.stars.attribute| ==> 0.9 <= Step(s, sin, cos).stars.attribute[i] <= 1.5
  {
  }

  /** Over `n` live frames the nebula keeps its depth: every z coordinate is
      unchanged, and every x or y coordinate has moved by at most 0.0005 per
      frame. */
  lemma {:induction false} NebulaDrift(s: Starfield, sin: Wave, cos: Wave, n: nat)
    requires !s.isDestroyed
    ensures var p := Run(s, sin, cos, n).nebula.positions;
      && |p| == |s.nebula.positions|
      && (forall j :: 0 <= j < |p| && j % 3 == 2 ==> p[j] == s.nebula.positions[j])
      && (forall j :: 0 <= j < |p| ==> -DRIFT * n as real <= p[j] - s.nebula.positions[j] <= DRIFT * n as real)
  {
    if n > 0 {
      NebulaDrift(s, sin, cos, n - 1);
      TimeAfter(s, sin, cos, n - 1);
      var before := Run(s, sin, cos, n - 1);
      if before.nebula.status != Absent {
        DriftIsSmall(before.nebula.positions, before.time + TIME_STEP, sin, cos);
      }
    }
  }

  /** Typing never changes a frame: `animate` does not read the flag, and the
      nebula's opacity is set only by `setTyping`. */
  lemma AnimateIgnoresTyping(s: Starfield, sin: Wave, cos: Wave, typing: bool)
    ensures Step(s.(isAgentTyping := typing), sin, cos) == Step(s, sin, cos).(isAgentTyping := typing)
  {
  }

  /** With a nebula, typing raises its opacity to 0.4 and stopping restores
      0.3; of two `setTyping` calls only the last one shows. */
  lemma TypingSetsOpacity(s: Starfield, first: bool, last: bool)
    ensures s.nebula.status != Absent ==> TypingSet(s, true).nebulaOpacity == NEBULA_TYPING_OPACITY
    ensures s.nebula.status != Absent ==> TypingSet(s, false).nebulaOpacity == NEBULA_OPACITY
    ensures TypingSet(TypingSet(s, first), last) == TypingSet(s, last)
  {
  }

  /** Once destroyed, any number of frames, faulty or not, change nothing. */
  lemma {:induction false} DestroyedIsQuiet(s: Starfield, sin: Wave, cos: Wave, ticks: seq<Tick>)
    requires s.isDestroyed
    ensures Frames(s, sin, cos, ticks) == s
    decreases |ticks|
  {
    if ticks != [] {
      DestroyedIsQuiet(s, sin, cos, ticks[1..]);
    }
  }

  /** A fault in a live frame ends the loop for good: `recoverFromError`
      leaves the instance destroyed with no frame pending and later frames
      change nothing; the clock keeps the value it reached. */
  lemma FaultEndsTheLoop(s: Starfield, sin: Wave, cos: Wave, tick: Tick, later: seq<Tick>)
    requires !s.isDestroyed && tick.throws
    ensures var r := Animated(s, sin, cos, tick);
      && r.isDestroyed && !r.stage.framePending
      && Frames(r, sin, cos, later) == r
      && r.time == s.time + TIME_STEP
      && r.stage.listening == (tick.recovery.fault != RendererFault)
  {
    DestroyedIsQuiet(Animated(s, sin, cos, tick), sin, cos, later);
  }

  /** `cleanup` twice leaves the same state as once. */
  lemma CleanupIdempotent(s: Starfield)
    ensures CleanedUp(CleanedUp(s)) == CleanedUp(s)
    ensures var g := CleanedUp(s).stage; !g.framePending && !g.listening && !g.canvasAttached
  {
  }

  /** Resizing a live instance with a camera and a renderer sets the aspect
      ratio to the window's and caps the pixel ratio at 2. */
  lemma ResizeSetsAspect(s: Starfield, window: Window)
    requires !s.isDestroyed && s.stage.camera.Perspective? && s.stage.renderer.WebGL?
    ensures Resized(s, window).stage.camera.aspect * window.innerHeight as real == window.innerWidth as real
    ensures Resized(s, window).stage.renderer.pixelRatio <= 2.0
  {
  }

  /** The loop of `createStars`: three coordinates and a size per star. */
  method NewStars(random: Draws) returns (positions: array<real>, sizes: array<real>)
    ensures fresh(positions) && fresh(sizes) && positions != sizes
    ensures positions[..] == InitialStarPositions(random)
    ensures sizes[..] == InitialStarSizes(random)
  {
    positions := new real[STAR_COUNT * 3];
    sizes := new real[STAR_COUNT];
    var i := 0;
    while i < STAR_COUNT
      invariant 0 <= i <= STAR_COUNT
      invariant forall j :: 0 <= j < 3 * i ==> positions[j] == StarCoordinate(random, j)
      invariant forall k :: 0 <= k < i ==> sizes[k] == StarSize(random, k)
    {
      SetStarPosition(random, positions, i);
      sizes[i] := random(4 * i + 3) * STAR_SIZE_SCALE;
      i := i + 1;
    }
  }

  /** The loop of `createNebula`: three coordinates and a dimmed palette
      colour per point. */
  method NewNebula(random: Draws) returns (positions: array<real>, colors: array<real>)
    ensures fresh(positions) && fresh(colors) && positions != colors
    ensures positions[..] == InitialNebulaPositions(random)
    ensures colors[..] == InitialNebulaColors(random)
  {
    positions := new real[NEBULA_COUNT * 3];
    colors := new real[NEBULA_COUNT * 3];
    var i := 0;
    while i < NEBULA_COUNT
      invariant 0 <= i <= NEBULA_COUNT
      invariant forall j :: 0 <= j < 3 * i ==> positions[j] == NebulaCoordinate(random, j)
      invariant forall j :: 0 <= j < 3 * i ==> colors[j] == NebulaTint(random, j)
    {
      SetNebulaPosition(random, positions, i);
      SetNebulaColor(random, colors, i);
      i := i + 1;
    }
  }

  /** Star `i`'s coordinates, from draws `4i` to `4i + 2`. */
  method SetStarPosition(random: Draws, positions: array<real>, i: nat)
    requires 3 * i + 3 <= positions.Length
    modifies positions
    ensures forall j :: 3 * i <= j < 3 * i + 3 ==> positions[j] == StarCoordinate(random, j)
    ensures forall j :: 0 <= j < 3 * i ==> positions[j] == old(positions[j])
  {
    StarPointEntries(random, i);
    SetPoint(positions, i, Coordinate(random(4 * i), STAR_SPREAD),
      Coordinate(random(4 * i + 1), STAR_SPREAD), Coordinate(random(4 * i + 2), STAR_SPREAD));
    forall j | 3 * i <= j < 3 * i + 3
      ensures positions[j] == StarCoordinate(random, j)
    {
      assert j == 3 * i || j == 3 * i + 1 || j == 3 * i + 2;
    }
  }

  /** Point `i`'s coordinates, from draws `4i` to `4i + 2` after the stars' draws. */
  method SetNebulaPosition(random: Draws, positions: array<real>, i: nat)
    requires 3 * i + 3 <= positions.Length
    modifies positions
    ensures forall j :: 3 * i <= j < 3 * i + 3 ==> positions[j] == NebulaCoordinate(random, j)
    ensures forall j :: 0 <= j < 3 * i ==> positions[j] == old(positions[j])
  {
    var first := NEBULA_FIRST_DRAW + 4 * i;
    NebulaPointEntries(random, i);
    SetPoint(positions, i, Coordinate(random(first), NEBULA_SPREAD),
      Coordinate(random(first + 1), NEBULA_SPREAD), Coordinate(random(first + 2), NEBULA_SPREAD));
    forall j | 3 * i <= j < 3 * i + 3
      ensures positions[j] == NebulaCoordinate(random, j)
    {
      assert j == 3 * i || j == 3 * i + 1 || j == 3 * i + 2;
    }
  }

  /** Point `i`'s colour: the palette entry draw `4i + 3` after the stars' draws picks, dimmed. */
  method SetNebulaColor(random: Draws, colors: array<real>, i: nat)
    requires 3 * i + 3 <= colors.Length
    modifies colors
    ensures forall j :: 3 * i <= j < 3 * i + 3 ==> colors[j] == NebulaTint(random, j)
    ensures forall j :: 0 <= j < 3 * i ==> colors[j] == old(colors[j])
  {
    NebulaPointEntries(random, i);
    var color := PaletteColor(random, i);
    SetPoint(colors, i, Tint(color, 0), Tint(color, 1), Tint(color, 2));
    forall j | 3 * i <= j < 3 * i + 3
      ensures colors[j] == NebulaTint(random, j)
    {
      if j == 3 * i {
      } else if j == 3 * i + 1 {
      } else {
        assert j == 3 * i + 2;
      }
    }
  }

  /** The three coordinates (or colour components) of point `i`. */
  method SetPoint(a: array<real>, i: nat, x: real, y: real, z: real)
    requires 3 * i + 3 <= a.Length
    modifies a
    ensures a[3 * i] == x && a[3 * i + 1] == y && a[3 * i + 2] == z
    ensures forall j :: 0 <= j < 3 * i ==> a[j] == old(a[j])
  {
    a[3 * i], a[3 * i + 1], a[3 * i + 2] := x, y, z;
  }

  /** The twinkle loop of `animate`, in place on the size buffer. */
  method Twinkle(sizes: array<real>, time: real, sin: Wave)
    modifies sizes
    ensures sizes[..] == Twinkled(sizes.Length, time, sin)
  {
    var i := 0;
    while i < sizes.Length
      invariant 0 <= i <= sizes.Length
      invariant forall k :: 0 <= k < i ==> sizes[k] == sin(time + k as real) * 0.3 + 1.2
    {
      sizes[i] := sin(time + i as real) * 0.3 + 1.2;
      i := i + 1;
    }
  }

  /** The drift loop of `animate`, in place on the nebula's position buffer,
      stepping by whole points. */
  method Drift(positions: array<real>, time: real, sin: Wave, cos: Wave)
    modifies positions
    ensures positions[..] == Drifted(old(positions[..]), time, sin, cos)
  {
    ghost var p := positions[..];
    var i := 0;
    while i < positions.Length
      invariant 0 <= i && i % 3 == 0
      invariant i <= positions.Length + 2
      invariant forall j :: 0 <= j < positions.Length && j < i ==> positions[j] == DriftedAt(p, time, sin, cos, j)
      invariant forall j :: i <= j < positions.Length ==> positions[j] == p[j]
    {
      assert (i + 1) % 3 == 1;
      positions[i] := positions[i] + sin(time + i as real) * DRIFT;
      if i + 1 < positions.Length {
        positions[i + 1] := positions[i + 1] + cos(time + i as real) * DRIFT;
      }
      i := i + 3;
    }
  }

  /** A points object as the class holds it: its state and its turn about x and y. */
  datatype Mesh = Mesh(status: Resource, rotationX: real, rotationY: real)

  /** The dark theme's background animation. */
  class BackgroundAnimation {
    const sin: Wave
    const cos: Wave
    var isDestroyed: bool
    var isAgentTyping: bool
    var time: real
    /** The frame token, the resize listener, the canvas, the fallback, the
      camera and the renderer. */
    var stage: Stage
    /** The star field's points object: its state and its turn. */
    var starMesh: Mesh
    /** The nebula's points object: its state and its turn. */
    var nebulaMesh: Mesh
    var nebulaOpacity: real
    /** The star positions, never written once created. */
    var starPositions: seq<real>
    var starSizes: array<real>
    var nebulaPositions: array<real>
    /** The nebula colours, never written once created. */
    var nebulaColors: seq<real>

    /** The two buffers `animate` writes are separate arrays. */
    ghost predicate Valid()
      reads this
    {
      starSizes != nebulaPositions
    }

    function State(): Starfield
      reads this, starSizes, nebulaPositions
    {
      Starfield(isDestroyed, isAgentTyping, time, stage,
                Points(starMesh.status, starMesh.rotationX, starMesh.rotationY, starPositions, starSizes[..]),
                Points(nebulaMesh.status, nebulaMesh.rotationX, nebulaMesh.rotationY, nebulaPositions[..], nebulaColors),
                nebulaOpacity)
    }

    constructor (host: SceneHost, first: Tick, sin: Wave, cos: Wave)
      ensures this.sin == sin && this.cos == cos
      ensures Valid()
      ensures State() == Constructed(host, first, sin, cos)
    {
      this.sin, this.cos := sin, cos;
      isAgentTyping, time, isDestroyed := false, 0.0, false;
      stage := NoStage;
      starMesh, nebulaMesh, nebulaOpacity := Mesh(Absent, 0.0, 0.0), Mesh(Absent, 0.0, 0.0), NEBULA_OPACITY;
      starPositions, nebulaColors := [], [];
      starSizes := new real[0];
      nebulaPositions := new real[0];
      new;
      assert State() == Unbuilt;
      var ok := InitializeScene(host);
      if ok {
        ok := CreateStars(host);
      }
      if ok {
        ok := CreateNebula(host);
      }
      if ok {
        Animate(first);
      } else {
        HandleInitializationError();
      }
    }

    method HandleInitializationError()
      modifies this`stage
      ensures State() == ShowFallback(old(State()))
    {
      stage := stage.(fallback := true);
    }

    method InitializeScene(host: SceneHost) returns (ok: bool)
      modifies this
      requires Valid()
      ensures Valid() && unchanged(this`starSizes, this`nebulaPositions)
      ensures ok == (host.fault != RendererFault)
      ensures State() == SceneInitialized(old(State()), host)
    {
      stage := stage.(camera := Perspective(AspectOf(host.container.width, host.container.height)));
      if host.fault == RendererFault {
        return false;
      }
      stage := stage.(renderer := WebGL(host.window.innerWidth, host.window.innerHeight,
                                        PixelRatioCap(host.window.devicePixelRatio), false));
      stage := stage.(canvasAttached := true);
      stage := stage.(listening := true);
      ok := true;
    }

    method HandleResize(window: Window)
      modifies this
      requires Valid()
      ensures Valid() && unchanged(this`starSizes, this`nebulaPositions)
      ensures State() == Resized(old(State()), window)
    {
      if isDestroyed {
        return;
      }
      if stage.camera == NoCamera {
        return;
      }
      stage := stage.(camera := Perspective(AspectOf(window.innerWidth, window.innerHeight)));
      if stage.renderer == NoRenderer {
        return;
      }
      stage := stage.(renderer := stage.renderer.Sized(window.innerWidth, window.innerHeight));
      stage := stage.(renderer := stage.renderer.WithPixelRatio(PixelRatioCap(window.devicePixelRatio)));
    }

    method CreateStars(host: SceneHost) returns (ok: bool)
      modifies this
      requires Valid()
      ensures Valid() && unchanged(this`nebulaPositions)
      ensures if ok then fresh(starSizes) else unchanged(this`starSizes)
      ensures ok == (host.fault != FieldFault(0))
      ensures State() == StarsCreated(old(State()), host)
    {
      if host.fault == FieldFault(0) {
        return false;
      }
      var p, z := NewStars(host.random);
      starPositions, starSizes, starMesh := p[..], z, Mesh(Live, 0.0, 0.0);
      ok := true;
    }

    method CreateNebula(host: SceneHost) returns (ok: bool)
      modifies this
      requires Valid()
      ensures Valid() && unchanged(this`starSizes)
      ensures if ok then fresh(nebulaPositions) else unchanged(this`nebulaPositions)
      ensures ok == (host.fault != FieldFault(1))
      ensures State() == NebulaCreated(old(State()), host)
    {
      if host.fault == FieldFault(1) {
        return false;
      }
      var p, c := NewNebula(host.random);
      nebulaPositions, nebulaColors, nebulaMesh, nebulaOpacity := p, c[..], Mesh(Live, 0.0, 0.0), NEBULA_OPACITY;
      ok := true;
    }

    method Animate(tick: Tick)
      modifies this, starSizes, nebulaPositions
      requires Valid()
      ensures Valid()
      ensures State() == Animated(old(State()), sin, cos, tick)
      decreases if isDestroyed then 0 else 2
    {
      if isDestroyed {
        return;
      }
      ghost var before := State();
      var t := time + TIME_STEP;
      stage, time := stage.(framePending := true), t;
      if starMesh.status != Absent {
        starMesh := starMesh.(rotationY := t * 0.05, rotationX := sin(t * 0.1) * 0.05);
        Twinkle(starSizes, t, sin);
      }
      ghost var sizes := starSizes[..];
      if nebulaMesh.status != Absent {
        nebulaMesh := nebulaMesh.(rotationY := t * 0.02, rotationX := sin(t * 0.05) * 0.05);
        Drift(nebulaPositions, t, sin, cos);
      }
      assert starSizes[..] == sizes;
      assert State() == Advance(before, sin, cos);
      if tick.throws {
        RecoverFromError(tick);
      }
    }

    method RecoverFromError(tick: Tick)
      modifies this
      requires Valid()
      ensures Valid()
      ensures State() == Recovered(old(State()), tick.recovery)
      decreases 1
    {
      Cleanup();
      var ok := InitializeScene(tick.recovery);
      if ok {
        ok := CreateStars(tick.recovery);
      }
      if ok {
        ok := CreateNebula(tick.recovery);
      }
      if ok {
        Animate(tick);
      } else {
        HandleInitializationError();
      }
    }

    method SetTyping(typing: bool)
      modifies this
      requires Valid()
      ensures Valid() && unchanged(this`starSizes, this`nebulaPositions)
      ensures State() == TypingSet(old(State()), typing)
    {
      isAgentTyping := typing;
      if nebulaMesh.status != Absent {
        nebulaOpacity := if typing then NEBULA_TYPING_OPACITY else NEBULA_OPACITY;
      }
    }

    method Cleanup()
      modifies this
      requires Valid()
      ensures Valid() && unchanged(this`starSizes, this`nebulaPositions)
      ensures State() == CleanedUp(old(State()))
    {
      isDestroyed := true;
      stage := stage.(framePending := false, renderer := stage.renderer.Disposed(), canvasAttached := false);
      starMesh, nebulaMesh := starMesh.(status := starMesh.status.Dispose()), nebulaMesh.(status := nebulaMesh.status.Dispose());
      stage := stage.(listening := false);
    }
  }
}
