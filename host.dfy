/** What the browser, Math and Three.js hand to the background animations.
    None of it is modelled as code: each appears as a value the model takes
    as an input, with the ranges the host guarantees. */
module Host {

  type Positive = n: int | n > 0 witness 1

  /** The animation container's `clientWidth` and `clientHeight`. */
  datatype Box = Box(width: nat, height: Positive)

  /** `window.innerWidth`, `window.innerHeight` and `window.devicePixelRatio`. */
  datatype Window = Window(innerWidth: nat, innerHeight: Positive, devicePixelRatio: real)

  /** The camera aspect ratio `width / height`. */
  function AspectOf(width: nat, height: Positive): (r: real)
    ensures r >= 0.0
    ensures r * height as real == width as real
  {
    width as real / height as real
  }

  /** The renderer's pixel ratio `Math.min(window.devicePixelRatio, 2)`. */
  function PixelRatioCap(devicePixelRatio: real): (r: real)
    ensures r <= 2.0 && r <= devicePixelRatio
    ensures r == 2.0 || r == devicePixelRatio
  {
    if devicePixelRatio < 2.0 then devicePixelRatio else 2.0
  }

  /** A real in [-1, 1]. */
  type Sign = r: real | -1.0 <= r <= 1.0

  /** A real function whose values all lie in [-1, 1]: `Math.sin`, `Math.cos`. */
  type Wave = real -> Sign

  /** The values successive `Math.random()` calls return, in call order. */
  type Draws = nat -> Unit

  /** A real in [0, 1), the range of `Math.random()`. */
  type Unit = r: real | 0.0 <= r < 1.0

  /** Where building a scene throws, if anywhere: creating the WebGL renderer
      inside `initializeScene`, or the n-th particle-field builder
      (`createParticles` for the ambient variant; `createStars` then
      `createNebula` for the starfield variant). */
  datatype Fault = NoFault | RendererFault | FieldFault(field: nat)

  /** Everything one attempt to build a scene reads from the host. */
  datatype SceneHost = SceneHost(container: Box, window: Window, fault: Fault, random: Draws)

  /** One run of `animate`: whether the step throws once its updates are done
      (at `renderer.render`), and the host seen by the recovery that follows. */
  datatype Tick = Tick(throws: bool, recovery: SceneHost)

  /** The perspective camera; only its aspect ratio ever changes. */
  datatype Camera = NoCamera | Perspective(aspect: real)

  /** The WebGL renderer: its drawing-buffer size and pixel ratio, and whether
      `dispose()` has released it. */
  datatype Renderer = NoRenderer | WebGL(width: nat, height: nat, pixelRatio: real, disposed: bool)
  {
    function Disposed(): Renderer {
      match this
      case NoRenderer => NoRenderer
      case WebGL(w, h, ratio, _) => WebGL(w, h, ratio, true)
    }

    /** `renderer.setSize(w, h)`; a missing renderer makes the call throw. */
    function Sized(w: nat, h: nat): Renderer {
      match this
      case NoRenderer => NoRenderer
      case WebGL(_, _, ratio, disposed) => WebGL(w, h, ratio, disposed)
    }

    /** `renderer.setPixelRatio(ratio)`; a missing renderer makes the call throw. */
    function WithPixelRatio(ratio: real): Renderer {
      match this
      case NoRenderer => NoRenderer
      case WebGL(w, h, _, disposed) => WebGL(w, h, ratio, disposed)
    }
  }

  /** The renderer side of one animation instance. `framePending`: a frame
      callback has been requested and not cancelled; `listening`:
      `handleResize` is registered on window; `canvasAttached`: the renderer's
      canvas is inside the container; `fallback`: the container shows the
      static gradient. */
  datatype Stage = Stage(
    framePending: bool,
    listening: bool,
    canvasAttached: bool,
    fallback: bool,
    camera: Camera,
    renderer: Renderer)

  /** Before anything is built: no frame, no listener, no canvas, no fallback. */
  const NoStage := Stage(false, false, false, false, NoCamera, NoRenderer)

  /** A Three.js points object (geometry and material): never built, live, or disposed. */
  datatype Resource = Absent | Live | Disposed
  {
    function Dispose(): Resource { if this == Live then Disposed else this }
  }
}
