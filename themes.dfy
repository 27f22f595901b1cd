/** The two-entry theme registry both pages share, the reference a page
    keeps to its current background animation, and the two calls a page makes
    on that reference when the theme changes: `cleanup()` on the old
    animation and `new` for the next one. */
module Themes {
  import opened Host
  import A = AmbientAnimation
  import C = StarfieldAnimation

  datatype Option<T> = None | Some(value: T)

  /** The registry's entries: `white` (the ambient animation, chat-box styles
      A) and `dark` (the starfield animation, chat-box styles B). */
  datatype ThemeName = White | Dark

  /** The entry's key in the registry object. */
  function Key(t: ThemeName): string {
    match t
    case White => "white"
    case Dark => "dark"
  }

  /** The registry entry an id names, as an own-property lookup. */
  function ThemeFor(id: string): (r: Option<ThemeName>)
    ensures r.Some? <==> id == "white" || id == "dark"
    ensures r.Some? ==> Key(r.value) == id
  {
    if id == "white" then Some(White) else if id == "dark" then Some(Dark) else None
  }

  /** Every entry is found under its own key. */
  lemma KeyRoundTrip(t: ThemeName)
    ensures ThemeFor(Key(t)) == Some(t)
  {
  }

  /** The names every plain object inherits from `Object.prototype`; reading
      any of them from the registry gives a function or an object, never
      `undefined`. */
  const InheritedNames: set<string> := {
    "constructor", "hasOwnProperty", "isPrototypeOf", "propertyIsEnumerable",
    "toLocaleString", "toString", "valueOf", "__proto__", "__defineGetter__",
    "__defineSetter__", "__lookupGetter__", "__lookupSetter__"}

  /** What `themes[id]` evaluates to: an own entry, an inherited member, or `undefined`. */
  datatype Lookup = OwnEntry(theme: ThemeName) | InheritedMember(name: string) | Undefined

  /** `themes[id]` as the registry is written, a plain object literal. */
  function LookupAsWritten(id: string): (r: Lookup)
    ensures r.OwnEntry? <==> ThemeFor(id).Some?
    ensures r.InheritedMember? <==> id in InheritedNames
  {
    match ThemeFor(id)
    case Some(t) => OwnEntry(t)
    case None => if id in InheritedNames then InheritedMember(id) else Undefined
  }

  /** The guard `if (!themes[id]) return;` lets `id` through. */
  predicate GuardPassesAsWritten(id: string) {
    !LookupAsWritten(id).Undefined?
  }

  /** The guard as written lets through every registered id and also every
      inherited member name, such as `toString`, which names no theme. */
  lemma GuardAdmitsInheritedNames(id: string)
    ensures GuardPassesAsWritten(id) <==> ThemeFor(id).Some? || id in InheritedNames
    ensures GuardPassesAsWritten("toString") && ThemeFor("toString") == None
  {
    assert "toString" in InheritedNames;
  }

  /** The theme button's choice: `dark` turns into `white`, anything else into `dark`. */
  function Toggled(current: string): (r: string)
    ensures ThemeFor(r).Some?
    ensures r == "white" <==> current == "dark"
    ensures ThemeFor(current).Some? ==> r != current
  {
    if current == "dark" then "white" else "dark"
  }

  /** Toggling twice from a registered theme comes back to it. */
  lemma ToggleTwice(current: string)
    requires ThemeFor(current).Some?
    ensures Toggled(Toggled(current)) == current
  {
  }

  /** The style text `main.js` installs: what `createChatBoxStyles` of
      chat-box A or B returns. */
  datatype Styles = ChatBoxStylesA | ChatBoxStylesB

  function StylesFor(t: ThemeName): Styles {
    match t
    case White => ChatBoxStylesA
    case Dark => ChatBoxStylesB
  }

  /** The stylesheet `chatRoom.js` links. */
  function StyleSheetFor(t: ThemeName): (href: string) {
    match t
    case White => "chatBoxA.css"
    case Dark => "chatBoxB.css"
  }

  /** A page's background-animation reference: `null`, or an instance of one of the two classes. */
  datatype Current = NoAnimation | Ambient(a: A.BackgroundAnimation) | Starfield(c: C.BackgroundAnimation)
  {
    /** The objects an operation on the instance may change. */
    function Objects(): set<object> {
      match this
      case NoAnimation => {}
      case Ambient(a) => {a}
      case Starfield(c) => {c}
    }

    /** The instance and the arrays its `State()` reads. */
    function Footprint(): set<object>
      reads Objects()
    {
      match this
      case NoAnimation => {}
      case Ambient(a) => {a}
      case Starfield(c) => {c, c.starSizes, c.nebulaPositions}
    }

    ghost predicate Valid()
      reads Objects()
    {
      this.Starfield? ==> c.Valid()
    }

    predicate Destroyed()
      reads Objects()
    {
      match this
      case NoAnimation => false
      case Ambient(a) => a.isDestroyed
      case Starfield(c) => c.isDestroyed
    }
  }

  /** A call a page made on an animation: `cleanup()`, `new`, or `setTyping`. */
  datatype Event = CleanupCall(animation: Current) | Construction(animation: Current)
                 | TypingCall(animation: Current, typing: bool)

  /** The calls a page has made on its animations, oldest first. Each of
      `CleanUp`, `Construct` and `SetTyping` appends its own call, so the
      record follows the order in which the calls ran. The program keeps no
      such record. */
  class Trace {
    ghost var events: seq<Event>

    constructor ()
      ensures events == []
    {
      events := [];
    }
  }

  /** The calls of a valid `switchTheme`, in the order the code makes them:
      `cleanup()` on the previous animation (when there is one), then `new`
      (when it did not throw). */
  function Handoff(previous: Current, next: Current, constructed: bool): seq<Event> {
    (if previous == NoAnimation then [] else [CleanupCall(previous)])
    + (if constructed then [Construction(next)] else [])
  }

  /** `cur` is an instance of theme `t`'s animation class. */
  predicate InstanceOf(cur: Current, t: ThemeName) {
    match t
    case White => cur.Ambient?
    case Dark => cur.Starfield?
  }

  /** `cur` is an instance of theme `t`'s animation class in the state its
      constructor leaves. */
  ghost predicate ConstructedAs(cur: Current, t: ThemeName, host: SceneHost, first: Tick, sin: Wave, cos: Wave)
    reads cur.Objects(), cur.Footprint()
  {
    match t
    case White => cur.Ambient? && cur.a.State() == A.Constructed(host, first, sin)
    case Dark => cur.Starfield? && cur.c.State() == C.Constructed(host, first, sin, cos)
  }

  /** The state of the instance a reference names, whichever its class. */
  datatype Snapshot = NoState | AmbientState(a: A.Ambient) | StarfieldState(c: C.Starfield)

  function StateOf(cur: Current): (r: Snapshot)
    reads cur.Objects(), cur.Footprint()
    ensures r.NoState? <==> cur == NoAnimation
  {
    match cur
    case NoAnimation => NoState
    case Ambient(a) => AmbientState(a.State())
    case Starfield(c) => StarfieldState(c.State())
  }

  /** Nothing of the instance is left running: it is destroyed, no frame is
      pending, no resize listener is registered and no canvas is attached. */
  predicate Stopped(s: Snapshot) {
    match s
    case NoState => true
    case AmbientState(a) =>
      a.isDestroyed && !a.stage.framePending && !a.stage.listening && !a.stage.canvasAttached
    case StarfieldState(c) =>
      c.isDestroyed && !c.stage.framePending && !c.stage.listening && !c.stage.canvasAttached
  }

  /** What the instance's own `cleanup()` leaves: it stops everything, and a
      second `cleanup()` changes nothing more. */
  function CleanedUpState(s: Snapshot): (r: Snapshot)
    ensures r.NoState? <==> s.NoState?
    ensures Stopped(r)
    ensures r.AmbientState? ==> A.CleanedUp(r.a) == r.a
    ensures r.StarfieldState? ==> C.CleanedUp(r.c) == r.c
  {
    match s
    case NoState => NoState
    case AmbientState(a) => A.CleanupIdempotent(a); AmbientState(A.CleanedUp(a))
    case StarfieldState(c) => C.CleanupIdempotent(c); StarfieldState(C.CleanedUp(c))
  }

  /** `new theme.backgroundAnimation(container)`: the registry entry's class,
      recorded in `trace`. */
  method Construct(t: ThemeName, host: SceneHost, first: Tick, sin: Wave, cos: Wave, trace: Trace)
    returns (cur: Current)
    modifies trace
    ensures fresh(cur.Objects()) && cur.Valid() && InstanceOf(cur, t)
    ensures ConstructedAs(cur, t, host, first, sin, cos)
    ensures trace.events == old(trace.events) + [Construction(cur)]
  {
    match t {
      case White =>
        var a := new A.BackgroundAnimation(host, first, sin);
        cur := Ambient(a);
      case Dark =>
        var c := new C.BackgroundAnimation(host, first, sin, cos);
        cur := Starfield(c);
    }
    trace.events := trace.events + [Construction(cur)];
  }

  /** `if (animation) animation.cleanup();`, recorded in `trace`. */
  method CleanUp(cur: Current, trace: Trace)
    requires cur.Valid()
    modifies cur.Objects(), trace
    ensures cur.Valid()
    ensures cur != NoAnimation ==> cur.Destroyed()
    ensures cur.Ambient? ==> cur.a.State() == A.CleanedUp(old(cur.a.State()))
    ensures cur.Starfield? ==> cur.c.State() == C.CleanedUp(old(cur.c.State()))
    ensures StateOf(cur) == CleanedUpState(old(StateOf(cur)))
    ensures trace.events == old(trace.events) + if cur == NoAnimation then [] else [CleanupCall(cur)]
  {
    match cur {
      case NoAnimation =>
      case Ambient(a) => a.Cleanup();
      case Starfield(c) => c.Cleanup();
    }
    if cur != NoAnimation {
      trace.events := trace.events + [CleanupCall(cur)];
    }
  }

  /** What `switchTheme` does to the animation once the id is accepted:
      `cleanup()` on the previous instance (when there is one), then
      `new` for theme `t`'s class (`throws`: the construction throws and the
      reference keeps the cleaned-up instance). The calls record themselves
      in `trace`, so its new events show the cleanup ran first. */
  method Replace(previous: Current, t: ThemeName, host: SceneHost, first: Tick, throws: bool,
                 sin: Wave, cos: Wave, trace: Trace)
    returns (next: Current)
    requires previous.Valid()
    modifies previous.Objects(), trace
    ensures next.Valid()
    ensures previous != NoAnimation ==> previous.Destroyed()
    ensures StateOf(previous) == CleanedUpState(old(StateOf(previous)))
    ensures throws ==> next == previous
    ensures !throws ==> fresh(next.Objects()) && ConstructedAs(next, t, host, first, sin, cos)
    ensures trace.events == old(trace.events) + Handoff(previous, next, !throws)
  {
    CleanUp(previous, trace);
    next := previous;
    if !throws {
      next := Construct(t, host, first, sin, cos, trace);
    }
  }

  /** `if (animation) animation.setTyping(typing);`, recorded in `trace`. */
  method SetTyping(cur: Current, typing: bool, trace: Trace)
    requires cur.Valid()
    modifies cur.Objects(), trace
    ensures cur.Valid()
    ensures cur.Ambient? ==> cur.a.State() == old(cur.a.State()).(isAgentTyping := typing)
    ensures cur.Starfield? ==> cur.c.State() == C.TypingSet(old(cur.c.State()), typing)
    ensures trace.events == old(trace.events) + if cur == NoAnimation then [] else [TypingCall(cur, typing)]
  {
    match cur {
      case NoAnimation =>
      case Ambient(a) => a.SetTyping(typing);
      case Starfield(c) => c.SetTyping(typing);
    }
    if cur != NoAnimation {
      trace.events := trace.events + [TypingCall(cur, typing)];
    }
  }
}
