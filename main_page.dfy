/** The landing page script: its module-level state (the current theme, the
    style element's text, the background-animation reference) as the fields
    of one `Page`, and the handlers that change it. */
module MainPage {
  import opened Host
  import opened Text
  import opened Themes
  import A = AmbientAnimation
  import C = StarfieldAnimation

  class Page {
    const sin: Wave
    const cos: Wave
    /** The registry entry whose key is the `currentTheme` string. */
    var currentTheme: ThemeName
    /** The `<style>` element's text. */
    var styles: Styles
    var backgroundAnimation: Current
    /** The calls the page made on its animations, oldest first. */
    const trace: Trace

    /** The theme is a registry key and the style text is that theme's. */
    ghost predicate Valid()
      reads this, backgroundAnimation.Objects()
    {
      && styles == StylesFor(currentTheme)
      && backgroundAnimation.Valid()
    }

    /** Loading the script: theme `dark`, its styles, then the first animation
      (`throws`: its construction throws, leaving the reference `null`). */
    constructor (host: SceneHost, first: Tick, throws: bool, sin: Wave, cos: Wave)
      ensures Valid() && fresh(trace) && this.sin == sin && this.cos == cos
      ensures currentTheme == Dark && styles == ChatBoxStylesB
      ensures throws ==> backgroundAnimation == NoAnimation && trace.events == []
      ensures !throws ==> && ConstructedAs(backgroundAnimation, Dark, host, first, sin, cos)
                          && trace.events == [Construction(backgroundAnimation)]
    {
      this.sin, this.cos := sin, cos;
      currentTheme := Dark;
      styles := StylesFor(Dark);
      backgroundAnimation := NoAnimation;
      trace := new Trace();
      new;
      if !throws {
        backgroundAnimation := Construct(Dark, host, first, sin, cos, trace);
      }
    }

    /** `switchTheme(id)`: an id the registry does not hold changes nothing;
      otherwise the theme and style text change, the old animation is
      cleaned up, and only then is the new one constructed (`throws`: the
      construction throws, and the reference keeps the cleaned-up instance). */
    method SwitchTheme(id: string, host: SceneHost, first: Tick, throws: bool)
      requires Valid()
      modifies this, backgroundAnimation.Objects(), trace
      ensures Valid()
      ensures ThemeFor(id).None? ==>
        && currentTheme == old(currentTheme) && styles == old(styles)
        && backgroundAnimation == old(backgroundAnimation) && trace.events == old(trace.events)
        && unchanged(backgroundAnimation.Objects())
      ensures ThemeFor(id).Some? ==>
        && Key(currentTheme) == id && styles == StylesFor(currentTheme)
        && (old(backgroundAnimation) != NoAnimation ==> old(backgroundAnimation).Destroyed())
        && StateOf(old(backgroundAnimation)) == CleanedUpState(old(StateOf(backgroundAnimation)))
        && (throws ==> backgroundAnimation == old(backgroundAnimation))
        && (!throws ==> fresh(backgroundAnimation.Objects())
                        && ConstructedAs(backgroundAnimation, currentTheme, host, first, sin, cos))
        && trace.events == old(trace.events) + Handoff(old(backgroundAnimation), backgroundAnimation, !throws)
    {
      var theme := ThemeFor(id);
      if theme.None? {
        return;
      }
      currentTheme := theme.value;
      styles := StylesFor(theme.value);
      backgroundAnimation := Replace(backgroundAnimation, theme.value, host, first, throws, sin, cos, trace);
    }

    /** The theme button: always the other theme. */
    method OnThemeButton(host: SceneHost, first: Tick, throws: bool)
      requires Valid()
      modifies this, backgroundAnimation.Objects(), trace
      ensures Valid()
      ensures Key(currentTheme) == Toggled(Key(old(currentTheme))) && currentTheme != old(currentTheme)
      ensures trace.events == old(trace.events) + Handoff(old(backgroundAnimation), backgroundAnimation, !throws)
    {
      SwitchTheme(Toggled(Key(currentTheme)), host, first, throws);
    }

    /** `sendMessage` up to its request: a message that is empty once trimmed
      does nothing; otherwise the animation the page refers to, if any, is
      told the assistant is typing. */
    method SendMessage(input: string) returns (sent: bool, message: string)
      requires Valid()
      modifies backgroundAnimation.Objects(), trace
      ensures Valid()
      ensures sent <==> !Blank(input)
      ensures sent ==> message == Trim(input) && message != []
      ensures !sent ==> trace.events == old(trace.events) && unchanged(backgroundAnimation.Objects())
      ensures sent && backgroundAnimation != NoAnimation ==>
        trace.events == old(trace.events) + [TypingCall(backgroundAnimation, true)]
      ensures sent && backgroundAnimation.Ambient? ==>
        var a := backgroundAnimation.a; a.State() == old(a.State()).(isAgentTyping := true)
      ensures sent && backgroundAnimation.Starfield? ==>
        var c := backgroundAnimation.c; c.State() == C.TypingSet(old(c.State()), true)
    {
      message := Trim(input);
      if message == [] {
        return false, message;
      }
      sent := true;
      SetTyping(backgroundAnimation, true, trace);
    }

    /** The end of `sendMessage`'s request, with a reply or with a thrown
      error (both make the same call): the animation the page refers to at
      that moment, if any, is told the assistant stopped typing. When the
      theme was switched during the request, that is the new animation. */
    method OnRequestEnd()
      requires Valid()
      modifies backgroundAnimation.Objects(), trace
      ensures Valid()
      ensures backgroundAnimation != NoAnimation ==>
        trace.events == old(trace.events) + [TypingCall(backgroundAnimation, false)]
      ensures backgroundAnimation == NoAnimation ==> trace.events == old(trace.events)
      ensures backgroundAnimation.Ambient? ==>
        var a := backgroundAnimation.a; a.State() == old(a.State()).(isAgentTyping := false)
      ensures backgroundAnimation.Starfield? ==>
        var c := backgroundAnimation.c; c.State() == C.TypingSet(old(c.State()), false)
    {
      SetTyping(backgroundAnimation, false, trace);
    }

    /** `beforeunload`: the current animation, if any, is cleaned up. */
    method OnUnload()
      requires Valid()
      modifies backgroundAnimation.Objects(), trace
      ensures Valid()
      ensures backgroundAnimation != NoAnimation ==> backgroundAnimation.Destroyed()
      ensures StateOf(backgroundAnimation) == CleanedUpState(old(StateOf(backgroundAnimation)))
      ensures trace.events == old(trace.events)
                              + if backgroundAnimation == NoAnimation then [] else [CleanupCall(backgroundAnimation)]
    {
      CleanUp(backgroundAnimation, trace);
    }
  }
}
