/** The chat-room page's controller: the current theme, the background
    animation it owns, and the theme stylesheets linked into the document. */
module ChatRoomPage {
  import opened Host
  import opened Text
  import opened Themes
  import A = AmbientAnimation
  import C = StarfieldAnimation

  /** A `<link>` the selector `link[href*="chatBox"]` picks. */
  predicate IsThemeLink(href: string) {
    Contains(href, "chatBox")
  }

  /** `links` without the theme stylesheets, in document order. */
  function WithoutThemeLinks(links: seq<string>): (r: seq<string>)
    ensures |r| <= |links|
    ensures forall i :: 0 <= i < |r| ==> !IsThemeLink(r[i]) && r[i] in links
    decreases |links|
  {
    if links == [] then []
    else
      var last := links[|links| - 1];
      WithoutThemeLinks(links[..|links| - 1]) + (if IsThemeLink(last) then [] else [last])
  }

  /** The theme stylesheets among `links`, in document order. */
  function ThemeLinks(links: seq<string>): seq<string>
    decreases |links|
  {
    if links == [] then []
    else
      var last := links[|links| - 1];
      ThemeLinks(links[..|links| - 1]) + (if IsThemeLink(last) then [last] else [])
  }

  /** Removing the theme stylesheets keeps every other link: the two filters
      split the list. */
  lemma {:induction false} FiltersSplit(links: seq<string>)
    ensures |WithoutThemeLinks(links)| + |ThemeLinks(links)| == |links|
    ensures ThemeLinks(WithoutThemeLinks(links)) == []
    ensures forall h :: h in links && !IsThemeLink(h) ==> h in WithoutThemeLinks(links)
    decreases |links|
  {
    if links != [] {
      var init := links[..|links| - 1];
      FiltersSplit(init);
      ThemeLinksOfAppend(WithoutThemeLinks(init), if IsThemeLink(links[|links| - 1]) then [] else [links[|links| - 1]]);
      assert links == init + [links[|links| - 1]];
    }
  }

  lemma {:induction false} ThemeLinksOfAppend(links: seq<string>, more: seq<string>)
    ensures ThemeLinks(links + more) == ThemeLinks(links) + ThemeLinks(more)
    decreases |more|
  {
    if more == [] {
      assert links + more == links;
    } else {
      var init := more[..|more| - 1];
      var last := more[|more| - 1];
      var picked := if IsThemeLink(last) then [last] else [];
      ThemeLinksOfAppend(links, init);
      assert (links + more)[..|links + more| - 1] == links + init;
      assert (links + more)[|links + more| - 1] == last;
      calc {
        ThemeLinks(links + more);
        ThemeLinks(links + init) + picked;
        (ThemeLinks(links) + ThemeLinks(init)) + picked;
        ThemeLinks(links) + (ThemeLinks(init) + picked);
        ThemeLinks(links) + ThemeLinks(more);
      }
    }
  }

  /** Both theme stylesheets are picked by the selector. */
  lemma StyleSheetIsThemeLink(t: ThemeName)
    ensures IsThemeLink(StyleSheetFor(t))
  {
    assert StyleSheetFor(t)[..7] == "chatBox";
  }

  /** After the old theme links are removed and the new one appended, exactly
      one theme stylesheet is linked: the new one. */
  lemma OneThemeLink(links: seq<string>, t: ThemeName)
    ensures ThemeLinks(WithoutThemeLinks(links) + [StyleSheetFor(t)]) == [StyleSheetFor(t)]
  {
    FiltersSplit(links);
    StyleSheetIsThemeLink(t);
    ThemeLinksOfAppend(WithoutThemeLinks(links), [StyleSheetFor(t)]);
  }

  /** Remove every `<link>` whose `href` contains `chatBox`: the document's
      links that remain, in order. */
  method RemoveThemeLinks(links: seq<string>) returns (kept: seq<string>)
    ensures kept == WithoutThemeLinks(links)
    ensures ThemeLinks(kept) == []
  {
    kept := [];
    var i := 0;
    while i < |links|
      invariant 0 <= i <= |links|
      invariant kept == WithoutThemeLinks(links[..i])
    {
      assert links[..i + 1][..i] == links[..i];
      if !IsThemeLink(links[i]) {
        kept := kept + [links[i]];
      }
      i := i + 1;
    }
    assert links[..|links|] == links;
    FiltersSplit(links);
  }

  /** The theme links are replaced by the stylesheet of theme `t`, which is
      then the only theme link: the document's links afterwards. */
  method LinkStyleSheet(links: seq<string>, t: ThemeName) returns (linked: seq<string>)
    ensures linked == WithoutThemeLinks(links) + [StyleSheetFor(t)]
    ensures ThemeLinks(linked) == [StyleSheetFor(t)]
  {
    var kept := RemoveThemeLinks(links);
    linked := kept + [StyleSheetFor(t)];
    OneThemeLink(links, t);
  }

  class ChatRoom {
    const sin: Wave
    const cos: Wave
    /** The registry entry whose key is the `currentTheme` string. */
    var currentTheme: ThemeName
    var backgroundAnimation: Current
    /** The `href`s of the document's `<link>` elements, in document order. */
    var links: seq<string>
    /** The calls the room made on its animations, oldest first. */
    const trace: Trace

    ghost predicate Valid()
      reads this, backgroundAnimation.Objects()
    {
      backgroundAnimation.Valid()
    }

    /** The one theme stylesheet linked is the current theme's. */
    ghost predicate Styled()
      reads this
    {
      ThemeLinks(links) == [StyleSheetFor(currentTheme)]
    }

    /** `new ChatRoom()`: theme `dark` and no animation, then `initializeTheme`
      (`throws`: constructing the animation throws). */
    constructor (existingLinks: seq<string>, host: SceneHost, first: Tick, throws: bool, sin: Wave, cos: Wave)
      ensures Valid() && Styled() && fresh(trace) && this.sin == sin && this.cos == cos
      ensures currentTheme == Dark
      ensures links == WithoutThemeLinks(existingLinks) + [StyleSheetFor(Dark)]
      ensures throws ==> backgroundAnimation == NoAnimation && trace.events == []
      ensures !throws ==> && ConstructedAs(backgroundAnimation, Dark, host, first, sin, cos)
                          && trace.events == [Construction(backgroundAnimation)]
    {
      this.sin, this.cos := sin, cos;
      currentTheme := Dark;
      backgroundAnimation := NoAnimation;
      links := existingLinks;
      trace := new Trace();
      new;
      InitializeTheme(host, first, throws);
    }

    /** `initializeTheme`: the current theme's stylesheet replaces the theme
      links, and a new animation is constructed. The previous reference is
      overwritten without `cleanup()`. */
    method InitializeTheme(host: SceneHost, first: Tick, throws: bool)
      requires backgroundAnimation.Valid()
      modifies this, trace
      ensures Valid() && Styled() && currentTheme == old(currentTheme)
      ensures links == WithoutThemeLinks(old(links)) + [StyleSheetFor(currentTheme)]
      ensures throws ==> backgroundAnimation == old(backgroundAnimation) && trace.events == old(trace.events)
      ensures !throws ==> && fresh(backgroundAnimation.Objects())
                          && trace.events == old(trace.events) + [Construction(backgroundAnimation)]
                          && ConstructedAs(backgroundAnimation, currentTheme, host, first, sin, cos)
    {
      links := LinkStyleSheet(links, currentTheme);
      CreateAnimation(currentTheme, host, first, throws);
    }

    /** The animation half of `initializeTheme`: theme `t`'s animation is
      constructed, and the previous reference is overwritten. */
    method CreateAnimation(t: ThemeName, host: SceneHost, first: Tick, throws: bool)
      requires backgroundAnimation.Valid()
      modifies this`backgroundAnimation, trace
      ensures backgroundAnimation.Valid()
      ensures throws ==> backgroundAnimation == old(backgroundAnimation) && trace.events == old(trace.events)
      ensures !throws ==> && fresh(backgroundAnimation.Objects())
                          && ConstructedAs(backgroundAnimation, t, host, first, sin, cos)
                          && trace.events == old(trace.events) + [Construction(backgroundAnimation)]
    {
      if !throws {
        backgroundAnimation := Construct(t, host, first, sin, cos, trace);
      }
    }
  
    /** `switchTheme(id)`: an id the registry does not hold changes nothing;
      otherwise the theme changes, its stylesheet replaces the theme links,
      the old animation is cleaned up, and only then is the new one
      constructed (`throws`: the construction throws, and the reference
      keeps the cleaned-up instance). */
    method SwitchTheme(id: string, host: SceneHost, first: Tick, throws: bool)
      requires Valid()
      modifies this, backgroundAnimation.Objects(), trace
      ensures Valid()
      ensures ThemeFor(id).None? ==>
        && currentTheme == old(currentTheme) && links == old(links)
        && backgroundAnimation == old(backgroundAnimation) && trace.events == old(trace.events)
        && unchanged(backgroundAnimation.Objects())
      ensures ThemeFor(id).Some? ==>
        && Key(currentTheme) == id && Styled()
        && links == WithoutThemeLinks(old(links)) + [StyleSheetFor(currentTheme)]
        && (old(backgroundAnimation) != NoAnimation ==> old(backgroundAnimation).Destroyed())
        && StateOf(old(backgroundAnimation)) == CleanedUpState(old(StateOf(backgroundAnimation)))
        && (throws ==> backgroundAnimation == old(backgroundAnimation))
        && (!throws ==> fresh(backgroundAnimation.Objects())
                        && ConstructedAs(backgroundAnimation, currentTheme, host, first, sin, cos))
        && trace.events == old(trace.events) + Handoff(old(backgroundAnimation), backgroundAnimation, !throws)
    {
      var theme := ThemeFor(id);
      if theme.None? {
        return;
      }
      var t := theme.value;
      currentTheme := t;
      links := LinkStyleSheet(links, t);
      ReplaceAnimation(t, host, first, throws);
    }

    /** The animation half of `switchTheme`: the old animation is cleaned up,
      then theme `t`'s is constructed. */
    method ReplaceAnimation(t: ThemeName, host: SceneHost, first: Tick, throws: bool)
      requires backgroundAnimation.Valid()
      modifies this`backgroundAnimation, backgroundAnimation.Objects(), trace
      ensures backgroundAnimation.Valid()
      ensures old(backgroundAnimation) != NoAnimation ==> old(backgroundAnimation).Destroyed()
      ensures StateOf(old(backgroundAnimation)) == CleanedUpState(old(StateOf(backgroundAnimation)))
      ensures throws ==> backgroundAnimation == old(backgroundAnimation)
      ensures !throws ==> && fresh(backgroundAnimation.Objects())
                          && ConstructedAs(backgroundAnimation, t, host, first, sin, cos)
      ensures trace.events == old(trace.events) + Handoff(old(backgroundAnimation), backgroundAnimation, !throws)
    {
      backgroundAnimation := Replace(backgroundAnimation, t, host, first, throws, sin, cos, trace);
    }

    /** The theme button: `dark` and `white` swap. */
    method OnThemeButton(host: SceneHost, first: Tick, throws: bool)
      requires Valid()
      modifies this, backgroundAnimation.Objects(), trace
      ensures Valid() && Styled()
      ensures Key(currentTheme) == Toggled(Key(old(currentTheme))) && currentTheme != old(currentTheme)
      ensures trace.events == old(trace.events) + Handoff(old(backgroundAnimation), backgroundAnimation, !throws)
    {
      SwitchTheme(Toggled(Key(currentTheme)), host, first, throws);
    }

    /** `cleanup`: delegated to the current animation, when there is one. */
    method Cleanup()
      requires Valid()
      modifies backgroundAnimation.Objects(), trace
      ensures Valid()
      ensures backgroundAnimation != NoAnimation ==> backgroundAnimation.Destroyed()
      ensures StateOf(backgroundAnimation) == CleanedUpState(old(StateOf(backgroundAnimation)))
      ensures trace.events == old(trace.events)
                              + if backgroundAnimation == NoAnimation then [] else [CleanupCall(backgroundAnimation)]
    {
      CleanUp(backgroundAnimation, trace);
    }
  }
}
